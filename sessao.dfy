/**
 * Sequences of calls on one account. Each step is what the class methods
 * promise for one call: `Depositar` credits, an unwoven `Sacar` follows
 * `Saque`, and a woven `Sacar` follows `SaqueVerificado`. The lemmas lift the
 * one-call facts to any number of calls.
 */
module Sessao {
  import opened Contas
  import opened Verificacao

  /** A call made on an account. */
  datatype Chamada = Depositar(valor: real) | Sacar(valor: real)

  /** Balance and outcome of one call without the aspect. */
  function Efeito(saldo: real, c: Chamada): (real, Resultado)
  {
    match c
    case Depositar(v) => (saldo + v, Sucesso)
    case Sacar(v) => (Saque(saldo, v).saldo, Saque(saldo, v).resultado)
  }

  /** Final balance and the outcome of each call, without the aspect. */
  function Executar(saldo: real, cs: seq<Chamada>): (r: (real, seq<Resultado>))
    ensures |r.1| == |cs|
    decreases |cs|
  {
    if cs == [] then (saldo, [])
    else
      var (s1, r1) := Efeito(saldo, cs[0]);
      var (sn, rs) := Executar(s1, cs[1..]);
      (sn, [r1] + rs)
  }

  /** Final balance, the outcome of each call and the log, with the aspect woven in. */
  function ExecutarVerificado(saldo: real, cs: seq<Chamada>): (r: (real, seq<Resultado>, seq<Registro>))
    ensures |r.1| == |cs|
    decreases |cs|
  {
    if cs == [] then (saldo, [], [])
    else
      var (s1, r1, l1) := match cs[0]
        case Depositar(_) =>
          var (s, r) := Efeito(saldo, cs[0]);
          (s, r, [])
        case Sacar(v) =>
          var (p, l) := SaqueVerificado(saldo, v);
          (p.saldo, p.resultado, l);
      var (sn, rs, ls) := ExecutarVerificado(s1, cs[1..]);
      (sn, [r1] + rs, l1 + ls)
  }

  /**
   * The log lines that the calls `cs` with outcomes `rs` should produce, in
   * order: one per failed call, holding the amount of that call and its error.
   */
  function Falhas(cs: seq<Chamada>, rs: seq<Resultado>): seq<Registro>
    requires |cs| == |rs|
  {
    if rs == [] then []
    else (if rs[0].Falha? then [Registro(cs[0].valor, rs[0].erro)] else []) + Falhas(cs[1..], rs[1..])
  }

  /** Net change of the balance: every deposit, minus every withdrawal that succeeded. */
  function Movimento(cs: seq<Chamada>, rs: seq<Resultado>): real
    requires |cs| == |rs|
  {
    if cs == [] then 0.0
    else
      (match cs[0]
       case Depositar(v) => v
       case Sacar(v) => if rs[0].Sucesso? then -v else 0.0)
      + Movimento(cs[1..], rs[1..])
  }

  /** Every deposit in `cs` is of a non-negative amount. */
  predicate DepositosNaoNegativos(cs: seq<Chamada>)
  {
    forall i :: 0 <= i < |cs| && cs[i].Depositar? ==> cs[i].valor >= 0.0
  }

  /**
   * Weaving the aspect in changes neither the balance nor the outcome of any
   * call, over any sequence of calls.
   */
  lemma {:induction false} VerificadoIgualAoSimples(saldo: real, cs: seq<Chamada>)
    ensures ExecutarVerificado(saldo, cs).0 == Executar(saldo, cs).0
    ensures ExecutarVerificado(saldo, cs).1 == Executar(saldo, cs).1
    decreases |cs|
  {
    if cs != [] {
      VerificadoIgualAoSimples(Efeito(saldo, cs[0]).0, cs[1..]);
    }
  }

  /**
   * Only withdrawals fail, and a failed withdrawal's error carries the
   * amount of that very call.
   */
  lemma {:induction false} ResultadosDasChamadas(saldo: real, cs: seq<Chamada>)
    ensures forall i :: 0 <= i < |cs| && Executar(saldo, cs).1[i].Falha? ==>
      cs[i].Sacar? && Executar(saldo, cs).1[i].erro.valor == cs[i].valor
    decreases |cs|
  {
    if cs != [] {
      var s1 := Efeito(saldo, cs[0]).0;
      var rs := Executar(saldo, cs).1;
      ResultadosDasChamadas(s1, cs[1..]);
      forall i | 0 <= i < |cs| && rs[i].Falha?
        ensures cs[i].Sacar? && rs[i].erro.valor == cs[i].valor
      {
        if i > 0 {
          assert rs[i] == Executar(s1, cs[1..]).1[i - 1];
          assert cs[i] == cs[1..][i - 1];
        }
      }
    }
  }

  /**
   * With the aspect woven in, the log holds exactly one line per failed
   * call, in call order, each with the amount of that call and its error;
   * by `ResultadosDasChamadas`, every failed call is a withdrawal whose error
   * carries that same amount.
   */
  lemma {:induction false} UmRegistroPorFalha(saldo: real, cs: seq<Chamada>)
    ensures ExecutarVerificado(saldo, cs).2 == Falhas(cs, ExecutarVerificado(saldo, cs).1)
    decreases |cs|
  {
    if cs != [] {
      var r := ExecutarVerificado(saldo, cs);
      var s1 := Efeito(saldo, cs[0]).0;
      VerificadoIgualAoSimples(saldo, [cs[0]]);
      UmRegistroPorFalha(s1, cs[1..]);
      assert r.1[1..] == ExecutarVerificado(s1, cs[1..]).1;
    }
  }

  /**
   * All-or-nothing over a whole session: the final balance is the initial
   * one plus the deposits minus exactly the withdrawals that succeeded.
   */
  lemma {:induction false} SaldoFinal(saldo: real, cs: seq<Chamada>)
    ensures Executar(saldo, cs).0 == saldo + Movimento(cs, Executar(saldo, cs).1)
    decreases |cs|
  {
    if cs != [] {
      var s1 := Efeito(saldo, cs[0]).0;
      SaldoFinal(s1, cs[1..]);
      assert Executar(saldo, cs).1[1..] == Executar(s1, cs[1..]).1;
    }
  }

  /**
   * The non-negative balance that the withdrawal check protects is kept
   * only when the account starts non-negative and no deposit is negative;
   * construction and deposit themselves check nothing.
   */
  lemma {:induction false} SaldoNaoNegativo(saldo: real, cs: seq<Chamada>)
    requires saldo >= 0.0
    requires DepositosNaoNegativos(cs)
    ensures Executar(saldo, cs).0 >= 0.0
    decreases |cs|
  {
    if cs != [] {
      var s1 := Efeito(saldo, cs[0]).0;
      assert cs[0].Depositar? ==> cs[0].valor >= 0.0;
      assert DepositosNaoNegativos(cs[1..]) by {
        forall i | 0 <= i < |cs[1..]| && cs[1..][i].Depositar?
          ensures cs[1..][i].valor >= 0.0
        {
          assert cs[1..][i] == cs[i + 1];
        }
      }
      SaldoNaoNegativo(s1, cs[1..]);
    }
  }

  /** A single negative deposit is enough to take a zero balance below zero. */
  lemma DepositoNegativoQuebraInvariante()
    ensures Executar(0.0, [Depositar(-1.0)]).0 < 0.0
  {
    var cs := [Depositar(-1.0)];
    assert cs[1..] == [];
    assert Executar(-1.0, cs[1..]).0 == -1.0;
  }
}
