/**
 * The aspect VerificacaoSaldoAspect, woven around every ContaBancaria.sacar
 * call: a before advice that rejects the withdrawal when the balance is
 * below the amount, and an after-throwing advice that logs each failure and
 * lets the error go on. The weaving is made explicit here: `SacarVerificado`
 * is the woven call. The console line of the after-throwing advice is a
 * `Registro` appended to the aspect's `log`.
 */
module Verificacao {
  import opened Contas

  /** One logged failure: the attempted amount and the error that ended it. */
  datatype Registro = Registro(valor: real, erro: SaldoInsuficienteException)

  /**
   * Specification of the before advice on balance `saldo`: it throws exactly
   * when the balance is below the amount, and carries that amount.
   */
  function Checagem(saldo: real, valor: real): (r: Resultado)
    ensures r.Falha? <==> saldo < valor
    ensures r.Falha? ==> r.erro.valor == valor
  {
    if saldo < valor then Falha(SaldoInsuficienteException(valor)) else Sucesso
  }

  /**
   * The before advice's test and the withdrawal's own test are the same
   * condition: the advice rejects exactly what the withdrawal would, with
   * the same error.
   */
  lemma ChecagemEquivaleAoSaque(saldo: real, valor: real)
    ensures Checagem(saldo, valor) == Saque(saldo, valor).resultado
  {
  }

  /** Once the before advice lets a call through, the withdrawal's throw is unreachable. */
  lemma ChecagemTornaThrowInalcancavel(saldo: real, valor: real)
    requires Checagem(saldo, valor).Sucesso?
    ensures Saque(saldo, valor) == Passo(saldo - valor, Sucesso)
  {
  }

  /**
   * Specification of the woven withdrawal: the before advice, then (if it
   * let the call through) the withdrawal, then the after-throwing advice if
   * anything threw. Returns the balance and outcome, and the log lines
   * emitted. The outcome and balance are those of the unwoven withdrawal;
   * a failure logs exactly one line with the amount and the unchanged
   * error, and a success logs nothing.
   */
  function SaqueVerificado(saldo: real, valor: real): (r: (Passo, seq<Registro>))
    ensures r.0 == Saque(saldo, valor)
    ensures r.0.resultado.Sucesso? ==> r.1 == []
    ensures r.0.resultado.Falha? ==> r.1 == [Registro(valor, r.0.resultado.erro)]
  {
    var antes := Checagem(saldo, valor);
    var p := if antes.Falha? then Passo(saldo, antes) else Saque(saldo, valor);
    (p, if p.resultado.Falha? then [Registro(valor, p.resultado.erro)] else [])
  }

  class VerificacaoSaldoAspect {
    /** The lines printed by the after-throwing advice, oldest first. */
    var log: seq<Registro>

    constructor ()
      ensures log == []
    {
      log := [];
    }

    /** The before advice: reads the target's balance, changes nothing. */
    method ChecarSaldo(conta: ContaBancaria, valor: real) returns (r: Resultado)
      ensures r == Checagem(conta.saldo, valor)
    {
      var saldo := conta.GetSaldo();
      if saldo < valor {
        return Falha(SaldoInsuficienteException(valor));
      }
      r := Sucesso;
    }

    /** The after-throwing advice: logs the amount and the error. */
    method LogSaldoInsuficiente(valor: real, ex: SaldoInsuficienteException)
      modifies this
      ensures log == old(log) + [Registro(valor, ex)]
    {
      log := log + [Registro(valor, ex)];
    }

    /**
     * A call of `conta.Sacar(valor)` with this aspect woven in: the new
     * balance, the outcome and the lines appended to the log are those of
     * `SaqueVerificado`, so it ends exactly as the unwoven call would,
     * appends one log line per failure and none on success, and the error it
     * passes on is the one logged.
     */
    method SacarVerificado(conta: ContaBancaria, valor: real) returns (r: Resultado)
      modifies this, conta
      ensures old(log) <= log
      ensures (Passo(conta.saldo, r), log[|old(log)|..]) == SaqueVerificado(old(conta.saldo), valor)
    {
      ghost var antes := log;
      r := ChecarSaldo(conta, valor);
      if r.Sucesso? {
        r := conta.Sacar(valor);
        // The withdrawal's own check cannot fire after the advice's.
        assert r.Sucesso?;
      }
      if r.Falha? {
        LogSaldoInsuficiente(valor, r.erro);
      }
      assert log[|antes|..] == if r.Falha? then [Registro(valor, r.erro)] else [];
    }
  }
}
