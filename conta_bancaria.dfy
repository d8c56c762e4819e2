/**
 * The bank account of ContaBancaria.java: one mutable balance, an
 * unconditional deposit and an all-or-nothing withdrawal that fails with
 * SaldoInsuficienteException. The two concrete accounts (ContaCorrente and
 * ContaPoupanca) differ only in type identity, so they are one class tagged
 * by `Tipo`; each keeps its own withdrawal body.
 *
 * Balances and amounts are `real`: the Java `double` is modelled without
 * rounding, infinities or NaN.
 */
module Contas {

  /** The concrete account class an account was created as. */
  datatype Tipo = ContaCorrente | ContaPoupanca

  /**
   * The insufficient-funds error. The Java exception carries a message made
   * from the attempted amount; here it carries the amount itself.
   */
  datatype SaldoInsuficienteException = SaldoInsuficienteException(valor: real)

  /** How a withdrawal ends: it returns normally, or it throws. */
  datatype Resultado = Sucesso | Falha(erro: SaldoInsuficienteException)

  /** The balance after a withdrawal, together with how the withdrawal ended. */
  datatype Passo = Passo(saldo: real, resultado: Resultado)

  /**
   * Specification of one withdrawal of `valor` from balance `saldo`: it
   * succeeds exactly when the amount does not exceed the balance, takes the
   * whole amount when it succeeds, and takes nothing when it fails.
   */
  function Saque(saldo: real, valor: real): (p: Passo)
    ensures p.resultado.Sucesso? <==> valor <= saldo
    ensures p.resultado.Sucesso? ==> p.saldo == saldo - valor
    ensures p.resultado.Falha? ==> p.saldo == saldo && p.resultado.erro.valor == valor
  {
    if valor > saldo then Passo(saldo, Falha(SaldoInsuficienteException(valor)))
    else Passo(saldo - valor, Sucesso)
  }

  /** A withdrawal never leaves a non-negative balance negative. */
  lemma SaqueMantemSaldoNaoNegativo(saldo: real, valor: real)
    requires saldo >= 0.0
    ensures Saque(saldo, valor).saldo >= 0.0
  {
  }

  /**
   * Nothing stops a negative amount: from a non-negative balance it always
   * passes the check and raises the balance by its absolute value.
   */
  lemma SaqueNegativoCredita(saldo: real, valor: real)
    requires valor < 0.0 <= saldo
    ensures Saque(saldo, valor) == Passo(saldo - valor, Sucesso)
    ensures Saque(saldo, valor).saldo > saldo
  {
  }

  class ContaBancaria {
    const tipo: Tipo
    var saldo: real

    /** Both subclass constructors pass the initial balance on unchecked. */
    constructor (tipo: Tipo, saldoInicial: real)
      ensures this.tipo == tipo && saldo == saldoInicial
    {
      this.tipo := tipo;
      saldo := saldoInicial;
    }

    /** Credits any amount, negative included; it never fails. */
    method Depositar(valor: real)
      modifies this
      ensures saldo == old(saldo) + valor
    {
      saldo := saldo + valor;
    }

    /** Reads the balance and changes nothing. */
    method GetSaldo() returns (r: real)
      ensures r == saldo
    {
      r := saldo;
    }

    /**
     * The overridden withdrawal: whichever class the account is, the
     * outcome and the new balance are those of `Saque`.
     */
    method Sacar(valor: real) returns (r: Resultado)
      modifies this
      ensures Passo(saldo, r) == Saque(old(saldo), valor)
    {
      match tipo
      case ContaCorrente => r := SacarCorrente(valor);
      case ContaPoupanca => r := SacarPoupanca(valor);
    }

    /** The withdrawal of ContaCorrente. */
    method SacarCorrente(valor: real) returns (r: Resultado)
      modifies this
      ensures Passo(saldo, r) == Saque(old(saldo), valor)
    {
      if valor > saldo {
        return Falha(SaldoInsuficienteException(valor));
      }
      saldo := saldo - valor;
      r := Sucesso;
    }

    /** The withdrawal of ContaPoupanca, written separately as in its class. */
    method SacarPoupanca(valor: real) returns (r: Resultado)
      modifies this
      ensures Passo(saldo, r) == Saque(old(saldo), valor)
    {
      if valor > saldo {
        return Falha(SaldoInsuficienteException(valor));
      }
      saldo := saldo - valor;
      r := Sucesso;
    }
  }

  /** Two reads of the balance with no call in between agree. */
  method LeituraDupla(conta: ContaBancaria) returns (a: real, b: real)
    ensures a == b == conta.saldo
  {
    a := conta.GetSaldo();
    b := conta.GetSaldo();
  }

  /**
   * From the same balance and amount, a ContaCorrente and a ContaPoupanca
   * end the same way with the same balance.
   */
  method SaquesEquivalentes(saldo: real, valor: real)
    returns (rc: Resultado, sc: real, rp: Resultado, sp: real)
    ensures rc == rp && sc == sp
    ensures Passo(sc, rc) == Saque(saldo, valor)
  {
    var corrente := new ContaBancaria(ContaCorrente, saldo);
    var poupanca := new ContaBancaria(ContaPoupanca, saldo);
    rc := corrente.Sacar(valor);
    rp := poupanca.Sacar(valor);
    sc := corrente.GetSaldo();
    sp := poupanca.GetSaldo();
  }
}
