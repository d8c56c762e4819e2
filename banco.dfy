/**
 * The driver of Banco.java as concrete scenarios, with the aspect woven into
 * every withdrawal, and one scenario that extends it with a deposit. What
 * the driver prints becomes out-parameters.
 */
module Banco {
  import opened Contas
  import opened Verificacao

  /**
   * A ContaCorrente opened with 1000 pays out 200 and is left with 800; a
   * ContaPoupanca opened with 500 refuses 600, keeps 500, and the aspect
   * logs that one failure with the amount 600.
   */
  method ExecutarBanco()
    returns (r1: Resultado, saldoCorrente: real, r2: Resultado, saldoPoupanca: real, log: seq<Registro>)
    ensures r1 == Sucesso && saldoCorrente == 800.0
    ensures r2 == Falha(SaldoInsuficienteException(600.0)) && saldoPoupanca == 500.0
    ensures log == [Registro(600.0, SaldoInsuficienteException(600.0))]
  {
    var aspecto := new VerificacaoSaldoAspect();
    var contaCorrente := new ContaBancaria(ContaCorrente, 1000.0);
    var contaPoupanca := new ContaBancaria(ContaPoupanca, 500.0);

    r1 := aspecto.SacarVerificado(contaCorrente, 200.0);
    saldoCorrente := contaCorrente.GetSaldo();

    r2 := aspecto.SacarVerificado(contaPoupanca, 600.0);
    saldoPoupanca := contaPoupanca.GetSaldo();

    log := aspecto.log;
  }

  /**
   * The driver's first withdrawal followed by a deposit, which the driver
   * itself does not make: a ContaCorrente opened with 1000 pays out 200
   * through the aspect, then takes a deposit of 50 and holds 850, with
   * nothing logged.
   */
  method DepositoAposSaque() returns (r: Resultado, saldo: real, log: seq<Registro>)
    ensures r == Sucesso && saldo == 850.0 && log == []
  {
    var aspecto := new VerificacaoSaldoAspect();
    var conta := new ContaBancaria(ContaCorrente, 1000.0);
    r := aspecto.SacarVerificado(conta, 200.0);
    conta.Depositar(50.0);
    saldo := conta.GetSaldo();
    log := aspecto.log;
  }
}
