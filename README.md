# Bank account with a withdrawal-checking aspect

This project models the account component of a small Java banking example, `ContaBancaria.java`, in Dafny.

- **Account.** An abstract `ContaBancaria` holds one balance, `saldo`. `depositar` credits it unconditionally. The two concrete accounts `ContaCorrente` and `ContaPoupanca` each override `sacar` with the same rule: if the amount exceeds the balance, throw `SaldoInsuficienteException`; otherwise subtract the amount.
- **Aspect.** The AspectJ aspect `VerificacaoSaldoAspect` is woven around every `sacar`:
  - a before advice (`checarSaldo`) rejects the call when the balance is below the amount;
  - an after-throwing advice (`logSaldoInsuficiente`) prints one line per failure and lets the error go on.
- **Driver.** `Banco.main` does one withdrawal that succeeds and one that fails.

How the model is laid out:

- `conta_bancaria.dfy` (module `Contas`) holds the account as a class with a mutable `saldo`.
  - The two subclasses become one class tagged by `Tipo`. `Sacar` dispatches on the tag to `SacarCorrente` or `SacarPoupanca`, and each of those keeps its own body.
  - Both bodies are proved against one specification function, `Saque`. That is how the model shows the two variants behave identically.
  - The exception becomes the error value of the `Resultado` datatype. It carries the attempted amount.
- `verificacao_saldo.dfy` (module `Verificacao`) holds the aspect as a class whose `log` stands for the console lines it prints.
  - The woven call is the explicit wrapper `SacarVerificado`: the before advice, then the withdrawal if the advice let it through, then the after-throwing advice if either threw.
  - In AspectJ, after advice declared later in the same aspect takes precedence over the earlier before advice. So the logging advice also sees an exception thrown by the before advice, and the model logs a failure from either source.
- `sessao.dfy` (module `Sessao`) lifts the one-call contracts to any sequence of deposits and withdrawals on one account, with and without the aspect.
- `banco.dfy` (module `Banco`) holds the driver's scenarios as methods with exact postconditions, plus one scenario that continues the driver's first withdrawal with a deposit.

Balances and amounts are `real`.

## Model

| member | source | states |
|---|---|---|
| `Contas.Saque` | ContaBancaria.java:27-32 | a withdrawal succeeds exactly when the amount is at most the balance; on success the balance drops by exactly the amount; on failure the balance is unchanged and the error carries the amount (all-or-nothing) |
| `Contas.SaqueMantemSaldoNaoNegativo` | ContaBancaria.java:28-31 | a withdrawal never takes a non-negative balance below zero |
| `Contas.SaqueNegativoCredita` | ContaBancaria.java:28-31 | a negative amount is not rejected: from a non-negative balance it succeeds and raises the balance |
| `Contas.ContaBancaria.constructor` | ContaBancaria.java:5-7 | the account starts with the given balance and the given concrete type, with no validation |
| `Contas.ContaBancaria.Depositar` | ContaBancaria.java:9-11 | a deposit never fails; the new balance is the old balance plus the amount, whatever its sign |
| `Contas.ContaBancaria.GetSaldo` | ContaBancaria.java:15-17 | returns the current balance and modifies nothing |
| `Contas.ContaBancaria.Sacar` | ContaBancaria.java:13 | the overridden withdrawal gives the outcome and new balance of `Saque`, whichever concrete type the account has |
| `Contas.ContaBancaria.SacarCorrente` | ContaBancaria.java:27-32 | ContaCorrente's withdrawal: succeeds iff the amount is at most the old balance and then subtracts it; otherwise it fails with the amount and leaves the balance as it was |
| `Contas.ContaBancaria.SacarPoupanca` | ContaBancaria.java:42-47 | ContaPoupanca's withdrawal, with the same contract as ContaCorrente's |
| `Contas.LeituraDupla` | ContaBancaria.java:15-17 | two balance reads with no mutation between them return the same value |
| `Contas.SaquesEquivalentes` | ContaBancaria.java:27-47 | from the same balance and amount, a ContaCorrente and a ContaPoupanca give the same outcome and the same resulting balance |
| `Verificacao.Checagem` | ContaBancaria.java:71-76 | the before advice rejects exactly when the balance is below the amount, with an error carrying the amount |
| `Verificacao.ChecagemEquivaleAoSaque` | ContaBancaria.java:73-74 | the advice's test `saldo < valor` and the withdrawal's test `valor > saldo` (lines 28-29) reject the same calls with the same error |
| `Verificacao.ChecagemTornaThrowInalcancavel` | ContaBancaria.java:73-75 | once the before advice lets a call through, the withdrawal succeeds, so its own throw is unreachable |
| `Verificacao.SaqueVerificado` | ContaBancaria.java:70-81 | the woven withdrawal has the same outcome and balance as the plain one; a failure logs exactly one line with the amount and the unchanged error; a success logs nothing |
| `Verificacao.VerificacaoSaldoAspect.constructor` | ContaBancaria.java:64-65 | the aspect starts having printed nothing |
| `Verificacao.VerificacaoSaldoAspect.ChecarSaldo` | ContaBancaria.java:70-76 | reads the target account's balance and modifies nothing; fails iff the balance is below the amount, with that amount |
| `Verificacao.VerificacaoSaldoAspect.LogSaldoInsuficiente` | ContaBancaria.java:78-81 | appends exactly one log line holding the amount and the error |
| `Verificacao.VerificacaoSaldoAspect.SacarVerificado` | ContaBancaria.java:67-81 | a woven call only appends to the log; its new balance, outcome and appended lines are those of `SaqueVerificado`, so it ends as the unwoven `Sacar` would, appends one line per failure carrying the error it passes on and none on success, and the inner throw is never reached (asserted in the body) |
| `Sessao.Executar` | ContaBancaria.java:9-32 | a sequence of calls without the aspect yields one outcome per call |
| `Sessao.ExecutarVerificado` | ContaBancaria.java:67-81 | a sequence of woven calls yields one outcome per call |
| `Sessao.VerificadoIgualAoSimples` | ContaBancaria.java:70-81 | over any sequence of calls, weaving the aspect in changes neither the final balance nor any call's outcome |
| `Sessao.UmRegistroPorFalha` | ContaBancaria.java:78-81 | over any sequence of woven calls, the log is exactly one line per failed withdrawal, in call order, each holding the amount of that very call and the error it ended with |
| `Sessao.ResultadosDasChamadas` | ContaBancaria.java:9-32 | over any sequence of calls, only withdrawals fail (deposits never do), and a failed withdrawal's error carries the amount of that call |
| `Sessao.SaldoFinal` | ContaBancaria.java:9-32 | the final balance is the initial one plus all deposits minus exactly the withdrawals that succeeded; failed withdrawals take nothing |
| `Sessao.SaldoNaoNegativo` | ContaBancaria.java:5-32 | the balance stays non-negative over any sequence of calls if it starts non-negative and no deposit is negative |
| `Sessao.DepositoNegativoQuebraInvariante` | ContaBancaria.java:9-11 | a negative deposit takes a zero balance below zero, since deposits are unchecked |
| `Banco.ExecutarBanco` | ContaBancaria.java:86-103 | the driver's ContaCorrente with 1000 pays out 200 and holds 800; its ContaPoupanca with 500 refuses 600 and holds 500; exactly one log line, for 600 |
| `Banco.DepositoAposSaque` | ContaBancaria.java:9-11 | not part of the driver: after the driver's woven withdrawal of 200 from 1000 succeeds, a deposit of 50 leaves 850, with nothing logged |

## Left out

- The AspectJ weaving mechanics are not modelled: the `JoinPoint`, `getTarget()`, pointcut matching and advice precedence (ContaBancaria.java:58-72). The woven call is the explicit wrapper `SacarVerificado`. The order it fixes is the one AspectJ's precedence rule gives these two advices.
- The IEEE-754 `double` semantics of `saldo` and `valor` are not modelled: rounding, overflow to infinity, and NaN. In the Java code, a NaN amount passes both `saldo < valor` and `valor > saldo`, because every comparison with NaN is false. That withdrawal then "succeeds" and sets the balance to NaN. With `real` this case cannot arise.
- Message texts and Java's double-to-string formatting are not modelled. The error and the log line carry the amount and the error value, not concatenated strings.
- Console output from `System.out.println` is not modelled as I/O. The aspect's line is the `log` sequence. The driver's lines become the out-parameters of `Banco.ExecutarBanco`.
- `Banco.main` is not modelled as a program: `try`/`catch` and printing are not covered. It appears only as the scenario method.
- The inheritance structure (abstract class, two subclasses, dynamic dispatch) is replaced by the `Tipo` tag and an explicit `match` in `Sacar`.
