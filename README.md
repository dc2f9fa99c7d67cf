# Sistema bancário — a verified model

A Dafny model of a small Java banking program: accounts (`Conta`) of two kinds,
checking (`ContaCorrente`) and savings (`ContaPoupanca`), owned by clients
(`Cliente`) and registered in a bank (`Banco`). The model covers the balance
rules (withdraw, deposit, transfer, maintenance fee, interest), the
account-number counter and the bank's registry (add, find, list).

Layout:

- `wrappers.dfy` — `Option`, `Result`, `Outcome`: Java's `null` and exceptions as values.
- `regras.dfy` — module `Regras`: the balance rules as pure functions of the
  balance and the amount, with the errors `ValorInvalido`
  (`IllegalArgumentException`) and `SaldoInsuficiente` (`RuntimeException`),
  and lemmas relating them.
- `contas.dfy` — module `Contas`: `Cliente`, the counter class `Sequencial`
  (the static `SEQUENCIAL`, made an explicit object handed to the account
  constructor) and the class `Conta`. The abstract class and its two
  subclasses become one class with a constant `variante`. The
  subclass-only operations require the matching variant, as Java's static
  types demand of their callers. Each method keeps the invariant
  `saldo >= 0` (`Valid()`) and states its new balance through the
  `Regras` function that specifies it.
- `registro.dfy` — module `Registro`: the class `Banco` with an
  insertion-ordered `seq<Conta>`, the first-match search and the listing.
- `demonstracao.dfy` — the demonstration routine's scenario, lookups in a bank
  holding one account twice, and the fee and interest examples at their
  boundaries, as assertions derived from the
  contracts.

Money is an exact `real`. A transfer may name the same account as origin and
destination; the model then proves the balance is unchanged.

## Model

| member | source | states |
|---|---|---|
| `Regras.Saque` | src/SistemaBancario.java:24-32 | a non-positive amount fails with `ValorInvalido` (checked first, whatever the balance); otherwise an amount above the balance fails with `SaldoInsuficiente`; success happens exactly when `0 < valor <= saldo`, and then the new balance plus the amount is the old balance and is never negative |
| `Regras.Deposito` | src/SistemaBancario.java:34-39 | fails with `ValorInvalido` exactly when the amount is non-positive; otherwise the new balance exceeds the old by exactly the amount |
| `Regras.Transferencia` | src/SistemaBancario.java:41-44 | fails exactly when the withdrawal leg fails, with the same error (the deposit leg can never fail after it); on success the origin drops and the destination rises by the amount, their sum is preserved and neither goes negative |
| `Regras.CobrancaTaxa` | src/SistemaBancario.java:79-100 | the fee is charged exactly when the balance is at least 12.0, and then exactly 12.0 is removed leaving a non-negative balance; otherwise it reports not charged |
| `Regras.Rendimento` | src/SistemaBancario.java:107-125 | the interest makes the balance `saldo * 1.005`; on a non-negative balance it is between 0 and the balance; on a zero balance it is zero |
| `Regras.SaqueDesfazDeposito` | src/SistemaBancario.java:24-39 | on a non-negative balance, a deposit followed by a withdrawal of the same positive amount succeeds and restores the balance |
| `Regras.DepositoDesfazSaque` | src/SistemaBancario.java:24-39 | a successful withdrawal followed by a deposit of the same amount restores the balance |
| `Regras.TransferenciaDeVolta` | src/SistemaBancario.java:41-44 | with a non-negative destination, transferring the same amount back succeeds and restores both balances |
| `Contas.Sequencial.constructor` | src/SistemaBancario.java:9 | the counter starts at 1 with nothing issued |
| `Contas.Conta.constructor` | src/SistemaBancario.java:8-21 | the account takes the counter's value as its number and advances the counter by one; the issued numbers stay strictly increasing and below the counter; branch 1, balance 0, the given client and kind |
| `Contas.Conta.Sacar` | src/SistemaBancario.java:24-32 | the new balance and outcome are those of `Saque`; any failure leaves the balance unchanged; `saldo >= 0` is kept |
| `Contas.Conta.Depositar` | src/SistemaBancario.java:34-39 | the new balance and outcome are those of `Deposito`; a failure leaves the balance unchanged; `saldo >= 0` is kept |
| `Contas.Conta.Transferir` | src/SistemaBancario.java:41-44 | the outcome is the withdrawal's; between distinct accounts both balances follow `Transferencia` (both or neither leg applies) and their sum is preserved; to the same account the balance is unchanged; both keep `saldo >= 0` |
| `Contas.Conta.CobrarTaxaManutencao` | src/SistemaBancario.java:93-100 | on a checking account, reports true and removes 12.0 exactly when the balance is at least 12.0; otherwise reports false and changes nothing |
| `Contas.Conta.AplicarRendimento` | src/SistemaBancario.java:121-125 | on a savings account, credits `Rendimento(saldo)` (that is `saldo * 0.005`) unconditionally, so the balance becomes `saldo * 1.005`, and returns the amount credited |
| `Registro.ResumoDe` | src/SistemaBancario.java:186-189 | the listing line carries the account's branch, number and owner name, labelled "Corrente" exactly for a checking account and "Poupança" exactly for a savings account |
| `Registro.PrimeiraPosicao` | src/SistemaBancario.java:194-199 | returns the index of an account with the number such that no earlier account has it, or none exactly when no account has it |
| `Registro.BuscaRegistrada` | src/SistemaBancario.java:194-199 | when equal numbers always belong to the same account (the same account may be registered several times), searching for a registered account's number finds that very account |
| `Registro.BuscaAposAcrescimo` | src/SistemaBancario.java:180-199 | appending an account never changes a lookup that already succeeded; an unmatched number then matches only the new account, at the last position |
| `Registro.Banco.constructor` | src/SistemaBancario.java:175-178 | a new bank has its name and no accounts |
| `Registro.Banco.AdicionarConta` | src/SistemaBancario.java:180-182 | the account is appended at the end and earlier entries are unchanged |
| `Registro.Banco.BuscarConta` | src/SistemaBancario.java:194-199 | returns the first account in insertion order with the number, or none exactly when no account has it |
| `Registro.Banco.ListarContas` | src/SistemaBancario.java:184-192 | one summary line per registered account, in insertion order, each that account's `ResumoDe` |

## Left out

- Console output: `imprimirExtrato`, `imprimirInfosComuns`, the messages printed by the fee and interest operations and the text formatting of `listarContas` are presentation only; the listing is modelled by its content (`Resumo`).
- `AplicarRendimento` returns the interest amount that the Java method prints instead of returning.
- The `main` routine is not modelled as an operation; its scenario is replayed as `Demonstracao.Cenario`.
- IEEE-754 doubles: NaN slipping past the `<=` and `>` guards and rounding of `saldo * 0.005` are not modelled; money is an exact `real`.
- The static, process-wide nature of `SEQUENCIAL`: the counter is an explicit `Sequencial` object, and every account must be built from the same one for its numbers to be distinct.
- 32-bit `int` wrap-around of the counter and of account numbers after 2^31 - 1 accounts is not modelled; numbers are unbounded integers.
- `Contas.Conta.Transferir`: the destination cannot be null. In Java, `transferir(valor, null)` first debits the origin and then throws `NullPointerException` on the deposit, so the amount is lost and the transfer is not atomic; the model's "both legs or neither" holds only for a non-null destination.
- `Registro.Banco.AdicionarConta`: null bank entries are not modelled. Java accepts `adicionarConta(null)`, after which `buscarConta` and `listarContas` throw `NullPointerException` on reaching that entry; an account whose `Cliente` is null makes `listarContas` throw the same way. In the model, accounts and clients are never null.
- `Cliente` is an immutable value: its setters and the sharing of one mutable client object by several accounts are not modelled.
- The getters (`getSaldo`, `getNumero`, `getAgencia`, `getCliente`, `Banco.getNome`) are the fields themselves, read directly.
- The stream pipeline of `buscarConta` is modelled as a recursive first-match search.
