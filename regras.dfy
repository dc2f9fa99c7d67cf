/**
 * The balance rules of an account, as pure functions of the balance (`saldo`)
 * and the amount (`valor`). Money is an exact `real`.
 * The class `Conta` (module Contas) is specified by these functions.
 */
module Regras {
  import opened Wrappers

  /** The two ways a balance operation fails: `IllegalArgumentException` for a
      non-positive amount, `RuntimeException` for insufficient funds. */
  datatype Erro = ValorInvalido | SaldoInsuficiente

  /** Monthly maintenance fee of a checking account. */
  const TAXA_MANUTENCAO: real := 12.0

  /** Monthly interest rate of a savings account (0.5%). */
  const RENDIMENTO_MENSAL: real := 0.005

  /** Withdrawal: the amount is validated before the funds are. */
  function Saque(saldo: real, valor: real): (r: Result<real, Erro>)
    ensures valor <= 0.0 ==> r == Failure(ValorInvalido)
    ensures 0.0 < valor && saldo < valor ==> r == Failure(SaldoInsuficiente)
    ensures r.Success? <==> 0.0 < valor <= saldo
    ensures r.Success? ==> r.value + valor == saldo && 0.0 <= r.value < saldo
  {
    if valor <= 0.0 then Failure(ValorInvalido)
    else if valor > saldo then Failure(SaldoInsuficiente)
    else Success(saldo - valor)
  }

  /** Deposit: only the amount is validated. */
  function Deposito(saldo: real, valor: real): (r: Result<real, Erro>)
    ensures r.Failure? <==> valor <= 0.0
    ensures r.Failure? ==> r.error == ValorInvalido
    ensures r.Success? ==> r.value - valor == saldo && saldo < r.value
    ensures r.Success? && 0.0 <= saldo ==> 0.0 < r.value
  {
    if valor <= 0.0 then Failure(ValorInvalido)
    else Success(saldo + valor)
  }

  /**
   * Transfer between two distinct accounts: a withdrawal from the origin
   * followed by a deposit to the destination. The result holds the new
   * (origin, destination) balances.
   */
  function Transferencia(origem: real, destino: real, valor: real): (r: Result<(real, real), Erro>)
    ensures Saque(origem, valor).Failure? ==> r == Failure(Saque(origem, valor).error)
    ensures r.Success? <==> Saque(origem, valor).Success?
    ensures r.Success? ==> r.value.0 == origem - valor && r.value.1 == destino + valor
    ensures r.Success? ==> r.value.0 + r.value.1 == origem + destino
    ensures r.Success? && 0.0 <= destino ==> 0.0 <= r.value.0 && 0.0 <= r.value.1
  {
    match Saque(origem, valor)
    case Failure(e) => Failure(e)
    case Success(novaOrigem) =>
      match Deposito(destino, valor)
      case Failure(e) => assert false; Failure(e)
      case Success(novoDestino) => Success((novaOrigem, novoDestino))
  }

  /** Maintenance fee: charged only when the balance covers it; `None` reports
      that it was not charged. */
  function CobrancaTaxa(saldo: real): (r: Option<real>)
    ensures r.Some? <==> TAXA_MANUTENCAO <= saldo
    ensures r.Some? ==> r.value + TAXA_MANUTENCAO == saldo && 0.0 <= r.value
  {
    if saldo >= TAXA_MANUTENCAO then Some(saldo - TAXA_MANUTENCAO) else None
  }

  /** Interest credited to a savings balance in one month. */
  function Rendimento(saldo: real): (r: real)
    ensures saldo + r == saldo * (1.0 + RENDIMENTO_MENSAL)
    ensures 0.0 <= saldo ==> 0.0 <= r <= saldo
    ensures saldo == 0.0 ==> r == 0.0
  {
    saldo * RENDIMENTO_MENSAL
  }

  /** On a non-negative balance, a deposit is undone by a withdrawal of the
      same amount. */
  lemma SaqueDesfazDeposito(saldo: real, valor: real)
    requires 0.0 <= saldo && 0.0 < valor
    ensures Deposito(saldo, valor).Success?
    ensures Saque(Deposito(saldo, valor).value, valor) == Success(saldo)
  {
  }

  /** A successful withdrawal is undone by a deposit of the same amount. */
  lemma DepositoDesfazSaque(saldo: real, valor: real)
    requires Saque(saldo, valor).Success?
    ensures Deposito(Saque(saldo, valor).value, valor) == Success(saldo)
  {
  }

  /** When the destination balance is non-negative, transferring back what was
      transferred restores both balances. */
  lemma TransferenciaDeVolta(origem: real, destino: real, valor: real)
    requires 0.0 <= destino && Transferencia(origem, destino, valor).Success?
    ensures var (o, d) := Transferencia(origem, destino, valor).value;
            Transferencia(d, o, valor) == Success((destino, origem))
  {
  }
}
