/**
 * Clients, the account-number counter and the account class. Java's abstract
 * class `Conta` and its subclasses `ContaCorrente` and `ContaPoupanca` become
 * one class whose constant `variante` says which subclass an object is.
 */
module Contas {
  import opened Wrappers
  import opened Regras

  /** Every account belongs to this single branch. */
  const AGENCIA_PADRAO: int := 1

  /** A client record: name, CPF (national id) and phone. */
  datatype Cliente = Cliente(nome: string, cpf: string, telefone: string)

  /** The concrete account kinds. */
  datatype Variante = Corrente | Poupanca

  /** The numbers in `s` are strictly increasing, hence pairwise distinct. */
  ghost predicate Crescente(s: seq<int>)
  {
    forall i, j :: 0 <= i < j < |s| ==> s[i] < s[j]
  }

  /**
   * The account-number counter (Java's static `SEQUENCIAL`), made an explicit
   * object so that numbering is deterministic. `emitidos` records every number
   * handed out so far.
   */
  class Sequencial {
    var proximo: int
    ghost var emitidos: seq<int>

    ghost predicate Valid()
      reads this
    {
      Crescente(emitidos) &&
      forall i :: 0 <= i < |emitidos| ==> emitidos[i] < proximo
    }

    constructor ()
      ensures Valid() && proximo == 1 && emitidos == []
    {
      proximo := 1;
      emitidos := [];
    }
  }

  class Conta {
    const variante: Variante
    const agencia: int
    const numero: int
    const cliente: Cliente
    var saldo: real

    /** The balance is never negative. */
    ghost predicate Valid()
      reads this
    {
      0.0 <= saldo
    }

    /** Takes the counter's current value as the account number and advances
        the counter; the balance starts at zero. */
    constructor (variante: Variante, cliente: Cliente, sequencial: Sequencial)
      requires sequencial.Valid()
      modifies sequencial
      ensures Valid() && sequencial.Valid()
      ensures this.variante == variante && this.cliente == cliente
      ensures agencia == AGENCIA_PADRAO && saldo == 0.0
      ensures numero == old(sequencial.proximo) && sequencial.proximo == numero + 1
      ensures sequencial.emitidos == old(sequencial.emitidos) + [numero]
    {
      this.variante := variante;
      this.agencia := AGENCIA_PADRAO;
      this.numero := sequencial.proximo;
      this.cliente := cliente;
      this.saldo := 0.0;
      sequencial.emitidos := sequencial.emitidos + [sequencial.proximo];
      sequencial.proximo := sequencial.proximo + 1;
    }

    /** Withdraws `valor`; on failure the balance is untouched and the error
        says whether the amount or the funds were at fault. */
    method Sacar(valor: real) returns (r: Outcome<Erro>)
      requires Valid()
      modifies this
      ensures Valid()
      ensures match Saque(old(saldo), valor)
              case Success(novo) => r == Pass && saldo == novo
              case Failure(e) => r == Fail(e) && saldo == old(saldo)
    {
      if valor <= 0.0 {
        return Fail(ValorInvalido);
      }
      if valor > saldo {
        return Fail(SaldoInsuficiente);
      }
      saldo := saldo - valor;
      r := Pass;
    }

    /** Deposits `valor`; a non-positive amount is rejected and changes nothing. */
    method Depositar(valor: real) returns (r: Outcome<Erro>)
      requires Valid()
      modifies this
      ensures Valid()
      ensures match Deposito(old(saldo), valor)
              case Success(novo) => r == Pass && saldo == novo
              case Failure(e) => r == Fail(e) && saldo == old(saldo)
    {
      if valor <= 0.0 {
        return Fail(ValorInvalido);
      }
      saldo := saldo + valor;
      r := Pass;
    }

    /**
     * Withdraws `valor` here, then deposits it in `destino`. The deposit
     * cannot fail once the withdrawal succeeded, so either both legs apply or
     * neither does. `destino` may be this very account.
     */
    method Transferir(valor: real, destino: Conta) returns (r: Outcome<Erro>)
      requires Valid() && destino.Valid()
      modifies this, destino
      ensures Valid() && destino.Valid()
      ensures r == (if Saque(old(saldo), valor).Success? then Pass
                    else Fail(Saque(old(saldo), valor).error))
      ensures destino != this ==>
                match Transferencia(old(saldo), old(destino.saldo), valor)
                case Success((o, d)) => saldo == o && destino.saldo == d
                case Failure(_) => saldo == old(saldo) && destino.saldo == old(destino.saldo)
      ensures destino != this ==> saldo + destino.saldo == old(saldo) + old(destino.saldo)
      ensures destino == this ==> saldo == old(saldo)
    {
      r := Sacar(valor);
      if r.Pass? {
        var d := destino.Depositar(valor);
        assert d == Pass;
      }
    }

    /** Charges the maintenance fee of a checking account when the balance
        covers it; reports whether it was charged. */
    method CobrarTaxaManutencao() returns (cobrada: bool)
      requires Valid() && variante == Corrente
      modifies this
      ensures Valid()
      ensures cobrada == (TAXA_MANUTENCAO <= old(saldo))
      ensures match CobrancaTaxa(old(saldo))
              case Some(novo) => cobrada && saldo == novo
              case None => !cobrada && saldo == old(saldo)
    {
      if saldo >= TAXA_MANUTENCAO {
        saldo := saldo - TAXA_MANUTENCAO;
        cobrada := true;
      } else {
        cobrada := false;
      }
    }

    /** Credits a month of interest to a savings account and reports the
        amount credited. */
    method AplicarRendimento() returns (rendimento: real)
      requires Valid() && variante == Poupanca
      modifies this
      ensures Valid()
      ensures rendimento == Rendimento(old(saldo))
      ensures saldo == old(saldo) + rendimento
    {
      rendimento := Rendimento(saldo);
      saldo := saldo + rendimento;
    }
  }
}
