/**
 * The bank: an in-memory, insertion-ordered registry of accounts with lookup
 * by number and a summary listing.
 */
module Registro {
  import opened Wrappers
  import opened Contas

  /** One line of the account listing: kind label, branch, number, owner name. */
  datatype Resumo = Resumo(tipo: string, agencia: int, numero: int, titular: string)

  /** The listing line of one account: labelled "Corrente" exactly when it is a
      checking account, "Poupança" otherwise. */
  function ResumoDe(c: Conta): (r: Resumo)
    ensures r.tipo == "Corrente" <==> c.variante == Corrente
    ensures r.tipo == "Poupança" <==> c.variante == Poupanca
    ensures r.agencia == c.agencia && r.numero == c.numero && r.titular == c.cliente.nome
  {
    Resumo(if c.variante == Corrente then "Corrente" else "Poupança",
           c.agencia, c.numero, c.cliente.nome)
  }

  /** The position of the first account, in insertion order, numbered `numero`. */
  function PrimeiraPosicao(contas: seq<Conta>, numero: int): (r: Option<nat>)
    ensures r.Some? ==> r.value < |contas| && contas[r.value].numero == numero
    ensures r.Some? ==> forall j :: 0 <= j < r.value ==> contas[j].numero != numero
    ensures r.None? <==> forall j :: 0 <= j < |contas| ==> contas[j].numero != numero
    decreases |contas|
  {
    if |contas| == 0 then None
    else if contas[0].numero == numero then Some(0)
    else
      match PrimeiraPosicao(contas[1..], numero)
      case None => None
      case Some(i) => Some(i + 1)
  }

  /** Equal numbers in `contas` belong to the same account: the registry may
      hold one account several times, but never two accounts sharing a number. */
  ghost predicate NumeroIdentificaConta(contas: seq<Conta>)
  {
    forall i, j :: 0 <= i < |contas| && 0 <= j < |contas| && contas[i].numero == contas[j].numero ==>
      contas[i] == contas[j]
  }

  /** When a number identifies its account, looking up a registered account's
      number finds that very account, even if it was registered more than once. */
  lemma BuscaRegistrada(contas: seq<Conta>, i: nat)
    requires NumeroIdentificaConta(contas) && i < |contas|
    ensures PrimeiraPosicao(contas, contas[i].numero).Some?
    ensures contas[PrimeiraPosicao(contas, contas[i].numero).value] == contas[i]
  {
  }

  /** Appending an account keeps every earlier lookup result; a number found
      nowhere before is found at the new position exactly when it matches. */
  lemma {:induction false} BuscaAposAcrescimo(contas: seq<Conta>, c: Conta, numero: int)
    ensures PrimeiraPosicao(contas + [c], numero) ==
            if PrimeiraPosicao(contas, numero).Some? then PrimeiraPosicao(contas, numero)
            else if c.numero == numero then Some(|contas|)
            else None
  {
    if |contas| > 0 && contas[0].numero != numero {
      assert (contas + [c])[1..] == contas[1..] + [c];
      BuscaAposAcrescimo(contas[1..], c, numero);
    }
  }

  class Banco {
    const nome: string
    var contas: seq<Conta>

    constructor (nome: string)
      ensures this.nome == nome && contas == []
    {
      this.nome := nome;
      contas := [];
    }

    /** Registers an account at the end; no duplicate check. */
    method AdicionarConta(conta: Conta)
      modifies this
      ensures contas == old(contas) + [conta]
    {
      contas := contas + [conta];
    }

    /** The first registered account numbered `numero`, or `None` (Java's
        `null`) when none is. */
    function BuscarConta(numero: int): (r: Option<Conta>)
      reads this
      ensures r.None? <==> forall j :: 0 <= j < |contas| ==> contas[j].numero != numero
      ensures r.Some? ==> r.value.numero == numero &&
                          exists i :: 0 <= i < |contas| && contas[i] == r.value &&
                                      forall j :: 0 <= j < i ==> contas[j].numero != numero
    {
      match PrimeiraPosicao(contas, numero)
      case None => None
      case Some(i) => Some(contas[i])
    }

    /** The summary of every registered account, in insertion order. */
    method ListarContas() returns (linhas: seq<Resumo>)
      ensures |linhas| == |contas|
      ensures forall i :: 0 <= i < |contas| ==> linhas[i] == ResumoDe(contas[i])
    {
      linhas := [];
      for i := 0 to |contas|
        invariant |linhas| == i
        invariant forall k :: 0 <= k < i ==> linhas[k] == ResumoDe(contas[k])
      {
        linhas := linhas + [ResumoDe(contas[i])];
      }
    }
  }
}
