/**
 * The demonstration routine's scenario, with each printed balance stated as an
 * assertion that follows from the contracts of the operations alone.
 */
module Demonstracao {
  import opened Wrappers
  import opened Regras
  import opened Contas
  import opened Registro

  method Cenario()
  {
    var sequencial := new Sequencial();
    var joao := Cliente("João Silva", "123.456.789-00", "(11) 99999-9999");
    var maria := Cliente("Maria Santos", "987.654.321-00", "(11) 88888-8888");

    var cc := new Conta(Corrente, joao, sequencial);
    var poupanca := new Conta(Poupanca, maria, sequencial);
    assert cc.numero == 1 && poupanca.numero == 2;

    var banco := new Banco("Banco Digital");
    banco.AdicionarConta(cc);
    banco.AdicionarConta(poupanca);
    assert banco.contas == [cc, poupanca];

    // 1. initial deposits
    var r := cc.Depositar(1000.0);
    assert r == Pass && cc.saldo == 1000.0;
    r := poupanca.Depositar(500.0);
    assert r == Pass && poupanca.saldo == 500.0;

    // 2. listing
    var linhas := banco.ListarContas();
    assert linhas == [Resumo("Corrente", 1, 1, "João Silva"), Resumo("Poupança", 1, 2, "Maria Santos")];

    // 4. transfer
    r := cc.Transferir(200.0, poupanca);
    assert r == Pass && cc.saldo == 800.0 && poupanca.saldo == 700.0;

    // 5. withdrawal
    r := poupanca.Sacar(100.0);
    assert r == Pass && poupanca.saldo == 600.0;

    // 6. account-specific operations
    var cobrada := cc.CobrarTaxaManutencao();
    assert cobrada && cc.saldo == 788.0;
    var rendimento := poupanca.AplicarRendimento();
    assert rendimento == 3.0 && poupanca.saldo == 603.0;

    // failures change nothing
    r := cc.Sacar(-5.0);
    assert r == Fail(ValorInvalido) && cc.saldo == 788.0;
    r := cc.Transferir(1000.0, poupanca);
    assert r == Fail(SaldoInsuficiente) && cc.saldo == 788.0 && poupanca.saldo == 603.0;
  }

  /** Lookups in the demonstration's bank: a registered number finds its
      account, an unknown one finds nothing. */
  method Consultas()
  {
    var sequencial := new Sequencial();
    var cc := new Conta(Corrente, Cliente("João Silva", "", ""), sequencial);
    var poupanca := new Conta(Poupanca, Cliente("Maria Santos", "", ""), sequencial);
    var banco := new Banco("Banco Digital");
    banco.AdicionarConta(cc);
    banco.AdicionarConta(poupanca);
    banco.AdicionarConta(cc);
    assert banco.contas == [cc, poupanca, cc];
    assert NumeroIdentificaConta(banco.contas);
    BuscaRegistrada(banco.contas, 2);
    assert banco.BuscarConta(cc.numero) == Some(cc);
    BuscaRegistrada(banco.contas, 1);
    assert banco.BuscarConta(poupanca.numero) == Some(poupanca);
    assert banco.BuscarConta(3) == None;
  }

  /** The fee and interest examples at their boundaries. */
  method Limites()
  {
    var s := new Sequencial();
    var c := new Conta(Corrente, Cliente("A", "", ""), s);
    var r := c.Depositar(12.0);
    var cobrada := c.CobrarTaxaManutencao();
    assert cobrada && c.saldo == 0.0;
    r := c.Depositar(11.99);
    cobrada := c.CobrarTaxaManutencao();
    assert !cobrada && c.saldo == 11.99;

    var p := new Conta(Poupanca, Cliente("B", "", ""), s);
    var rendimento := p.AplicarRendimento();
    assert rendimento == 0.0 && p.saldo == 0.0;
    r := p.Depositar(500.0);
    rendimento := p.AplicarRendimento();
    assert rendimento == 2.5 && p.saldo == 502.5;
    assert c.numero < p.numero;
  }
}
