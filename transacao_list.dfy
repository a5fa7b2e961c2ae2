/** The transaction history's three figures: deposits, withdrawals and their difference. */
module TransacaoList {
  import opened Lists
  import opened Types

  function ValorTransacao(t: Transacao): real { t.valor }
  function EhDeposito(t: Transacao): bool { t.tipo == Deposito }
  function EhSaque(t: Transacao): bool { t.tipo == Saque }

  function TotalDepositos(transacoes: seq<Transacao>): real
  {
    Sum(Filter(transacoes, EhDeposito), ValorTransacao)
  }

  function TotalSaques(transacoes: seq<Transacao>): real
  {
    Sum(Filter(transacoes, EhSaque), ValorTransacao)
  }

  /** Deposits minus withdrawals, not clamped at zero. */
  function Saldo(transacoes: seq<Transacao>): real
  {
    TotalDepositos(transacoes) - TotalSaques(transacoes)
  }

  /** The amount with its sign: positive for a deposit, negative for a withdrawal. */
  function ValorComSinal(t: Transacao): real
  {
    match t.tipo
    case Deposito => t.valor
    case Saque => -t.valor
  }

  /** Since there are only two kinds, deposits and withdrawals together are all the amounts. */
  lemma DepositosMaisSaques(transacoes: seq<Transacao>)
    ensures TotalDepositos(transacoes) + TotalSaques(transacoes) == Sum(transacoes, ValorTransacao)
  {
    SumFilterSplit(transacoes, EhDeposito, EhSaque, ValorTransacao);
  }

  /** The balance is the signed sum of the transactions, taken one by one. */
  lemma {:induction false} SaldoEhSomaComSinal(transacoes: seq<Transacao>)
    ensures Saldo(transacoes) == Sum(transacoes, ValorComSinal)
  {
    if transacoes != [] {
      var init, last := transacoes[..|transacoes| - 1], transacoes[|transacoes| - 1];
      assert transacoes == init + [last];
      SaldoEhSomaComSinal(init);
      var fd, fs := Filter(init, EhDeposito), Filter(init, EhSaque);
      assert (fd + [last])[..|fd|] == fd;
      assert (fs + [last])[..|fs|] == fs;
    }
  }

  /** Withdrawals alone make the balance negative. */
  lemma SaldoPodeSerNegativo(t: Transacao)
    requires t.tipo == Saque && t.valor > 0.0
    ensures Saldo([t]) == -t.valor < 0.0
  {
    assert [t][..0] == [];
  }
}
