/** The debt list: total owed, total paid, outstanding balance, per-row balance, delete. */
module DividaList {
  import opened Lists
  import opened Types
  import opened Store
  import PagamentoForm

  function ValorTotalDe(d: Divida): real { d.valorTotal }
  function ValorPagoDe(d: Divida): real { d.valorPago }

  /** The balance shown on each row. */
  function SaldoDaLinha(d: Divida): real { d.valorTotal - d.valorPago }

  function TotalDividas(dividas: seq<Divida>): real
  {
    Sum(dividas, ValorTotalDe)
  }

  function TotalPago(dividas: seq<Divida>): real
  {
    Sum(dividas, ValorPagoDe)
  }

  /** `totalDividas - totalPago`, not clamped. */
  function SaldoDevedor(dividas: seq<Divida>): real
  {
    TotalDividas(dividas) - TotalPago(dividas)
  }

  /** The row balances add up to the overall balance, and each is the debt's derived balance. */
  lemma SaldoEhSomaDasLinhas(dividas: seq<Divida>)
    ensures Sum(dividas, SaldoDaLinha) == SaldoDevedor(dividas)
    ensures forall d :: SaldoDaLinha(d) == d.SaldoDevedor()
  {
    SumDifference(dividas, ValorTotalDe, ValorPagoDe, SaldoDaLinha);
  }

  /** When every debt is consistent the balance lies between zero and the total owed. */
  lemma SaldoDevedorLimitado(dividas: seq<Divida>)
    requires PagamentoForm.TodasConsistentes(dividas)
    ensures 0.0 <= SaldoDevedor(dividas) <= TotalDividas(dividas)
  {
    SaldoEhSomaDasLinhas(dividas);
    SumNonNegative(dividas, SaldoDaLinha);
    SumNonNegative(dividas, ValorPagoDe);
  }

  /**
    `handleDelete`: once confirmed, removes the debt only. Its payments stay in
    `pagamentos`, still naming the removed id.
  */
  method HandleDelete(store: LocalStore, id: string, confirmed: bool)
    requires store.Valid()
    modifies store
    ensures store.Valid()
    ensures GetPagamentos(store.items) == old(GetPagamentos(store.items))
    ensures !confirmed ==> store.items == old(store.items)
    ensures confirmed ==>
      && GetDividas(store.items) == RemoveById(old(GetDividas(store.items)), DividaId, id)
      && store.items == old(store.items)[DividasKey := StoredDividas(GetDividas(store.items))]
  {
    if confirmed {
      store.DeleteDivida(id);
    }
  }
}
