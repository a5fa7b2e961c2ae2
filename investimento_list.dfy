/** The investment list: total invested, total yield, delete. */
module InvestimentoList {
  import opened Lists
  import opened Types
  import opened Store
  import opened InvestimentoForm

  function ValorInvestido(i: Investimento): real { i.valor }
  function RendimentoDe(i: Investimento): real { i.rendimento }

  function TotalInvestido(investimentos: seq<Investimento>): real
  {
    Sum(investimentos, ValorInvestido)
  }

  function TotalRendimento(investimentos: seq<Investimento>): real
  {
    Sum(investimentos, RendimentoDe)
  }

  /** If every yield is the one the form sets, the total yield is 10% of the total invested. */
  lemma RendimentoTotal(investimentos: seq<Investimento>)
    requires RendimentoPadrao(investimentos)
    ensures TotalRendimento(investimentos) == TaxaRendimento * TotalInvestido(investimentos)
  {
    forall x | x in investimentos ensures RendimentoDe(x) == TaxaRendimento * ValorInvestido(x) {
      var k :| 0 <= k < |investimentos| && investimentos[k] == x;
    }
    SumScale(investimentos, ValorInvestido, RendimentoDe, TaxaRendimento);
  }

  /**
    `handleDelete`: once confirmed, removes the investment only; the deposit
    recorded with it stays among the transactions.
  */
  method HandleDelete(store: LocalStore, id: string, confirmed: bool)
    requires store.Valid()
    modifies store
    ensures store.Valid()
    ensures GetTransacoes(store.items) == old(GetTransacoes(store.items))
    ensures !confirmed ==> store.items == old(store.items)
    ensures confirmed ==>
      && GetInvestimentos(store.items) == RemoveById(old(GetInvestimentos(store.items)), InvestimentoId, id)
      && store.items == old(store.items)[InvestimentosKey := StoredInvestimentos(GetInvestimentos(store.items))]
  {
    if confirmed {
      store.DeleteInvestimento(id);
    }
  }
}
