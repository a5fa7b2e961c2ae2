/**
  The record store: one key-value map (the browser's local storage) whose keys
  name the collections. Each `get*` reads one key and falls back to a default
  when the key is absent; each write reads its collection, builds the new one and
  writes it back under its own key. Values are held already decoded: the
  encoding round trip is taken to be exact.
*/
module Store {
  import opened Lists
  import opened Types

  const CategoriesKey: string := "categories"
  const DespesasKey: string := "despesas"
  const InvestimentosKey: string := "investimentos"
  const TransacoesKey: string := "transacoes"
  const DividasKey: string := "dividas"
  const PagamentosKey: string := "pagamentos"
  const SalarioKey: string := "salario"

  /** The categories `getCategories` offers while none have been saved. */
  const DefaultCategories: seq<string> :=
    ["Alimentação", "Moradia", "Transporte", "Saúde", "Educação", "Lazer", "Vestuário", "Utilidades", "Outros"]

  /** What one key can hold. */
  datatype Stored =
    | StoredCategories(names: seq<string>)
    | StoredDespesas(despesas: seq<Despesa>)
    | StoredInvestimentos(investimentos: seq<Investimento>)
    | StoredTransacoes(transacoes: seq<Transacao>)
    | StoredDividas(dividas: seq<Divida>)
    | StoredPagamentos(pagamentos: seq<Pagamento>)
    | StoredSalario(salario: Salario)

  type Storage = map<string, Stored>

  /** Each of the application's keys, when present, holds its own kind of value. */
  predicate WellFormed(m: Storage)
  {
    && (CategoriesKey in m ==> m[CategoriesKey].StoredCategories?)
    && (DespesasKey in m ==> m[DespesasKey].StoredDespesas?)
    && (InvestimentosKey in m ==> m[InvestimentosKey].StoredInvestimentos?)
    && (TransacoesKey in m ==> m[TransacoesKey].StoredTransacoes?)
    && (DividasKey in m ==> m[DividasKey].StoredDividas?)
    && (PagamentosKey in m ==> m[PagamentosKey].StoredPagamentos?)
    && (SalarioKey in m ==> m[SalarioKey].StoredSalario?)
  }

  // ---------------------------------------------------------------- reads

  function GetCategories(m: Storage): (r: seq<string>)
    requires WellFormed(m)
    ensures CategoriesKey !in m ==> r == DefaultCategories
    ensures CategoriesKey in m ==> m[CategoriesKey] == StoredCategories(r)
  {
    if CategoriesKey in m then m[CategoriesKey].names else DefaultCategories
  }

  function GetDespesas(m: Storage): (r: seq<Despesa>)
    requires WellFormed(m)
    ensures DespesasKey !in m ==> r == []
    ensures DespesasKey in m ==> m[DespesasKey] == StoredDespesas(r)
  {
    if DespesasKey in m then m[DespesasKey].despesas else []
  }

  function GetInvestimentos(m: Storage): (r: seq<Investimento>)
    requires WellFormed(m)
    ensures InvestimentosKey !in m ==> r == []
    ensures InvestimentosKey in m ==> m[InvestimentosKey] == StoredInvestimentos(r)
  {
    if InvestimentosKey in m then m[InvestimentosKey].investimentos else []
  }

  function GetTransacoes(m: Storage): (r: seq<Transacao>)
    requires WellFormed(m)
    ensures TransacoesKey !in m ==> r == []
    ensures TransacoesKey in m ==> m[TransacoesKey] == StoredTransacoes(r)
  {
    if TransacoesKey in m then m[TransacoesKey].transacoes else []
  }

  function GetDividas(m: Storage): (r: seq<Divida>)
    requires WellFormed(m)
    ensures DividasKey !in m ==> r == []
    ensures DividasKey in m ==> m[DividasKey] == StoredDividas(r)
  {
    if DividasKey in m then m[DividasKey].dividas else []
  }

  function GetPagamentos(m: Storage): (r: seq<Pagamento>)
    requires WellFormed(m)
    ensures PagamentosKey !in m ==> r == []
    ensures PagamentosKey in m ==> m[PagamentosKey] == StoredPagamentos(r)
  {
    if PagamentosKey in m then m[PagamentosKey].pagamentos else []
  }

  /** The payments of one debt, in the order they were recorded. */
  function GetPagamentosByDividaId(m: Storage, dividaId: string): (r: seq<Pagamento>)
    requires WellFormed(m)
    ensures IsSubsequence(r, GetPagamentos(m))
    ensures forall i :: 0 <= i < |r| ==> r[i] in GetPagamentos(m) && r[i].dividaId == dividaId
    ensures forall p :: p in GetPagamentos(m) && p.dividaId == dividaId ==> p in r
    ensures forall p :: multiset(r)[p] == if p.dividaId == dividaId then multiset(GetPagamentos(m))[p] else 0
  {
    FilterMembers(GetPagamentos(m), PagaDivida(dividaId));
    forall p ensures multiset(Filter(GetPagamentos(m), PagaDivida(dividaId)))[p]
                     == if p.dividaId == dividaId then multiset(GetPagamentos(m))[p] else 0 {
      FilterMultiplicity(GetPagamentos(m), PagaDivida(dividaId), p);
    }
    Filter(GetPagamentos(m), PagaDivida(dividaId))
  }

  function PagaDivida(dividaId: string): Pagamento -> bool
  {
    (p: Pagamento) => p.dividaId == dividaId
  }

  function GetSalario(m: Storage): (r: Salario)
    requires WellFormed(m)
    ensures SalarioKey !in m ==> r == Salario(0.0)
    ensures SalarioKey in m ==> m[SalarioKey] == StoredSalario(r)
  {
    if SalarioKey in m then m[SalarioKey].salario else Salario(0.0)
  }

  /** `saveCategory`'s new list: the name is appended unless it is already there. */
  function WithCategory(categories: seq<string>, name: string): (r: seq<string>)
    ensures name in r
    ensures name in categories ==> r == categories
    ensures name !in categories ==> |r| == |categories| + 1 && r[..|categories|] == categories
  {
    if name in categories then categories else categories + [name]
  }

  /** Saving a category twice is saving it once. */
  lemma WithCategoryIdempotent(categories: seq<string>, name: string)
    ensures WithCategory(WithCategory(categories, name), name) == WithCategory(categories, name)
  {
  }

  /** A list without repeated names keeps that property. */
  lemma WithCategoryKeepsNamesUnique(categories: seq<string>, name: string)
    requires NoDuplicates(categories)
    ensures NoDuplicates(WithCategory(categories, name))
  {
  }

  /** A salary written under its key is read back exactly, and no other collection moves. */
  lemma SaveSalarioThenGet(m: Storage, s: Salario)
    requires WellFormed(m)
    ensures WellFormed(m[SalarioKey := StoredSalario(s)])
    ensures GetSalario(m[SalarioKey := StoredSalario(s)]) == s
    ensures GetDespesas(m[SalarioKey := StoredSalario(s)]) == GetDespesas(m)
    ensures GetCategories(m[SalarioKey := StoredSalario(s)]) == GetCategories(m)
    ensures GetInvestimentos(m[SalarioKey := StoredSalario(s)]) == GetInvestimentos(m)
    ensures GetTransacoes(m[SalarioKey := StoredSalario(s)]) == GetTransacoes(m)
    ensures GetDividas(m[SalarioKey := StoredSalario(s)]) == GetDividas(m)
    ensures GetPagamentos(m[SalarioKey := StoredSalario(s)]) == GetPagamentos(m)
  {
  }

  // ---------------------------------------------------------------- writes

  class LocalStore {
    var items: Storage

    ghost predicate Valid()
      reads this
    {
      WellFormed(items)
    }

    /** A store with nothing saved yet. */
    constructor ()
      ensures Valid() && items == map[]
    {
      items := map[];
    }

    /** `localStorage.setItem`. */
    method SetItem(key: string, value: Stored)
      requires WellFormed(items[key := value])
      modifies this
      ensures Valid()
      ensures items == old(items)[key := value]
    {
      items := items[key := value];
    }

    method SaveCategory(category: string)
      requires Valid()
      modifies this
      ensures Valid()
      ensures GetCategories(items) == WithCategory(old(GetCategories(items)), category)
      ensures category in old(GetCategories(items)) ==> items == old(items)
      ensures category !in old(GetCategories(items)) ==>
        items == old(items)[CategoriesKey := StoredCategories(old(GetCategories(items)) + [category])]
    {
      var categories := GetCategories(items);
      if category !in categories {
        SetItem(CategoriesKey, StoredCategories(categories + [category]));
      }
    }

    method SaveDespesa(despesa: Despesa)
      requires Valid()
      modifies this
      ensures Valid()
      ensures GetDespesas(items) == old(GetDespesas(items)) + [despesa]
      ensures items == old(items)[DespesasKey := StoredDespesas(old(GetDespesas(items)) + [despesa])]
    {
      var despesas := GetDespesas(items);
      SetItem(DespesasKey, StoredDespesas(despesas + [despesa]));
    }

    method UpdateDespesa(despesa: Despesa)
      requires Valid()
      modifies this
      ensures Valid()
      ensures GetDespesas(items) == ReplaceById(old(GetDespesas(items)), DespesaId, despesa)
      ensures items == old(items)[DespesasKey := StoredDespesas(GetDespesas(items))]
    {
      var despesas := GetDespesas(items);
      SetItem(DespesasKey, StoredDespesas(ReplaceById(despesas, DespesaId, despesa)));
    }

    method DeleteDespesa(id: string)
      requires Valid()
      modifies this
      ensures Valid()
      ensures GetDespesas(items) == RemoveById(old(GetDespesas(items)), DespesaId, id)
      ensures items == old(items)[DespesasKey := StoredDespesas(GetDespesas(items))]
    {
      var despesas := GetDespesas(items);
      SetItem(DespesasKey, StoredDespesas(RemoveById(despesas, DespesaId, id)));
    }

    method SaveInvestimento(investimento: Investimento)
      requires Valid()
      modifies this
      ensures Valid()
      ensures GetInvestimentos(items) == old(GetInvestimentos(items)) + [investimento]
      ensures items == old(items)[InvestimentosKey := StoredInvestimentos(GetInvestimentos(items))]
    {
      var investimentos := GetInvestimentos(items);
      SetItem(InvestimentosKey, StoredInvestimentos(investimentos + [investimento]));
    }

    method UpdateInvestimento(investimento: Investimento)
      requires Valid()
      modifies this
      ensures Valid()
      ensures GetInvestimentos(items) == ReplaceById(old(GetInvestimentos(items)), InvestimentoId, investimento)
      ensures items == old(items)[InvestimentosKey := StoredInvestimentos(GetInvestimentos(items))]
    {
      var investimentos := GetInvestimentos(items);
      SetItem(InvestimentosKey, StoredInvestimentos(ReplaceById(investimentos, InvestimentoId, investimento)));
    }

    method DeleteInvestimento(id: string)
      requires Valid()
      modifies this
      ensures Valid()
      ensures GetInvestimentos(items) == RemoveById(old(GetInvestimentos(items)), InvestimentoId, id)
      ensures items == old(items)[InvestimentosKey := StoredInvestimentos(GetInvestimentos(items))]
    {
      var investimentos := GetInvestimentos(items);
      SetItem(InvestimentosKey, StoredInvestimentos(RemoveById(investimentos, InvestimentoId, id)));
    }

    method SaveTransacao(transacao: Transacao)
      requires Valid()
      modifies this
      ensures Valid()
      ensures GetTransacoes(items) == old(GetTransacoes(items)) + [transacao]
      ensures items == old(items)[TransacoesKey := StoredTransacoes(GetTransacoes(items))]
    {
      var transacoes := GetTransacoes(items);
      SetItem(TransacoesKey, StoredTransacoes(transacoes + [transacao]));
    }

    method SaveDivida(divida: Divida)
      requires Valid()
      modifies this
      ensures Valid()
      ensures GetDividas(items) == old(GetDividas(items)) + [divida]
      ensures items == old(items)[DividasKey := StoredDividas(GetDividas(items))]
    {
      var dividas := GetDividas(items);
      SetItem(DividasKey, StoredDividas(dividas + [divida]));
    }

    method UpdateDivida(divida: Divida)
      requires Valid()
      modifies this
      ensures Valid()
      ensures GetDividas(items) == ReplaceById(old(GetDividas(items)), DividaId, divida)
      ensures items == old(items)[DividasKey := StoredDividas(GetDividas(items))]
    {
      var dividas := GetDividas(items);
      SetItem(DividasKey, StoredDividas(ReplaceById(dividas, DividaId, divida)));
    }

    method DeleteDivida(id: string)
      requires Valid()
      modifies this
      ensures Valid()
      ensures GetDividas(items) == RemoveById(old(GetDividas(items)), DividaId, id)
      ensures items == old(items)[DividasKey := StoredDividas(GetDividas(items))]
    {
      var dividas := GetDividas(items);
      SetItem(DividasKey, StoredDividas(RemoveById(dividas, DividaId, id)));
    }

    method SavePagamento(pagamento: Pagamento)
      requires Valid()
      modifies this
      ensures Valid()
      ensures GetPagamentos(items) == old(GetPagamentos(items)) + [pagamento]
      ensures items == old(items)[PagamentosKey := StoredPagamentos(GetPagamentos(items))]
    {
      var pagamentos := GetPagamentos(items);
      SetItem(PagamentosKey, StoredPagamentos(pagamentos + [pagamento]));
    }

    method SaveSalario(salario: Salario)
      requires Valid()
      modifies this
      ensures Valid()
      ensures GetSalario(items) == salario
      ensures items == old(items)[SalarioKey := StoredSalario(salario)]
    {
      SetItem(SalarioKey, StoredSalario(salario));
    }
  }
}
