/**
  The expense list: the category options (distinct categories in order of first
  appearance), the category and period filters, the total of what is shown, and
  the delete handler.
*/
module DespesaList {
  import opened Wrappers
  import opened Lists
  import opened Types
  import opened Store

  function ValorDespesa(d: Despesa): real { d.valor }

  /** Sum of the amounts: `despesas.reduce((acc, d) => acc + d.valor, 0)`. */
  function TotalDespesas(despesas: seq<Despesa>): real
  {
    Sum(despesas, ValorDespesa)
  }

  /** `despesas.map(d => d.categoria)`. */
  function Categorias(despesas: seq<Despesa>): (r: seq<string>)
    ensures |r| == |despesas| && forall i :: 0 <= i < |despesas| ==> r[i] == despesas[i].categoria
  {
    seq(|despesas|, i requires 0 <= i < |despesas| => despesas[i].categoria)
  }

  /** `[...new Set(despesas.map(d => d.categoria))]`: each used category once. */
  function OpcoesDeCategoria(despesas: seq<Despesa>): (r: seq<string>)
    ensures NoDuplicates(r)
    ensures forall c :: c in r <==> exists d :: d in despesas && d.categoria == c
  {
    var cs := Categorias(despesas);
    var r := Distinct(cs);
    assert forall c :: c in r <==> c in cs;
    assert forall d :: d in despesas ==> d.categoria in cs;
    r
  }

  /** The options appear in the order in which their categories first occur. */
  lemma OpcoesEmOrdemDeOcorrencia(despesas: seq<Despesa>)
    ensures var cs := Categorias(despesas);
      forall i, j :: 0 <= i < j < |OpcoesDeCategoria(despesas)| ==>
        FirstIndex(cs, OpcoesDeCategoria(despesas)[i]) < FirstIndex(cs, OpcoesDeCategoria(despesas)[j])
  {
    DistinctFirstOccurrenceOrder(Categorias(despesas));
  }

  // ---------------------------------------------------------------- filters

  /** A calendar date as the list reads it from a record: year, month, day. */
  datatype Date = Date(year: int, month: int, day: int)

  /** `a >= b` on calendar dates. */
  predicate NaoAntes(a: Date, b: Date)
  {
    a.year > b.year || (a.year == b.year && (a.month > b.month || (a.month == b.month && a.day >= b.day)))
  }

  /** The clock: today, and the moment seven days back that the week filter compares with. */
  datatype Agora = Agora(hoje: Date, umaSemanaAtras: Date)

  /**
    Whether an expense is shown. `dateOf` reads a record's date string (`None`
    for a string that is not a date, which no period comparison accepts).
    An empty category or period means "no filter"; an unknown period keeps the
    category test alone.
  */
  predicate Mantem(d: Despesa, filtroCategoria: string, filtroPeriodo: string,
                   agora: Agora, dateOf: string -> Option<Date>)
  {
    var matchCategoria := if filtroCategoria != "" then d.categoria == filtroCategoria else true;
    if filtroPeriodo == "" then matchCategoria
    else
      var dd := dateOf(d.data);
      if filtroPeriodo == "hoje" then
        matchCategoria && dd.Some? && dd.value.day == agora.hoje.day
        && dd.value.month == agora.hoje.month && dd.value.year == agora.hoje.year
      else if filtroPeriodo == "semana" then
        matchCategoria && dd.Some? && NaoAntes(dd.value, agora.umaSemanaAtras)
      else if filtroPeriodo == "mes" then
        matchCategoria && dd.Some? && dd.value.month == agora.hoje.month && dd.value.year == agora.hoje.year
      else if filtroPeriodo == "ano" then
        matchCategoria && dd.Some? && dd.value.year == agora.hoje.year
      else matchCategoria
  }

  function Criterio(filtroCategoria: string, filtroPeriodo: string,
                    agora: Agora, dateOf: string -> Option<Date>): Despesa -> bool
  {
    d => Mantem(d, filtroCategoria, filtroPeriodo, agora, dateOf)
  }

  /** `filteredDespesas`: always an order-preserving subsequence of the list. */
  function Filtradas(despesas: seq<Despesa>, filtroCategoria: string, filtroPeriodo: string,
                     agora: Agora, dateOf: string -> Option<Date>): (r: seq<Despesa>)
    ensures IsSubsequence(r, despesas)
  {
    FilterMembers(despesas, Criterio(filtroCategoria, filtroPeriodo, agora, dateOf));
    Filter(despesas, Criterio(filtroCategoria, filtroPeriodo, agora, dateOf))
  }

  function NaCategoria(categoria: string): Despesa -> bool
  {
    (d: Despesa) => d.categoria == categoria
  }

  /** The expenses of one category, in list order. */
  function DaCategoria(despesas: seq<Despesa>, categoria: string): seq<Despesa>
  {
    Filter(despesas, NaCategoria(categoria))
  }

  /** With neither filter set, the whole list is shown. */
  lemma SemFiltros(despesas: seq<Despesa>, agora: Agora, dateOf: string -> Option<Date>)
    ensures Filtradas(despesas, "", "", agora, dateOf) == despesas
  {
    FilterKeepsAll(despesas, Criterio("", "", agora, dateOf));
  }

  /** The category filter alone keeps exactly the expenses of that category. */
  lemma SoCategoria(despesas: seq<Despesa>, categoria: string, agora: Agora, dateOf: string -> Option<Date>)
    requires categoria != ""
    ensures Filtradas(despesas, categoria, "", agora, dateOf) == DaCategoria(despesas, categoria)
    ensures forall i :: 0 <= i < |despesas| ==>
      (despesas[i] in Filtradas(despesas, categoria, "", agora, dateOf) <==> despesas[i].categoria == categoria)
  {
    FilterExt(despesas, Criterio(categoria, "", agora, dateOf), NaCategoria(categoria));
    FilterMembers(despesas, NaCategoria(categoria));
  }

  /** A period value that is not one of the four behaves as no period. */
  lemma PeriodoDesconhecido(despesas: seq<Despesa>, filtroCategoria: string, filtroPeriodo: string,
                            agora: Agora, dateOf: string -> Option<Date>)
    requires filtroPeriodo != "hoje" && filtroPeriodo != "semana" && filtroPeriodo != "mes" && filtroPeriodo != "ano"
    ensures Filtradas(despesas, filtroCategoria, filtroPeriodo, agora, dateOf)
         == Filtradas(despesas, filtroCategoria, "", agora, dateOf)
  {
    FilterExt(despesas, Criterio(filtroCategoria, filtroPeriodo, agora, dateOf), Criterio(filtroCategoria, "", agora, dateOf));
  }

  /** "Today" keeps the expenses of the category dated exactly today. */
  lemma HojeEhMesmoDia(despesas: seq<Despesa>, filtroCategoria: string, agora: Agora, dateOf: string -> Option<Date>)
    ensures forall i :: 0 <= i < |despesas| ==>
      (despesas[i] in Filtradas(despesas, filtroCategoria, "hoje", agora, dateOf) <==>
        (filtroCategoria == "" || despesas[i].categoria == filtroCategoria) && dateOf(despesas[i].data) == Some(agora.hoje))
  {
    FilterMembers(despesas, Criterio(filtroCategoria, "hoje", agora, dateOf));
  }

  /** "This month" keeps the expenses of the category dated in today's month and year. */
  lemma MesEhMesmoMes(despesas: seq<Despesa>, filtroCategoria: string, agora: Agora, dateOf: string -> Option<Date>)
    ensures forall i :: 0 <= i < |despesas| ==>
      (despesas[i] in Filtradas(despesas, filtroCategoria, "mes", agora, dateOf) <==>
        && (filtroCategoria == "" || despesas[i].categoria == filtroCategoria)
        && dateOf(despesas[i].data).Some?
        && dateOf(despesas[i].data).value.month == agora.hoje.month
        && dateOf(despesas[i].data).value.year == agora.hoje.year)
  {
    FilterMembers(despesas, Criterio(filtroCategoria, "mes", agora, dateOf));
  }

  /** "This year" keeps the expenses of the category dated in today's year. */
  lemma AnoEhMesmoAno(despesas: seq<Despesa>, filtroCategoria: string, agora: Agora, dateOf: string -> Option<Date>)
    ensures forall i :: 0 <= i < |despesas| ==>
      (despesas[i] in Filtradas(despesas, filtroCategoria, "ano", agora, dateOf) <==>
        && (filtroCategoria == "" || despesas[i].categoria == filtroCategoria)
        && dateOf(despesas[i].data).Some?
        && dateOf(despesas[i].data).value.year == agora.hoje.year)
  {
    FilterMembers(despesas, Criterio(filtroCategoria, "ano", agora, dateOf));
  }

  /** "This week" keeps the expenses of the category dated no earlier than seven days back. */
  lemma SemanaDesdeUmaSemanaAtras(despesas: seq<Despesa>, filtroCategoria: string, agora: Agora, dateOf: string -> Option<Date>)
    ensures forall i :: 0 <= i < |despesas| ==>
      (despesas[i] in Filtradas(despesas, filtroCategoria, "semana", agora, dateOf) <==>
        && (filtroCategoria == "" || despesas[i].categoria == filtroCategoria)
        && dateOf(despesas[i].data).Some?
        && NaoAntes(dateOf(despesas[i].data).value, agora.umaSemanaAtras))
  {
    FilterMembers(despesas, Criterio(filtroCategoria, "semana", agora, dateOf));
  }

  /** A period only ever narrows what the category filter shows. */
  lemma PeriodoRestringe(despesas: seq<Despesa>, filtroCategoria: string, filtroPeriodo: string,
                         agora: Agora, dateOf: string -> Option<Date>)
    ensures IsSubsequence(Filtradas(despesas, filtroCategoria, filtroPeriodo, agora, dateOf),
                          Filtradas(despesas, filtroCategoria, "", agora, dateOf))
  {
    FilterMonotone(despesas, Criterio(filtroCategoria, filtroPeriodo, agora, dateOf), Criterio(filtroCategoria, "", agora, dateOf));
  }

  /** Today's expenses are among this month's, and this month's among this year's. */
  lemma HojeMesAno(despesas: seq<Despesa>, filtroCategoria: string, agora: Agora, dateOf: string -> Option<Date>)
    ensures IsSubsequence(Filtradas(despesas, filtroCategoria, "hoje", agora, dateOf),
                          Filtradas(despesas, filtroCategoria, "mes", agora, dateOf))
    ensures IsSubsequence(Filtradas(despesas, filtroCategoria, "mes", agora, dateOf),
                          Filtradas(despesas, filtroCategoria, "ano", agora, dateOf))
  {
    FilterMonotone(despesas, Criterio(filtroCategoria, "hoje", agora, dateOf), Criterio(filtroCategoria, "mes", agora, dateOf));
    FilterMonotone(despesas, Criterio(filtroCategoria, "mes", agora, dateOf), Criterio(filtroCategoria, "ano", agora, dateOf));
  }

  lemma NaoAntesTransitivo(a: Date, b: Date, c: Date)
    requires NaoAntes(a, b) && NaoAntes(b, c)
    ensures NaoAntes(a, c)
  {
  }

  /** The week filter has no upper bound: an expense dated after today is still shown. */
  lemma SemanaSemLimiteSuperior(despesas: seq<Despesa>, i: int, x: Date, agora: Agora, dateOf: string -> Option<Date>)
    requires 0 <= i < |despesas|
    requires NaoAntes(agora.hoje, agora.umaSemanaAtras)
    requires dateOf(despesas[i].data) == Some(x) && NaoAntes(x, agora.hoje)
    ensures despesas[i] in Filtradas(despesas, "", "semana", agora, dateOf)
  {
    NaoAntesTransitivo(x, agora.hoje, agora.umaSemanaAtras);
    FilterMembers(despesas, Criterio("", "semana", agora, dateOf));
  }

  function NaoMantem(filtroCategoria: string, filtroPeriodo: string,
                     agora: Agora, dateOf: string -> Option<Date>): Despesa -> bool
  {
    d => !Mantem(d, filtroCategoria, filtroPeriodo, agora, dateOf)
  }

  /**
    The displayed total covers the shown expenses only: it and the total of the
    hidden ones add up to the whole, so with non-negative amounts it never
    exceeds the total of the list.
  */
  lemma TotalFiltrado(despesas: seq<Despesa>, filtroCategoria: string, filtroPeriodo: string,
                      agora: Agora, dateOf: string -> Option<Date>)
    ensures TotalDespesas(Filtradas(despesas, filtroCategoria, filtroPeriodo, agora, dateOf))
          + TotalDespesas(Filter(despesas, NaoMantem(filtroCategoria, filtroPeriodo, agora, dateOf)))
         == TotalDespesas(despesas)
    ensures (forall d :: d in despesas ==> d.valor >= 0.0) ==>
      TotalDespesas(Filtradas(despesas, filtroCategoria, filtroPeriodo, agora, dateOf)) <= TotalDespesas(despesas)
  {
    var hidden := Filter(despesas, NaoMantem(filtroCategoria, filtroPeriodo, agora, dateOf));
    SumFilterSplit(despesas, Criterio(filtroCategoria, filtroPeriodo, agora, dateOf),
                   NaoMantem(filtroCategoria, filtroPeriodo, agora, dateOf), ValorDespesa);
    if forall d :: d in despesas ==> d.valor >= 0.0 {
      FilterMembers(despesas, NaoMantem(filtroCategoria, filtroPeriodo, agora, dateOf));
      SumNonNegative(hidden, ValorDespesa);
    }
  }

  /** Appending an expense adds its amount to the total; no expenses total 0. */
  lemma TotalDespesasAppend(despesas: seq<Despesa>, d: Despesa)
    ensures TotalDespesas([]) == 0.0
    ensures TotalDespesas(despesas + [d]) == TotalDespesas(despesas) + d.valor
  {
    assert (despesas + [d])[..|despesas|] == despesas;
  }

  /** `handleDelete`: once confirmed, removes the records with that id and nothing else. */
  method HandleDelete(store: LocalStore, id: string, confirmed: bool)
    requires store.Valid()
    modifies store
    ensures store.Valid()
    ensures !confirmed ==> store.items == old(store.items)
    ensures confirmed ==>
      && GetDespesas(store.items) == RemoveById(old(GetDespesas(store.items)), DespesaId, id)
      && store.items == old(store.items)[DespesasKey := StoredDespesas(GetDespesas(store.items))]
  {
    if confirmed {
      store.DeleteDespesa(id);
    }
  }
}
