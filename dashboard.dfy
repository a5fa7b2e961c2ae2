/**
  The dashboard: the headline totals, the expenses grouped by category, the five
  largest categories, and the salary editor.
*/
module Dashboard {
  import opened Wrappers
  import opened Lists
  import opened Types
  import opened Validation
  import opened Store
  import DespesaList
  import DividaList
  import InvestimentoList

  // ---------------------------------------------------------------- Totals

  /** The figures shown on the cards, all computed from the loaded lists. */
  datatype Resumo = Resumo(
    totalDespesas: real,
    totalInvestimentos: real,
    totalRendimentos: real,
    totalDividas: real,
    totalPago: real,
    saldoDevedor: real,
    saldoDisponivel: real)

  /** What is left of the salary after every expense; it may be negative. */
  function SaldoDisponivel(salario: Salario, despesas: seq<Despesa>): real
  {
    salario.valor - DespesaList.TotalDespesas(despesas)
  }

  function ResumoDe(salario: Salario, despesas: seq<Despesa>, investimentos: seq<Investimento>,
                    dividas: seq<Divida>): (r: Resumo)
    ensures r.saldoDevedor == r.totalDividas - r.totalPago
    ensures r.saldoDisponivel == salario.valor - r.totalDespesas
    ensures r.totalDespesas == DespesaList.TotalDespesas(despesas)
    ensures r.totalInvestimentos == InvestimentoList.TotalInvestido(investimentos)
    ensures r.totalRendimentos == InvestimentoList.TotalRendimento(investimentos)
    ensures r.totalDividas == DividaList.TotalDividas(dividas) && r.totalPago == DividaList.TotalPago(dividas)
  {
    Resumo(
      DespesaList.TotalDespesas(despesas),
      InvestimentoList.TotalInvestido(investimentos),
      InvestimentoList.TotalRendimento(investimentos),
      DividaList.TotalDividas(dividas),
      DividaList.TotalPago(dividas),
      DividaList.SaldoDevedor(dividas),
      SaldoDisponivel(salario, despesas))
  }

  /** Each new expense lowers the available balance by exactly its amount. */
  lemma SaldoDisponivelAposDespesa(salario: Salario, despesas: seq<Despesa>, d: Despesa)
    ensures SaldoDisponivel(salario, despesas + [d]) == SaldoDisponivel(salario, despesas) - d.valor
    ensures SaldoDisponivel(salario, []) == salario.valor
  {
    DespesaList.TotalDespesasAppend(despesas, d);
  }

  /** 5000.00 of salary against 1200.50 and 300.00 of expenses leaves 3499.50. */
  lemma SaldoDisponivelExemplo(a: Despesa, b: Despesa)
    requires a.valor == 1200.50 && b.valor == 300.0
    ensures SaldoDisponivel(Salario(5000.0), [a, b]) == 3499.50
    ensures SaldoDisponivel(Salario(1000.0), [a, b]) < 0.0
  {
    assert [a, b] == [a] + [b];
    DespesaList.TotalDespesasAppend([], a);
    DespesaList.TotalDespesasAppend([a], b);
  }

  // ---------------------------------------------------------------- Grouping

  datatype CategoriaTotal = CategoriaTotal(categoria: string, total: real)

  /** What one category's expenses add up to. */
  function SomaDaCategoria(despesas: seq<Despesa>, categoria: string): real
  {
    DespesaList.TotalDespesas(DespesaList.DaCategoria(despesas, categoria))
  }

  /** One entry per category, with that category's sum. */
  function Entradas(categorias: seq<string>, despesas: seq<Despesa>): (r: seq<CategoriaTotal>)
    ensures |r| == |categorias|
    ensures forall k :: 0 <= k < |r| ==> r[k] == CategoriaTotal(categorias[k], SomaDaCategoria(despesas, categorias[k]))
  {
    seq(|categorias|, k requires 0 <= k < |categorias| =>
      CategoriaTotal(categorias[k], SomaDaCategoria(despesas, categorias[k])))
  }

  /**
    `Object.entries(despesasPorCategoria)`: every category that occurs, once, in
    order of its first occurrence, with its sum.
  */
  function PorCategoria(despesas: seq<Despesa>): seq<CategoriaTotal>
  {
    Entradas(Distinct(DespesaList.Categorias(despesas)), despesas)
  }

  lemma SomaDaCategoriaAcrescentada(despesas: seq<Despesa>, d: Despesa, categoria: string)
    ensures SomaDaCategoria(despesas + [d], categoria)
         == SomaDaCategoria(despesas, categoria) + (if d.categoria == categoria then d.valor else 0.0)
    ensures SomaDaCategoria([], categoria) == 0.0
  {
    var p := DespesaList.NaCategoria(categoria);
    FilterAppend(despesas, [d], p);
    SumAppend(Filter(despesas, p), Filter([d], p), DespesaList.ValorDespesa);
    assert Filter([d], p) == if d.categoria == categoria then [d] else [] by {
      assert [d][..0] == [];
    }
    if d.categoria == categoria {
      assert [d][..0] == [];
    }
  }

  /** The key order the loop builds: a category is appended when first met. */
  function OrdemDasChaves(despesas: seq<Despesa>): seq<string>
  {
    if despesas == [] then []
    else
      var antes := OrdemDasChaves(despesas[..|despesas| - 1]);
      var c := despesas[|despesas| - 1].categoria;
      if c in antes then antes else antes + [c]
  }

  /** The running total the loop keeps for one category. */
  function TotalCorrente(despesas: seq<Despesa>, categoria: string): real
  {
    if despesas == [] then 0.0
    else
      var d := despesas[|despesas| - 1];
      TotalCorrente(despesas[..|despesas| - 1], categoria) + (if d.categoria == categoria then d.valor else 0.0)
  }

  /** A category not yet in the key order has nothing added up. */
  lemma {:induction false} TotalCorrenteForaDaOrdem(despesas: seq<Despesa>, categoria: string)
    requires categoria !in OrdemDasChaves(despesas)
    ensures TotalCorrente(despesas, categoria) == 0.0
  {
    if despesas != [] {
      TotalCorrenteForaDaOrdem(despesas[..|despesas| - 1], categoria);
    }
  }

  /** The loop's key order is the distinct categories in order of first occurrence. */
  lemma {:induction false} OrdemDasChavesEhDistinct(despesas: seq<Despesa>)
    ensures OrdemDasChaves(despesas) == Distinct(DespesaList.Categorias(despesas))
  {
    if despesas != [] {
      var init := despesas[..|despesas| - 1];
      OrdemDasChavesEhDistinct(init);
      var cs := DespesaList.Categorias(despesas);
      assert cs[..|init|] == DespesaList.Categorias(init);
    }
  }

  /** The loop's running total is the category's sum. */
  lemma {:induction false} TotalCorrenteEhSoma(despesas: seq<Despesa>, categoria: string)
    ensures TotalCorrente(despesas, categoria) == SomaDaCategoria(despesas, categoria)
  {
    if despesas == [] {
      SomaDaCategoriaAcrescentada([], Despesa("", "", 0.0, "", ""), categoria);
    } else {
      var init, d := despesas[..|despesas| - 1], despesas[|despesas| - 1];
      assert despesas == init + [d];
      TotalCorrenteEhSoma(init, categoria);
      SomaDaCategoriaAcrescentada(init, d, categoria);
    }
  }

  /** What the grouping loop keeps after reading `despesas`. */
  ghost predicate Corrente(totais: map<string, real>, ordem: seq<string>, despesas: seq<Despesa>)
  {
    && ordem == OrdemDasChaves(despesas)
    && (forall c :: c in totais <==> c in ordem)
    && (forall c :: c in totais ==> totais[c] == TotalCorrente(despesas, c))
  }

  /** One iteration of the grouping loop keeps `Corrente`, on either branch. */
  lemma PassoCorrente(totais: map<string, real>, ordem: seq<string>, despesas: seq<Despesa>, d: Despesa)
    requires Corrente(totais, ordem, despesas)
    ensures d.categoria in totais ==>
      Corrente(totais[d.categoria := totais[d.categoria] + d.valor], ordem, despesas + [d])
    ensures d.categoria !in totais ==>
      Corrente(totais[d.categoria := d.valor], ordem + [d.categoria], despesas + [d])
  {
    var ds := despesas + [d];
    assert ds[..|despesas|] == despesas;
    forall c ensures TotalCorrente(ds, c) == TotalCorrente(despesas, c) + (if d.categoria == c then d.valor else 0.0) {
    }
    if d.categoria !in totais {
      TotalCorrenteForaDaOrdem(despesas, d.categoria);
    }
  }

  /** The entries read off the finished map, in key order. */
  function EntradasDoMapa(totais: map<string, real>, ordem: seq<string>): seq<CategoriaTotal>
    requires forall c :: c in ordem ==> c in totais
  {
    seq(|ordem|, k requires 0 <= k < |ordem| => CategoriaTotal(ordem[k], totais[ordem[k]]))
  }

  /** Once every expense has been read, the map and its key order are the grouping. */
  lemma CorrenteFinal(totais: map<string, real>, ordem: seq<string>, despesas: seq<Despesa>)
    requires Corrente(totais, ordem, despesas)
    ensures ordem == Distinct(DespesaList.Categorias(despesas))
    ensures forall c :: c in totais ==> totais[c] == SomaDaCategoria(despesas, c)
    ensures EntradasDoMapa(totais, ordem) == PorCategoria(despesas)
  {
    OrdemDasChavesEhDistinct(despesas);
    forall c | c in totais ensures totais[c] == SomaDaCategoria(despesas, c) {
      TotalCorrenteEhSoma(despesas, c);
    }
  }

  /**
    The grouping loop. The source adds to a category's running total only when
    that total is truthy, and otherwise (re)starts it with the expense's amount;
    since a zero total is the only falsy number, both branches give the same sum.
    New keys are appended to the key order, which an existing key keeps.
  */
  method AgruparPorCategoria(despesas: seq<Despesa>) returns (totais: map<string, real>, ordem: seq<string>, entradas: seq<CategoriaTotal>)
    ensures ordem == Distinct(DespesaList.Categorias(despesas))
    ensures forall c :: c in totais <==> c in ordem
    ensures forall c :: c in totais ==> totais[c] == SomaDaCategoria(despesas, c)
    ensures entradas == PorCategoria(despesas)
  {
    totais, ordem := map[], [];
    var i := 0;
    while i < |despesas|
      invariant 0 <= i <= |despesas|
      invariant Corrente(totais, ordem, despesas[..i])
    {
      var d := despesas[i];
      assert despesas[..i + 1] == despesas[..i] + [d];
      PassoCorrente(totais, ordem, despesas[..i], d);
      if d.categoria in totais && totais[d.categoria] != 0.0 {
        totais := totais[d.categoria := totais[d.categoria] + d.valor];
      } else {
        if d.categoria !in totais {
          ordem := ordem + [d.categoria];
        } else {
          assert totais[d.categoria := d.valor] == totais[d.categoria := totais[d.categoria] + d.valor];
        }
        totais := totais[d.categoria := d.valor];
      }
      i := i + 1;
    }
    assert despesas[..i] == despesas;
    CorrenteFinal(totais, ordem, despesas);
    entradas := EntradasDoMapa(totais, ordem);
  }

  function TotalDe(e: CategoriaTotal): real { e.total }

  /** A category's running total, as a function of the category. */
  function TotalNa(despesas: seq<Despesa>): string -> real
  {
    (c: string) => TotalCorrente(despesas, c)
  }

  /** `v` for the category `x`, zero for every other one. */
  function Indicador(x: string, v: real): string -> real
  {
    (c: string) => if c == x then v else 0.0
  }

  lemma {:induction false} SomaIndicador(categorias: seq<string>, x: string, v: real)
    requires NoDuplicates(categorias)
    ensures Sum(categorias, Indicador(x, v)) == if x in categorias then v else 0.0
  {
    if categorias != [] {
      var init, last := categorias[..|categorias| - 1], categorias[|categorias| - 1];
      assert categorias == init + [last];
      assert NoDuplicates(init);
      SomaIndicador(init, x, v);
    }
  }

  /** Summing every category's total over a list of distinct categories that covers all expenses gives the grand total. */
  lemma {:induction false} SomaPorCategorias(categorias: seq<string>, despesas: seq<Despesa>)
    requires NoDuplicates(categorias)
    requires forall i :: 0 <= i < |despesas| ==> despesas[i].categoria in categorias
    ensures Sum(categorias, TotalNa(despesas)) == DespesaList.TotalDespesas(despesas)
  {
    if despesas == [] {
      SumScale(categorias, TotalNa(despesas), TotalNa(despesas), 0.0);
      DespesaList.TotalDespesasAppend([], Despesa("", "", 0.0, "", ""));
    } else {
      var init, d := despesas[..|despesas| - 1], despesas[|despesas| - 1];
      assert despesas == init + [d];
      SomaPorCategorias(categorias, init);
      SumDifference(categorias, TotalNa(despesas), Indicador(d.categoria, d.valor), TotalNa(init));
      SomaIndicador(categorias, d.categoria, d.valor);
      DespesaList.TotalDespesasAppend(init, d);
    }
  }

  lemma {:induction false} SomaEntradas(categorias: seq<string>, despesas: seq<Despesa>)
    ensures Sum(Entradas(categorias, despesas), TotalDe) == Sum(categorias, TotalNa(despesas))
  {
    if categorias != [] {
      var init, last := categorias[..|categorias| - 1], categorias[|categorias| - 1];
      var es := Entradas(categorias, despesas);
      assert es[..|init|] == Entradas(init, despesas);
      SomaEntradas(init, despesas);
      TotalCorrenteEhSoma(despesas, last);
    }
  }

  /** The category totals partition the expense total: nothing is lost or counted twice. */
  lemma PorCategoriaParticiona(despesas: seq<Despesa>)
    ensures Sum(PorCategoria(despesas), TotalDe) == DespesaList.TotalDespesas(despesas)
  {
    var categorias := Distinct(DespesaList.Categorias(despesas));
    SomaEntradas(categorias, despesas);
    SomaPorCategorias(categorias, despesas);
  }

  /**
    The grouped entries are the expense list's category options, in the same
    order, each with its own sum; so each category occurs once.
  */
  lemma PorCategoriaCategorias(despesas: seq<Despesa>)
    ensures var es, opcoes := PorCategoria(despesas), DespesaList.OpcoesDeCategoria(despesas);
      && |es| == |opcoes|
      && (forall k :: 0 <= k < |es| ==> es[k] == CategoriaTotal(opcoes[k], SomaDaCategoria(despesas, opcoes[k])))
      && (forall i, j :: 0 <= i < j < |es| ==> es[i].categoria != es[j].categoria)
  {
    var es, opcoes := PorCategoria(despesas), DespesaList.OpcoesDeCategoria(despesas);
    assert NoDuplicates(opcoes);
  }

  // ---------------------------------------------------------------- Ranking

  /** How many categories the ranking shows: `.slice(0, 5)`. */
  const MaxCategorias := 5

  /** Non-increasing totals: the order `(a, b) => b[1] - a[1]` asks for. */
  ghost predicate Decrescente(s: seq<CategoriaTotal>)
  {
    forall i, j :: 0 <= i < j < |s| ==> s[i].total >= s[j].total
  }

  /**
    Inserts `x` after every entry whose total is at least its own, so an entry
    that came later in the input stays after the equal ones before it.
  */
  function Inserir(s: seq<CategoriaTotal>, x: CategoriaTotal): seq<CategoriaTotal>
  {
    if s == [] then [x]
    else if s[0].total >= x.total then [s[0]] + Inserir(s[1..], x)
    else [x] + s
  }

  /** `Array.prototype.sort` with the descending comparator; the sort is stable. */
  function Ordenar(xs: seq<CategoriaTotal>): seq<CategoriaTotal>
  {
    if xs == [] then [] else Inserir(Ordenar(xs[..|xs| - 1]), xs[|xs| - 1])
  }

  /** The ranking shown: the sorted entries, cut at five. */
  function Top5(xs: seq<CategoriaTotal>): seq<CategoriaTotal>
  {
    var s := Ordenar(xs);
    s[..if |s| < MaxCategorias then |s| else MaxCategorias]
  }

  function ComTotal(v: real): CategoriaTotal -> bool
  {
    (e: CategoriaTotal) => e.total == v
  }

  lemma {:induction false} InserirPermuta(s: seq<CategoriaTotal>, x: CategoriaTotal)
    ensures multiset(Inserir(s, x)) == multiset(s) + multiset{x}
  {
    if s != [] && s[0].total >= x.total {
      assert s == [s[0]] + s[1..];
      InserirPermuta(s[1..], x);
    }
  }

  /** The inserted list holds the old entries and `x`, and nothing else. */
  lemma InserirMembros(s: seq<CategoriaTotal>, x: CategoriaTotal)
    ensures forall y :: y in Inserir(s, x) <==> y in s || y == x
  {
    InserirPermuta(s, x);
    assert forall y :: y in Inserir(s, x) <==> y in multiset(Inserir(s, x));
  }

  lemma {:induction false} InserirOrdena(s: seq<CategoriaTotal>, x: CategoriaTotal)
    requires Decrescente(s)
    ensures Decrescente(Inserir(s, x))
  {
    if s != [] && s[0].total >= x.total {
      var r := Inserir(s[1..], x);
      InserirOrdena(s[1..], x);
      InserirMembros(s[1..], x);
      assert forall k :: 0 <= k < |r| ==> r[k] in r;
      assert Inserir(s, x) == [s[0]] + r;
    }
  }

  /** The entry `x` alone, if it has total `v`. */
  function SeComTotal(x: CategoriaTotal, v: real): seq<CategoriaTotal>
  {
    if x.total == v then [x] else []
  }

  /** The recursive case of `InserirEstavel`: the head stays in front. */
  lemma InserirEstavelCabeca(s: seq<CategoriaTotal>, x: CategoriaTotal, v: real)
    requires s != [] && s[0].total >= x.total
    requires Filter(Inserir(s[1..], x), ComTotal(v)) == Filter(s[1..], ComTotal(v)) + SeComTotal(x, v)
    ensures Filter(Inserir(s, x), ComTotal(v)) == Filter(s, ComTotal(v)) + SeComTotal(x, v)
  {
    assert Inserir(s, x) == [s[0]] + Inserir(s[1..], x);
    assert s == [s[0]] + s[1..];
    FilterConsBoth(s[0], s[1..], Inserir(s[1..], x), ComTotal(v), SeComTotal(x, v));
  }

  /** The other case of `InserirEstavel`: `x` goes in front of a list whose totals are all smaller. */
  lemma InserirEstavelFrente(s: seq<CategoriaTotal>, x: CategoriaTotal, v: real)
    requires Decrescente(s)
    requires s == [] || s[0].total < x.total
    ensures Filter(Inserir(s, x), ComTotal(v)) == Filter(s, ComTotal(v)) + SeComTotal(x, v)
  {
    var p := ComTotal(v);
    assert Inserir(s, x) == [x] + s;
    FilterCons(x, s, p);
    if x.total == v {
      FilterKeepsNone(s, p);
    }
  }

  /** Stability: among entries of one total, insertion puts `x` last. */
  lemma {:induction false} InserirEstavel(s: seq<CategoriaTotal>, x: CategoriaTotal, v: real)
    requires Decrescente(s)
    ensures Filter(Inserir(s, x), ComTotal(v)) == Filter(s, ComTotal(v)) + SeComTotal(x, v)
  {
    if s != [] && s[0].total >= x.total {
      InserirEstavel(s[1..], x, v);
      InserirEstavelCabeca(s, x, v);
    } else {
      InserirEstavelFrente(s, x, v);
    }
  }

  lemma {:induction false} InserirSemRepeticao(s: seq<CategoriaTotal>, x: CategoriaTotal)
    requires NoDuplicates(s) && x !in s
    ensures NoDuplicates(Inserir(s, x))
  {
    if s != [] && s[0].total >= x.total {
      var r := Inserir(s[1..], x);
      assert s == [s[0]] + s[1..];
      InserirSemRepeticao(s[1..], x);
      InserirPermuta(s[1..], x);
      forall k | 0 <= k < |r| ensures r[k] != s[0] {
        assert r[k] in multiset(r);
        assert r[k] == x || r[k] in s[1..];
      }
      assert Inserir(s, x) == [s[0]] + r;
    }
  }

  /** The sorted entries are a permutation of the input, in non-increasing order of total. */
  lemma {:induction false} OrdenarOrdenaEPermuta(xs: seq<CategoriaTotal>)
    ensures multiset(Ordenar(xs)) == multiset(xs)
    ensures Decrescente(Ordenar(xs))
  {
    if xs != [] {
      var init := xs[..|xs| - 1];
      assert xs == init + [xs[|xs| - 1]];
      OrdenarOrdenaEPermuta(init);
      InserirPermuta(Ordenar(init), xs[|xs| - 1]);
      InserirOrdena(Ordenar(init), xs[|xs| - 1]);
    }
  }

  /** The sort is stable: entries with the same total keep their input order. */
  lemma {:induction false} OrdenarEstavel(xs: seq<CategoriaTotal>, v: real)
    ensures Filter(Ordenar(xs), ComTotal(v)) == Filter(xs, ComTotal(v))
  {
    if xs != [] {
      var init, last := xs[..|xs| - 1], xs[|xs| - 1];
      assert xs == init + [last];
      OrdenarEstavel(init, v);
      OrdenarOrdenaEPermuta(init);
      InserirEstavel(Ordenar(init), last, v);
      assert SeComTotal(last, v) == Filter([last], ComTotal(v));
      FilterAppend(init, [last], ComTotal(v));
      assert [last][..0] == [];
    }
  }

  lemma {:induction false} OrdenarSemRepeticao(xs: seq<CategoriaTotal>)
    requires NoDuplicates(xs)
    ensures NoDuplicates(Ordenar(xs))
  {
    if xs != [] {
      var init, last := xs[..|xs| - 1], xs[|xs| - 1];
      assert xs == init + [last];
      assert NoDuplicates(init);
      OrdenarSemRepeticao(init);
      OrdenarOrdenaEPermuta(init);
      assert last !in multiset(init);
      InserirSemRepeticao(Ordenar(init), last);
    }
  }

  /**
    The ranking holds min(5, n) entries, in non-increasing order, all taken
    from the input; every entry left out has a total no larger than any shown.
  */
  lemma Top5Maiores(xs: seq<CategoriaTotal>)
    ensures |Top5(xs)| == if |xs| < MaxCategorias then |xs| else MaxCategorias
    ensures Decrescente(Top5(xs))
    ensures multiset(Top5(xs)) <= multiset(xs)
    ensures forall e, t :: e in xs && e !in Top5(xs) && t in Top5(xs) ==> e.total <= t.total
  {
    var s := Ordenar(xs);
    OrdenarOrdenaEPermuta(xs);
    assert |s| == |xs| by {
      assert |multiset(s)| == |multiset(xs)|;
    }
    var n := if |s| < MaxCategorias then |s| else MaxCategorias;
    assert s == s[..n] + s[n..];
    assert multiset(s) == multiset(s[..n]) + multiset(s[n..]);
    forall e, t | e in xs && e !in Top5(xs) && t in Top5(xs) ensures e.total <= t.total {
      assert e in multiset(s);
      var j :| 0 <= j < |s| && s[j] == e;
      var i :| 0 <= i < n && s[i] == t;
    }
  }

  /**
    On the dashboard's own entries the ranking shows distinct categories, each
    with its full sum.
  */
  lemma Top5DoDashboard(despesas: seq<Despesa>)
    ensures var top := Top5(PorCategoria(despesas));
      && (forall i, j :: 0 <= i < j < |top| ==> top[i].categoria != top[j].categoria)
      && (forall k :: 0 <= k < |top| ==>
            top[k] in PorCategoria(despesas) && top[k].total == SomaDaCategoria(despesas, top[k].categoria))
  {
    var es := PorCategoria(despesas);
    PorCategoriaCategorias(despesas);
    assert NoDuplicates(es);
    OrdenarSemRepeticao(es);
    OrdenarOrdenaEPermuta(es);
    Top5Maiores(es);
    var s := Ordenar(es);
    var top := Top5(es);
    forall k | 0 <= k < |top| ensures top[k] in es && top[k].total == SomaDaCategoria(despesas, top[k].categoria) {
      assert top[k] in multiset(top);
    }
    forall i, j | 0 <= i < j < |top| ensures top[i].categoria != top[j].categoria {
      assert top[i] == s[i] && top[j] == s[j];
      assert top[i] in multiset(top) && top[j] in multiset(top);
    }
  }

  // ---------------------------------------------------------------- Salary editor

  /** The salary checks: a number, and not negative (zero is accepted). */
  function CheckSalario(amount: Option<real>): (r: Result<real, FormError>)
    ensures r.Ok? <==> amount.Some? && amount.value >= 0.0
    ensures r.Ok? ==> r.value == amount.value
    ensures r == Err(SalarioInvalido) <==> amount.None?
    ensures r == Err(SalarioNegativo) <==> amount.Some? && amount.value < 0.0
  {
    if amount.None? then Err(SalarioInvalido)
    else if amount.value < 0.0 then Err(SalarioNegativo)
    else Ok(amount.value)
  }

  class Component {
    var despesas: seq<Despesa>
    var investimentos: seq<Investimento>
    var dividas: seq<Divida>
    var salario: Salario
    var editandoSalario: bool
    var novoSalario: string
    var error: Option<FormError>

    /** The state once the mount effect has loaded the three lists and the salary. */
    constructor (store: LocalStore)
      requires store.Valid()
      ensures despesas == GetDespesas(store.items)
      ensures investimentos == GetInvestimentos(store.items)
      ensures dividas == GetDividas(store.items)
      ensures salario == GetSalario(store.items)
      ensures !editandoSalario && novoSalario == "" && error == None
    {
      despesas := GetDespesas(store.items);
      investimentos := GetInvestimentos(store.items);
      dividas := GetDividas(store.items);
      salario := GetSalario(store.items);
      editandoSalario, novoSalario, error := false, "", None;
    }

    /** The figures on the cards for the current state. */
    function Cartoes(): Resumo
      reads this
    {
      ResumoDe(salario, despesas, investimentos, dividas)
    }

    /** `categoriasOrdenadas` for the current state. */
    function CategoriasOrdenadas(): seq<CategoriaTotal>
      reads this
    {
      Top5(PorCategoria(despesas))
    }

    /**
      The "Editar"/"Cancelar" button: flips the editor, clears the error and
      pre-fills the text with the salary when it is positive. Number-to-text
      conversion is the parameter `paraTexto`.
    */
    method AlternarEdicao(paraTexto: real -> string)
      modifies this
      ensures editandoSalario == !old(editandoSalario)
      ensures error == None
      ensures novoSalario == if salario.valor > 0.0 then paraTexto(salario.valor) else ""
      ensures salario == old(salario) && despesas == old(despesas)
      ensures investimentos == old(investimentos) && dividas == old(dividas)
    {
      editandoSalario := !editandoSalario;
      error := None;
      novoSalario := if salario.valor > 0.0 then paraTexto(salario.valor) else "";
    }

    /**
      `handleSalarioSubmit`. A rejected text leaves the store and the salary as
      they were; an accepted one is saved, shown, and closes the editor. Either
      way the outcome is the check of the parsed text, so a stored salary is
      never negative.
    */
    method HandleSalarioSubmit(store: LocalStore, parseFloat: string -> Option<real>)
      requires store.Valid()
      modifies this, store
      ensures store.Valid()
      ensures despesas == old(despesas) && investimentos == old(investimentos) && dividas == old(dividas)
      ensures var r := CheckSalario(ParseAmount(old(novoSalario), parseFloat));
        && (r.Err? ==>
              && store.items == old(store.items)
              && error == Some(r.error)
              && salario == old(salario) && editandoSalario == old(editandoSalario)
              && novoSalario == old(novoSalario))
        && (r.Ok? ==>
              && store.items == old(store.items)[SalarioKey := StoredSalario(Salario(r.value))]
              && GetSalario(store.items) == salario == Salario(r.value)
              && salario.valor >= 0.0
              && error == None && !editandoSalario && novoSalario == "")
    {
      error := None;
      var valor := ParseAmount(novoSalario, parseFloat);
      if valor.None? {
        error := Some(SalarioInvalido);
        return;
      }
      if valor.value < 0.0 {
        error := Some(SalarioNegativo);
        return;
      }
      var novoSalarioObj := Salario(valor.value);
      store.SaveSalario(novoSalarioObj);
      salario := novoSalarioObj;
      editandoSalario := false;
      novoSalario := "";
    }
  }
}
