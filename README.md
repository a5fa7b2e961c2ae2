# Finance tracker data layer, in Dafny

This is a model of the data layer of a local personal-finance tracker. The tracker records
expenses (*despesas*), investments (*investimentos*), investment transactions (*transações*),
debts (*dívidas*), debt payments (*pagamentos*) and a monthly salary (*salário*), all kept in
the browser's local storage. The model has three parts, and the proofs are about them.

- **Record store** (`store.dfy`, module `Store`).
  - Class `LocalStore` has one field, `items`: a map from storage key to an already-decoded
    collection.
  - Every read is a pure function on that map. An absent key gives the default: the nine
    built-in categories, an empty list, or a salary of 0.
  - Every write reads its collection, builds a new one and writes it back under its own key.
    The write is an append, a replace by id, a delete by id, a deduplicating category insert
    or a salary overwrite.
  - Each method's contract gives the whole new map, so "nothing else changes" is part of it.
  - The list operations behind these writes live in `lists.dfy` (module `Lists`): `Filter`,
    `Sum`, `ReplaceById`, `RemoveById` and `Distinct`. Their properties are proved there: order
    is kept, exactly the matching records go, and deleting twice is deleting once.
- **Form submit handlers**. Each form is a `Component` class with the form's state fields:
  - `despesa_form.dfy`, `investimento_form.dfy`, `divida_form.dfy`, `transacao_form.dfy`,
    `pagamento_form.dfy`;
  - the salary editor, in `dashboard.dfy`.

  Its `HandleSubmit` runs the same checks as the source, in the same order. The checks are
  shared by `validation.dfy`:
  - every required field is non-empty, with no trimming;
  - `parseFloat` of the text with its first comma turned into a dot is a number;
  - that number is > 0. For the salary it is ≥ 0, and for a payment it must also be ≤ the
    debt's balance.

  On rejection, the store is unchanged and the reason is recorded. On success, the method
  performs the source's one or two store writes and resets the fields the way the source does.
  The proofs carry the invariants through:
  - a debt's `0 ≤ valorPago ≤ valorTotal`;
  - yield = 10% of the amount;
  - the paired deposit of a new investment.
- **Aggregators**. These are pure functions over the loaded lists:
  - the dashboard cards;
  - the grouping of expenses by category, done as a loop over a dictionary (for category
    names that are not inherited properties of a plain JavaScript object; see "## Left out");
  - the stable sort and the top five;
  - the expense list's category and period filters and its total;
  - the transaction, debt and investment list totals.

  The lemmas cover:
  - sums over partitions: groups add up to the total, deposits plus withdrawals are all
    amounts, row balances add up to the debt balance;
  - order-preserving subsequences;
  - the sort: sorted, a permutation of its input, and stable.

Amounts are `real`. The number parser `parseFloat` is a parameter of type
`string -> Option<real>`, where `None` stands for NaN. Fresh ids, the current instant
(`nowIso`), the expense list's date reading (`dateOf`) and clock (`Agora`), the `window.confirm`
answer and the salary's number-to-text conversion are parameters too.

The "semana" (week) period of the expense list (`src/components/DespesaList.tsx:32-35`)
tests only `date >= now - 7 days`, with no upper bound:
`DespesaList.SemanaSemLimiteSuperior` proves that an expense dated after today is shown.

## Model

| member | source | states |
|---|---|---|
| Validation.CheckSubmission | src/components/DespesaForm.tsx:25-35 | accepted iff every required field is non-empty and the parsed amount is a number > 0; then the value is that amount; an empty field is reported before a bad amount |
| Validation.BlankFieldsPass | src/components/DespesaForm.tsx:25-28 | every non-empty whitespace-only field passes the required-field check (there is no trim) |
| Text.ReplaceFirstCommaNoComma | src/components/DespesaForm.tsx:30 | text without a comma reaches the parser unchanged |
| Text.ReplaceFirstCommaAt | src/components/DespesaForm.tsx:30 | only the first comma becomes a dot; everything before and after it is kept |
| Text.TrimEmptyIffBlank | src/components/DespesaForm.tsx:58 | a category name trims to "" exactly when it is all whitespace |
| Text.TrimHasNoOuterWhitespace | src/components/DespesaForm.tsx:63-68 | the trimmed name that is checked and saved has no whitespace at either end |
| Text.TrimIdempotent | src/components/DespesaForm.tsx:63-69 | trimming the trimmed name again changes nothing |
| Text.DatePartOfTimestamp | src/components/DividaForm.tsx:36 | `split('T')[0]` of an ISO timestamp gives back its date part exactly |
| Store.GetCategories | src/utils/localStorage.ts:4-17 | an absent key gives the nine default categories in their fixed order; otherwise the stored list |
| Store.GetDespesas | src/utils/localStorage.ts:27-30 | an absent key gives []; otherwise the stored expenses |
| Store.GetInvestimentos | src/utils/localStorage.ts:50-53 | an absent key gives []; otherwise the stored investments |
| Store.GetTransacoes | src/utils/localStorage.ts:73-76 | an absent key gives []; otherwise the stored transactions |
| Store.GetDividas | src/utils/localStorage.ts:84-87 | an absent key gives []; otherwise the stored debts |
| Store.GetPagamentos | src/utils/localStorage.ts:107-110 | an absent key gives []; otherwise the stored payments |
| Store.GetPagamentosByDividaId | src/utils/localStorage.ts:117-120 | an order-preserving subsequence of the payments, holding every payment with that dividaId, as many times as it is stored, and no other |
| Store.GetSalario | src/utils/localStorage.ts:123-126 | an absent key gives a salary of 0; otherwise the stored salary |
| Store.WithCategory | src/utils/localStorage.ts:19-24 | the name is always in the result; a known name leaves the list as it is; a new one is appended at the end, with the old list as prefix |
| Store.WithCategoryIdempotent | src/utils/localStorage.ts:19-24 | saving a category twice equals saving it once |
| Store.WithCategoryKeepsNamesUnique | src/utils/localStorage.ts:19-24 | a list without repeated names keeps that property |
| Store.SaveSalarioThenGet | src/utils/localStorage.ts:123-130 | a salary written is read back exactly; the other keys read as before |
| Store.LocalStore.SetItem | src/utils/localStorage.ts:34 | `localStorage.setItem`: the given key now holds the given value and every other key is unchanged |
| Store.LocalStore.SaveCategory | src/utils/localStorage.ts:19-24 | a known name writes nothing; a new one is appended under `categories` only |
| Store.LocalStore.SaveDespesa | src/utils/localStorage.ts:32-35 | expenses become old ++ [d]; only the `despesas` key changes |
| Store.LocalStore.UpdateDespesa | src/utils/localStorage.ts:37-41 | expenses become ReplaceById(old, d); only the `despesas` key changes |
| Store.LocalStore.DeleteDespesa | src/utils/localStorage.ts:43-47 | expenses become RemoveById(old, id); only the `despesas` key changes |
| Store.LocalStore.SaveInvestimento | src/utils/localStorage.ts:55-58 | investments become old ++ [i]; only the `investimentos` key changes |
| Store.LocalStore.UpdateInvestimento | src/utils/localStorage.ts:60-64 | investments become ReplaceById(old, i); only their key changes |
| Store.LocalStore.DeleteInvestimento | src/utils/localStorage.ts:66-70 | investments become RemoveById(old, id); only their key changes |
| Store.LocalStore.SaveTransacao | src/utils/localStorage.ts:78-81 | transactions become old ++ [t]; only the `transacoes` key changes |
| Store.LocalStore.SaveDivida | src/utils/localStorage.ts:89-92 | debts become old ++ [d]; only the `dividas` key changes |
| Store.LocalStore.UpdateDivida | src/utils/localStorage.ts:94-98 | debts become ReplaceById(old, d); only the `dividas` key changes |
| Store.LocalStore.DeleteDivida | src/utils/localStorage.ts:100-104 | debts become RemoveById(old, id); only the `dividas` key changes |
| Store.LocalStore.SavePagamento | src/utils/localStorage.ts:112-115 | payments become old ++ [p]; only the `pagamentos` key changes |
| Store.LocalStore.SaveSalario | src/utils/localStorage.ts:128-130 | the salary read afterwards is exactly the one saved; only the `salario` key changes |
| Lists.FilterMembers | src/utils/localStorage.ts:117-120 | `filter` keeps exactly the elements satisfying the test, as an order-preserving subsequence |
| Lists.ReplaceByIdAt | src/utils/localStorage.ts:37-41 | update keeps the length; at each position a record with the id becomes the new record and any other record is kept |
| Lists.ReplaceByIdNoMatch | src/utils/localStorage.ts:94-98 | updating an id no record carries leaves the collection unchanged |
| Lists.ReplaceByIdIdempotent | src/utils/localStorage.ts:60-64 | updating twice with the same record equals updating once |
| Lists.ReplaceByIdPreserves | src/utils/localStorage.ts:94-98 | a property of every record and of the replacement holds for every record afterwards |
| Lists.RemoveByIdExact | src/utils/localStorage.ts:43-47 | delete removes exactly the records with that id (each other record keeps its multiplicity) and keeps the rest in order |
| Lists.RemoveByIdIdempotent | src/utils/localStorage.ts:66-70 | deleting the same id twice equals deleting it once |
| Lists.RemoveByIdNoMatch | src/utils/localStorage.ts:100-104 | deleting an id no record carries leaves the collection unchanged |
| Lists.Distinct | src/components/DespesaList.tsx:16 | `[...new Set(xs)]` holds each element of xs and only those, with no repetition |
| Lists.DistinctFirstOccurrenceOrder | src/components/DespesaList.tsx:16 | the distinct elements come in order of first occurrence |
| DespesaList.OpcoesDeCategoria | src/components/DespesaList.tsx:16 | the category options are the categories that occur, each once |
| DespesaList.OpcoesEmOrdemDeOcorrencia | src/components/DespesaList.tsx:16 | the options are ordered by the first occurrence of their category |
| DespesaList.Filtradas | src/components/DespesaList.tsx:18-45 | the filtered list is always an order-preserving subsequence of the input |
| DespesaList.SemFiltros | src/components/DespesaList.tsx:19-21 | with neither filter set, the filtered list is the input |
| DespesaList.SoCategoria | src/components/DespesaList.tsx:19 | the category filter alone keeps exactly the expenses of that category, in order |
| DespesaList.HojeEhMesmoDia | src/components/DespesaList.tsx:27-31 | "hoje" shows an expense iff it matches the category and its date is today's day, month and year |
| DespesaList.HojeMesAno | src/components/DespesaList.tsx:27-41 | today's expenses are among this month's, and this month's among this year's |
| DespesaList.SemanaSemLimiteSuperior | src/components/DespesaList.tsx:32-35 | "semana" has only a lower bound: an expense dated after today is still shown |
| DespesaList.SemanaDesdeUmaSemanaAtras | src/components/DespesaList.tsx:32-35 | "semana" shows an expense iff it matches the category and its date is no earlier than seven days back |
| DespesaList.MesEhMesmoMes | src/components/DespesaList.tsx:36-39 | "mes" shows an expense iff it matches the category and its date is in today's month and year |
| DespesaList.AnoEhMesmoAno | src/components/DespesaList.tsx:40-41 | "ano" shows an expense iff it matches the category and its date is in today's year |
| DespesaList.PeriodoDesconhecido | src/components/DespesaList.tsx:42-43 | an unrecognised period gives the same list as the category test alone |
| DespesaList.PeriodoRestringe | src/components/DespesaList.tsx:18-45 | a period only narrows what the category filter shows |
| DespesaList.TotalFiltrado | src/components/DespesaList.tsx:54 | the shown total plus the hidden total is the list total; with non-negative amounts the shown total is at most the list total |
| DespesaList.TotalDespesasAppend | src/pages/Dashboard.tsx:23 | the total of no expenses is 0; appending one adds its amount |
| DespesaList.HandleDelete | src/components/DespesaList.tsx:47-52 | unconfirmed: nothing changes; confirmed: the expenses become RemoveById(old, id) and nothing else changes |
| DespesaForm.Component.constructor | src/components/DespesaForm.tsx:12-18 | the form opens with every text field empty, no error and the new-category input closed and empty |
| DespesaForm.Component.HandleSubmit | src/components/DespesaForm.tsx:22-55 | rejection leaves the store and the fields unchanged and records the reason; success appends exactly one expense built from the fields and the positive parsed amount, and clears the fields |
| DespesaForm.Component.HandleAddCategory | src/components/DespesaForm.tsx:57-73 | a blank trimmed name or one already listed is rejected with nothing saved; otherwise the trimmed name is appended to the categories and selected, and the new-category input is closed |
| PagamentoForm.CheckPagamento | src/components/PagamentoForm.tsx:17-37 | accepted iff amount and date are non-empty and 0 < amount ≤ balance (equal is accepted); the over-balance error is reported exactly when the shared checks pass and amount > balance |
| PagamentoForm.Pagar | src/components/PagamentoForm.tsx:50-53 | the paid debt differs from the snapshot only in valorPago, which grows by the amount |
| PagamentoForm.PagamentoMantemConsistencia | src/components/PagamentoForm.tsx:17-52 | an accepted payment keeps 0 ≤ valorPago ≤ valorTotal and lowers the balance by exactly the amount |
| PagamentoForm.PagamentoMantemTodasConsistentes | src/components/PagamentoForm.tsx:50-55 | replacing the debt by its paid version keeps every stored debt consistent |
| PagamentoForm.PagamentoNoLimite | src/components/PagamentoForm.tsx:34-37 | on a 5000 debt, 5000.01 is refused and exactly 5000 is accepted and clears the balance |
| PagamentoForm.Component.constructor | src/components/PagamentoForm.tsx:13-15 | the form opens on the given debt, with an empty amount and today's date (the date half of the current ISO timestamp) |
| PagamentoForm.Component.HandleSubmit | src/components/PagamentoForm.tsx:19-58 | rejection stores nothing; success appends one payment naming the debt's id, then replaces that debt by its paid version; consistency of all debts is kept |
| InvestimentoForm.Component.constructor | src/components/InvestimentoForm.tsx:11-14 | the form opens with description, amount and date empty and no error |
| InvestimentoForm.Component.HandleSubmit | src/components/InvestimentoForm.tsx:16-59 | rejection changes neither collection; success appends the investment with yield 0.1 × amount, then exactly one deposit of the same amount and date titled "Investimento inicial: " + description, under its own id; yield = 10% of the amount holds for all investments afterwards if it held before |
| InvestimentoList.RendimentoTotal | src/components/InvestimentoList.tsx:20-21 | when every yield is 10% of its amount, the total yield is 10% of the total invested |
| InvestimentoList.HandleDelete | src/components/InvestimentoList.tsx:13-18 | confirmed: only the investment goes, and the transactions, the paired deposit included, are unchanged |
| DividaForm.NovaDividaSaldo | src/components/DividaForm.tsx:31-38 | a new debt has nothing paid, is consistent, and its balance equals its positive total |
| DividaForm.Component.constructor | src/components/DividaForm.tsx:11-14 | the form opens with description, total and due date empty and no error |
| DividaForm.Component.HandleSubmit | src/components/DividaForm.tsx:16-49 | exactly one debt (valorPago 0, created on today's date, due on the given date) is appended on success, none on rejection |
| DividaList.SaldoEhSomaDasLinhas | src/components/DividaList.tsx:21-23 | the row balances valorTotal − valorPago add up to totalDividas − totalPago |
| DividaList.SaldoDevedorLimitado | src/components/DividaList.tsx:21-23 | when every debt is consistent, 0 ≤ saldoDevedor ≤ totalDividas |
| DividaList.HandleDelete | src/components/DividaList.tsx:14-19 | confirmed: only the debt goes, and its payments stay in `pagamentos` |
| TransacaoForm.Component.constructor | src/components/TransacaoForm.tsx:11-15 | the kind starts as deposito and every text field is empty |
| TransacaoForm.Component.HandleSubmit | src/components/TransacaoForm.tsx:17-50 | rejection stores nothing and keeps the fields; success appends exactly one transaction of the selected kind with the parsed amount and resets the kind to deposito |
| TransacaoList.DepositosMaisSaques | src/components/TransacaoList.tsx:11-17 | deposits plus withdrawals equal the sum of all amounts, as the kind has two values |
| TransacaoList.SaldoEhSomaComSinal | src/components/TransacaoList.tsx:11-19 | saldo is the signed sum of the transactions |
| TransacaoList.SaldoPodeSerNegativo | src/components/TransacaoList.tsx:19 | saldo is not clamped: a single withdrawal makes it negative |
| Dashboard.ResumoDe | src/pages/Dashboard.tsx:23-29 | each card is the plain sum of its field; saldoDevedor = totalDividas − totalPago and saldoDisponivel = salario − totalDespesas, unclamped |
| Dashboard.SaldoDisponivelAposDespesa | src/pages/Dashboard.tsx:29 | with no expenses the available balance is the salary; each expense lowers it by its amount |
| Dashboard.SaldoDisponivelExemplo | src/pages/Dashboard.tsx:29 | 5000 against 1200.50 + 300 leaves 3499.50; a smaller salary goes negative |
| Dashboard.SomaDaCategoriaAcrescentada | src/pages/Dashboard.tsx:33-39 | a category's sum grows by an appended expense's amount only when it is of that category |
| Dashboard.AgruparPorCategoria | src/pages/Dashboard.tsx:32-39 | the loop's keys are the distinct categories in first-occurrence order, each value is its category's sum, and the entries equal PorCategoria |
| Dashboard.PorCategoriaParticiona | src/pages/Dashboard.tsx:32-39 | the group sums add up to totalDespesas |
| Dashboard.PorCategoriaCategorias | src/pages/Dashboard.tsx:32-42 | the groups are the distinct categories in order, each with the sum of its own expenses |
| Dashboard.OrdenarOrdenaEPermuta | src/pages/Dashboard.tsx:43 | the sort returns a permutation of its input in non-increasing order of total |
| Dashboard.OrdenarEstavel | src/pages/Dashboard.tsx:43 | entries with equal totals keep their input order (stable sort) |
| Dashboard.OrdenarSemRepeticao | src/pages/Dashboard.tsx:43 | sorting distinct entries gives distinct entries |
| Dashboard.Top5Maiores | src/pages/Dashboard.tsx:42-44 | min(5, n) entries, non-increasing, taken from the input; no entry left out is larger than one shown |
| Dashboard.Top5DoDashboard | src/pages/Dashboard.tsx:32-44 | the ranked categories are distinct, each with its full sum |
| Dashboard.CheckSalario | src/pages/Dashboard.tsx:50-58 | accepted iff the text parses to a number ≥ 0 (0 accepted); NaN and negative are told apart |
| Dashboard.Component.constructor | src/pages/Dashboard.tsx:8-21 | the page starts from the stored lists and salary, with the editor closed and no error |
| Dashboard.Component.AlternarEdicao | src/pages/Dashboard.tsx:79-83 | the editor flips, the error clears, and the text is pre-filled with the salary only when it is positive |
| Dashboard.Component.HandleSalarioSubmit | src/pages/Dashboard.tsx:46-65 | rejection saves nothing and keeps the salary; acceptance stores exactly the parsed value (never negative), shows it and closes the editor |

## Left out

- JSON encoding: the store holds decoded values. `getItem` returning a stored empty string
  (falsy, so the default would be used) cannot arise here.
- Exact `parseFloat` semantics, such as a numeric prefix like "12abc": the parser is a
  parameter. Only the comma-to-dot step before it is modelled.
- Floating-point rounding: amounts are `real`, so sums are exact. `toFixed`, `formatCurrency`
  and `formatDate` are presentation and are not modelled.
- `generateId`: ids are parameters. The model does not assume they are unique, because the
  source does not show that they are.
- Dates. `new Date(...)` parsing, timezones and the time of day are not modelled.
  - The expense list reads a record's date through the parameter `dateOf`.
  - It reads "today" and "seven days ago" from the parameter `Agora`.
  - `DespesaList.Mantem`: the week filter compares calendar dates. The source compares instants,
    time of day included.
  - The creation date of a debt and the initial payment date come from an ISO timestamp
    parameter (`nowIso`).
- `window.confirm` is the boolean parameter `confirmed` of each `HandleDelete`.
- Storage quota and unavailability errors, and several tabs overwriting each other's writes:
  these are environment and concurrency, not data logic.
- Key ordering of `Object.entries` for category names that look like integers: the model uses
  insertion order for every key. JavaScript lists integer-like keys first, in numeric order.
- Dashboard.AgruparPorCategoria: category names inherited from `Object.prototype` are not
  modelled. The source groups into a plain `{}` (`src/pages/Dashboard.tsx:32`), so a name such
  as "constructor" reads the inherited function and produces a string value, and "__proto__"
  never becomes an entry. The model gives every category a numeric entry.
- `DespesaForm.Component.HandleAddCategory` looks the name up in the store at call time. The
  source looks it up in the `getCategories()` list read at render time. With one tab and no
  other writer between render and click, these are the same list.
- The number-to-text conversion in the salary editor (`salario.valor.toString()`) is the
  parameter `paraTexto`.
- The `onSave`, `onDelete` and `onPagamento` callbacks and the page reloads they trigger are
  not modelled. Neither are the JSX, the styling or the category percentage bars.
- App.tsx, Login.tsx, Despesas.tsx, Investimentos.tsx, Dividas.tsx and PagamentoList.tsx are not
  part of this model.
- PagamentoForm.Component.HandleSubmit and InvestimentoForm.Component.HandleSubmit: each makes
  two writes to two different keys. The final state, which the contracts give, does not show
  which write came first. A failure between the two writes, which the source does not roll
  back, is not modelled.
- The error messages' wording: errors are the constructors of `Validation.FormError`.
