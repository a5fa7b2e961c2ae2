/**
  The expense form: its state fields, the submit handler (checks, then one
  append to `despesas`, then the fields are cleared) and the handler that adds
  a new category (trimmed, rejected when blank or already listed).
*/
module DespesaForm {
  import opened Wrappers
  import opened Types
  import opened Text
  import opened Validation
  import opened Store

  class Component {
    var descricao: string
    var valor: string
    var categoria: string
    var data: string
    var error: Option<FormError>
    var showNewCategory: bool
    var newCategory: string

    constructor ()
      ensures descricao == "" && valor == "" && categoria == "" && data == "" && error == None
      ensures !showNewCategory && newCategory == ""
    {
      descricao, valor, categoria, data, error := "", "", "", "", None;
      showNewCategory, newCategory := false, "";
    }

    /** What the checks decide for the fields as they are now. */
    function Submission(parseFloat: string -> Option<real>): Result<real, FormError>
      reads this
    {
      CheckSubmission([descricao, valor, categoria, data], ParseAmount(valor, parseFloat))
    }

    /**
      `handleSubmit`. On rejection the store and the typed fields stay as they
      were and the reason is shown; on success exactly one expense, built from
      the fields and the parsed amount, is appended and the fields are cleared.
    */
    method HandleSubmit(store: LocalStore, parseFloat: string -> Option<real>, newId: string)
      requires store.Valid()
      modifies this, store
      ensures store.Valid()
      ensures old(Submission(parseFloat)).Err? ==>
        && store.items == old(store.items)
        && error == Some(old(Submission(parseFloat)).error)
        && descricao == old(descricao) && valor == old(valor) && categoria == old(categoria) && data == old(data)
        && showNewCategory == old(showNewCategory) && newCategory == old(newCategory)
      ensures old(Submission(parseFloat)).Ok? ==>
        var nova := Despesa(newId, old(descricao), old(Submission(parseFloat)).value, old(categoria), old(data));
        && nova.valor > 0.0
        && GetDespesas(store.items) == old(GetDespesas(store.items)) + [nova]
        && store.items == old(store.items)[DespesasKey := StoredDespesas(GetDespesas(store.items))]
        && descricao == "" && valor == "" && categoria == "" && data == "" && error == None
        && showNewCategory == old(showNewCategory) && newCategory == old(newCategory)
    {
      if descricao == "" || valor == "" || categoria == "" || data == "" {
        ghost var fields := [descricao, valor, categoria, data];
        assert fields[0] == "" || fields[1] == "" || fields[2] == "" || fields[3] == "";
        error := Some(CamposObrigatorios);
        return;
      }
      var valorNumerico := ParseAmount(valor, parseFloat);
      if valorNumerico.None? || valorNumerico.value <= 0.0 {
        error := Some(ValorInvalido);
        return;
      }
      var novaDespesa := Despesa(newId, descricao, valorNumerico.value, categoria, data);
      store.SaveDespesa(novaDespesa);
      descricao, valor, categoria, data, error := "", "", "", "", None;
    }

    /**
      `handleAddCategory`. A name that is blank after trimming, or whose trimmed
      form is already listed, is rejected and nothing is saved; otherwise the
      trimmed name is appended to the categories and selected.
    */
    method HandleAddCategory(store: LocalStore)
      requires store.Valid()
      modifies this, store
      ensures store.Valid()
      ensures descricao == old(descricao) && valor == old(valor) && data == old(data)
      ensures var name := Trim(old(newCategory));
        name == "" ==>
          && store.items == old(store.items) && error == Some(CategoriaObrigatoria)
          && categoria == old(categoria) && newCategory == old(newCategory)
          && showNewCategory == old(showNewCategory)
      ensures var name := Trim(old(newCategory));
        name != "" && name in old(GetCategories(store.items)) ==>
          && store.items == old(store.items) && error == Some(CategoriaExistente)
          && categoria == old(categoria) && newCategory == old(newCategory)
          && showNewCategory == old(showNewCategory)
      ensures var name := Trim(old(newCategory));
        name != "" && name !in old(GetCategories(store.items)) ==>
          && GetCategories(store.items) == old(GetCategories(store.items)) + [name]
          && store.items == old(store.items)[CategoriesKey := StoredCategories(GetCategories(store.items))]
          && categoria == name && newCategory == "" && !showNewCategory && error == None
    {
      var nome := Trim(newCategory);
      if nome == "" {
        error := Some(CategoriaObrigatoria);
        return;
      }
      var categorias := GetCategories(store.items);
      if nome in categorias {
        error := Some(CategoriaExistente);
        return;
      }
      store.SaveCategory(nome);
      categoria := nome;
      newCategory, showNewCategory, error := "", false, None;
    }
  }
}
