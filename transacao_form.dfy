/**
  The transaction form: the kind starts as a deposit, the record built from the
  fields is appended on success, and the kind goes back to deposit.
*/
module TransacaoForm {
  import opened Wrappers
  import opened Types
  import opened Validation
  import opened Store

  class Component {
    var tipo: TipoTransacao
    var valor: string
    var descricao: string
    var data: string
    var error: Option<FormError>

    constructor ()
      ensures tipo == Deposito && valor == "" && descricao == "" && data == "" && error == None
    {
      tipo, valor, descricao, data, error := Deposito, "", "", "", None;
    }

    function Submission(parseFloat: string -> Option<real>): Result<real, FormError>
      reads this
    {
      CheckSubmission([valor, descricao, data], ParseAmount(valor, parseFloat))
    }

    /**
      `handleSubmit`. On success exactly one transaction of the selected kind is
      appended and the form returns to its initial state; on rejection nothing
      is stored and the fields, kind included, are kept.
    */
    method HandleSubmit(store: LocalStore, parseFloat: string -> Option<real>, newId: string)
      requires store.Valid()
      modifies this, store
      ensures store.Valid()
      ensures old(Submission(parseFloat)).Err? ==>
        && store.items == old(store.items)
        && error == Some(old(Submission(parseFloat)).error)
        && tipo == old(tipo) && valor == old(valor) && descricao == old(descricao) && data == old(data)
      ensures old(Submission(parseFloat)).Ok? ==>
        var nova := Transacao(newId, old(tipo), old(Submission(parseFloat)).value, old(data), old(descricao));
        && nova.valor > 0.0
        && GetTransacoes(store.items) == old(GetTransacoes(store.items)) + [nova]
        && store.items == old(store.items)[TransacoesKey := StoredTransacoes(GetTransacoes(store.items))]
        && tipo == Deposito && valor == "" && descricao == "" && data == "" && error == None
    {
      if valor == "" || descricao == "" || data == "" {
        ghost var fields := [valor, descricao, data];
        assert fields[0] == "" || fields[1] == "" || fields[2] == "";
        error := Some(CamposObrigatorios);
        return;
      }
      var valorNumerico := ParseAmount(valor, parseFloat);
      if valorNumerico.None? || valorNumerico.value <= 0.0 {
        error := Some(ValorInvalido);
        return;
      }
      var novaTransacao := Transacao(newId, tipo, valorNumerico.value, data, descricao);
      store.SaveTransacao(novaTransacao);
      tipo, valor, descricao, data, error := Deposito, "", "", "", None;
    }
  }
}
