/**
  The debt form: on success it appends a debt that owes its whole total
  (nothing paid yet), created today, due on the date given.
*/
module DividaForm {
  import opened Wrappers
  import opened Types
  import opened Text
  import opened Validation
  import opened Store

  /** The debt the form builds; `nowIso` is the current instant as an ISO 8601 timestamp. */
  function NovaDivida(id: string, descricao: string, valor: real, nowIso: string, dataVencimento: string): Divida
  {
    Divida(id, descricao, valor, 0.0, DatePart(nowIso), dataVencimento)
  }

  /** A new debt of a positive total is consistent and its balance is its total. */
  lemma NovaDividaSaldo(id: string, descricao: string, valor: real, nowIso: string, dataVencimento: string)
    requires valor > 0.0
    ensures NovaDivida(id, descricao, valor, nowIso, dataVencimento).Consistente()
    ensures NovaDivida(id, descricao, valor, nowIso, dataVencimento).SaldoDevedor() == valor
    ensures NovaDivida(id, descricao, valor, nowIso, dataVencimento).SaldoDevedor() > 0.0
  {
  }

  class Component {
    var descricao: string
    var valorTotal: string
    var dataVencimento: string
    var error: Option<FormError>

    constructor ()
      ensures descricao == "" && valorTotal == "" && dataVencimento == "" && error == None
    {
      descricao, valorTotal, dataVencimento, error := "", "", "", None;
    }

    function Submission(parseFloat: string -> Option<real>): Result<real, FormError>
      reads this
    {
      CheckSubmission([descricao, valorTotal, dataVencimento], ParseAmount(valorTotal, parseFloat))
    }

    /**
      `handleSubmit`. Exactly one debt is appended on success, none on rejection.
      Its creation date is the date half of `nowIso`.
    */
    method HandleSubmit(store: LocalStore, parseFloat: string -> Option<real>, newId: string, nowIso: string)
      requires store.Valid()
      modifies this, store
      ensures store.Valid()
      ensures old(Submission(parseFloat)).Err? ==>
        && store.items == old(store.items)
        && error == Some(old(Submission(parseFloat)).error)
        && descricao == old(descricao) && valorTotal == old(valorTotal) && dataVencimento == old(dataVencimento)
      ensures old(Submission(parseFloat)).Ok? ==>
        var nova := NovaDivida(newId, old(descricao), old(Submission(parseFloat)).value, nowIso, old(dataVencimento));
        && nova.valorPago == 0.0 && nova.SaldoDevedor() == nova.valorTotal > 0.0
        && GetDividas(store.items) == old(GetDividas(store.items)) + [nova]
        && store.items == old(store.items)[DividasKey := StoredDividas(GetDividas(store.items))]
        && descricao == "" && valorTotal == "" && dataVencimento == "" && error == None
    {
      if descricao == "" || valorTotal == "" || dataVencimento == "" {
        ghost var fields := [descricao, valorTotal, dataVencimento];
        assert fields[0] == "" || fields[1] == "" || fields[2] == "";
        error := Some(CamposObrigatorios);
        return;
      }
      var valorNumerico := ParseAmount(valorTotal, parseFloat);
      if valorNumerico.None? || valorNumerico.value <= 0.0 {
        error := Some(ValorInvalido);
        return;
      }
      var novaDivida := Divida(newId, descricao, valorNumerico.value, 0.0, DatePart(nowIso), dataVencimento);
      store.SaveDivida(novaDivida);
      descricao, valorTotal, dataVencimento, error := "", "", "", None;
    }
  }
}
