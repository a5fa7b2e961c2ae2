/**
  The payment form for one debt. The debt is the snapshot the page passed in;
  the balance it shows and checks against is computed from that snapshot. On
  success the payment is appended, and then every stored debt with the
  snapshot's id is replaced by the snapshot with the amount added to what was
  paid.
*/
module PagamentoForm {
  import opened Wrappers
  import opened Lists
  import opened Types
  import opened Text
  import opened Validation
  import opened Store

  /** The checks of the payment form: the shared ones, then "not above the balance". */
  function CheckPagamento(saldo: real, valor: string, data: string, amount: Option<real>): (r: Result<real, FormError>)
    ensures r.Ok? <==> valor != "" && data != "" && amount.Some? && 0.0 < amount.value <= saldo
    ensures r.Ok? ==> r.value == amount.value
    ensures r == Err(ValorAcimaDoSaldo(saldo)) <==> CheckSubmission([valor, data], amount).Ok? && amount.value > saldo
    ensures r.Err? && r.error != ValorAcimaDoSaldo(saldo) ==> r == CheckSubmission([valor, data], amount)
  {
    var fields := [valor, data];
    assert AllFilled(fields) <==> valor != "" && data != "" by {
      assert fields[0] == valor && fields[1] == data;
    }
    match CheckSubmission(fields, amount)
    case Err(e) => Err(e)
    case Ok(v) => if v > saldo then Err(ValorAcimaDoSaldo(saldo)) else Ok(v)
  }

  /** The debt after a payment of `valor`: only what was paid changes. */
  function Pagar(divida: Divida, valor: real): (r: Divida)
    ensures r.valorPago == divida.valorPago + valor
    ensures r.(valorPago := divida.valorPago) == divida
  {
    divida.(valorPago := divida.valorPago + valor)
  }

  function EstaConsistente(d: Divida): bool
  {
    d.Consistente()
  }

  predicate TodasConsistentes(dividas: seq<Divida>)
  {
    forall d :: d in dividas ==> d.Consistente()
  }

  /**
    An accepted payment keeps `0 <= valorPago <= valorTotal` and lowers the
    balance by exactly the amount, so the balance never rises.
  */
  lemma PagamentoMantemConsistencia(divida: Divida, valor: string, data: string, amount: Option<real>)
    requires divida.Consistente()
    requires CheckPagamento(divida.SaldoDevedor(), valor, data, amount).Ok?
    ensures var v := CheckPagamento(divida.SaldoDevedor(), valor, data, amount).value;
      && Pagar(divida, v).Consistente()
      && Pagar(divida, v).SaldoDevedor() == divida.SaldoDevedor() - v
      && Pagar(divida, v).SaldoDevedor() < divida.SaldoDevedor()
  {
  }

  /** Replacing a debt by its paid version keeps every stored debt consistent. */
  lemma PagamentoMantemTodasConsistentes(dividas: seq<Divida>, divida: Divida, v: real)
    requires TodasConsistentes(dividas)
    requires divida.Consistente() && 0.0 < v <= divida.SaldoDevedor()
    ensures TodasConsistentes(ReplaceById(dividas, DividaId, Pagar(divida, v)))
  {
    ReplaceByIdPreserves(dividas, DividaId, Pagar(divida, v), EstaConsistente);
  }

  /** A debt of 5000.00 with nothing paid: 5000.01 is refused, 5000.00 is accepted and clears it. */
  lemma PagamentoNoLimite(d: Divida)
    requires d.valorTotal == 5000.0 && d.valorPago == 0.0
    ensures CheckPagamento(d.SaldoDevedor(), "5000,01", "2024-01-10", Some(5000.01)) == Err(ValorAcimaDoSaldo(5000.0))
    ensures CheckPagamento(d.SaldoDevedor(), "5000,00", "2024-01-10", Some(5000.0)) == Ok(5000.0)
    ensures Pagar(d, 5000.0).SaldoDevedor() == 0.0
  {
  }

  class Component {
    const divida: Divida
    var valor: string
    var data: string
    var error: Option<FormError>

    /** The form opens with an empty amount and today's date. */
    constructor (divida: Divida, nowIso: string)
      ensures this.divida == divida && valor == "" && data == DatePart(nowIso) && error == None
    {
      this.divida := divida;
      valor, data, error := "", DatePart(nowIso), None;
    }

    function Submission(parseFloat: string -> Option<real>): Result<real, FormError>
      reads this
    {
      CheckPagamento(divida.SaldoDevedor(), valor, data, ParseAmount(valor, parseFloat))
    }

    /**
      `handleSubmit`. Nothing is stored on rejection. On success exactly one
      payment referring to the debt is appended, and the debt is replaced by its
      paid version. The fields are not cleared.
    */
    method HandleSubmit(store: LocalStore, parseFloat: string -> Option<real>, newId: string)
      requires store.Valid()
      modifies this, store
      ensures store.Valid()
      ensures valor == old(valor) && data == old(data)
      ensures old(Submission(parseFloat)).Err? ==>
        && store.items == old(store.items)
        && error == Some(old(Submission(parseFloat)).error)
      ensures old(Submission(parseFloat)).Ok? ==>
        var v := old(Submission(parseFloat)).value;
        && 0.0 < v <= divida.SaldoDevedor()
        && GetPagamentos(store.items) == old(GetPagamentos(store.items)) + [Pagamento(newId, divida.id, v, data)]
        && GetDividas(store.items) == ReplaceById(old(GetDividas(store.items)), DividaId, Pagar(divida, v))
        && store.items == old(store.items)
             [PagamentosKey := StoredPagamentos(GetPagamentos(store.items))]
             [DividasKey := StoredDividas(GetDividas(store.items))]
        && error == old(error)
      ensures old(Submission(parseFloat)).Ok? && divida.Consistente() && TodasConsistentes(old(GetDividas(store.items))) ==>
        TodasConsistentes(GetDividas(store.items))
    {
      if valor == "" || data == "" {
        ghost var fields := [valor, data];
        assert fields[0] == "" || fields[1] == "";
        error := Some(CamposObrigatorios);
        return;
      }
      var valorNumerico := ParseAmount(valor, parseFloat);
      if valorNumerico.None? || valorNumerico.value <= 0.0 {
        error := Some(ValorInvalido);
        return;
      }
      var saldoDevedor := divida.SaldoDevedor();
      if valorNumerico.value > saldoDevedor {
        error := Some(ValorAcimaDoSaldo(saldoDevedor));
        return;
      }
      var novoPagamento := Pagamento(newId, divida.id, valorNumerico.value, data);
      store.SavePagamento(novoPagamento);
      ghost var antes := GetDividas(store.items);
      var dividaAtualizada := divida.(valorPago := divida.valorPago + valorNumerico.value);
      store.UpdateDivida(dividaAtualizada);
      if divida.Consistente() && TodasConsistentes(antes) {
        PagamentoMantemTodasConsistentes(antes, divida, valorNumerico.value);
      }
    }
  }
}
