/**
  The investment form: on success it appends the investment, with a yield of
  10% of the amount, and then a paired deposit transaction of the same amount
  and date. The two appends are independent writes; nothing links the two
  records afterwards.
*/
module InvestimentoForm {
  import opened Wrappers
  import opened Types
  import opened Validation
  import opened Store

  /** The monthly yield rate fixed at creation. */
  const TaxaRendimento: real := 0.1

  /** Prefix of the description of the paired deposit. */
  const PrefixoDeposito: string := "Investimento inicial: "

  /** Every investment carries the yield the form gives it. */
  predicate RendimentoPadrao(investimentos: seq<Investimento>)
  {
    forall i :: 0 <= i < |investimentos| ==> investimentos[i].rendimento == TaxaRendimento * investimentos[i].valor
  }

  class Component {
    var descricao: string
    var valor: string
    var data: string
    var error: Option<FormError>

    constructor ()
      ensures descricao == "" && valor == "" && data == "" && error == None
    {
      descricao, valor, data, error := "", "", "", None;
    }

    function Submission(parseFloat: string -> Option<real>): Result<real, FormError>
      reads this
    {
      CheckSubmission([descricao, valor, data], ParseAmount(valor, parseFloat))
    }

    /**
      `handleSubmit`. On rejection neither collection changes. On success one
      investment and then one deposit transaction are appended, under separately
      generated ids, and the fields are cleared.
    */
    method HandleSubmit(store: LocalStore, parseFloat: string -> Option<real>,
                        investimentoId: string, transacaoId: string)
      requires store.Valid()
      modifies this, store
      ensures store.Valid()
      ensures old(Submission(parseFloat)).Err? ==>
        && store.items == old(store.items)
        && error == Some(old(Submission(parseFloat)).error)
        && descricao == old(descricao) && valor == old(valor) && data == old(data)
      ensures old(Submission(parseFloat)).Ok? ==>
        var v := old(Submission(parseFloat)).value;
        var investimento := Investimento(investimentoId, old(descricao), v, old(data), v * TaxaRendimento);
        var deposito := Transacao(transacaoId, Deposito, v, old(data), PrefixoDeposito + old(descricao));
        && v > 0.0
        && GetInvestimentos(store.items) == old(GetInvestimentos(store.items)) + [investimento]
        && GetTransacoes(store.items) == old(GetTransacoes(store.items)) + [deposito]
        && store.items == old(store.items)
             [InvestimentosKey := StoredInvestimentos(GetInvestimentos(store.items))]
             [TransacoesKey := StoredTransacoes(GetTransacoes(store.items))]
        && descricao == "" && valor == "" && data == "" && error == None
      ensures RendimentoPadrao(old(GetInvestimentos(store.items))) ==> RendimentoPadrao(GetInvestimentos(store.items))
    {
      if descricao == "" || valor == "" || data == "" {
        ghost var fields := [descricao, valor, data];
        assert fields[0] == "" || fields[1] == "" || fields[2] == "";
        error := Some(CamposObrigatorios);
        return;
      }
      var valorNumerico := ParseAmount(valor, parseFloat);
      if valorNumerico.None? || valorNumerico.value <= 0.0 {
        error := Some(ValorInvalido);
        return;
      }
      var novoInvestimento := Investimento(investimentoId, descricao, valorNumerico.value, data,
                                           valorNumerico.value * TaxaRendimento);
      store.SaveInvestimento(novoInvestimento);
      var transacao := Transacao(transacaoId, Deposito, valorNumerico.value, data, PrefixoDeposito + descricao);
      store.SaveTransacao(transacao);
      descricao, valor, data, error := "", "", "", None;
    }
  }
}
