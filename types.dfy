/**
  The records of the finance tracker. Every stored record carries a string `id`,
  which the store uses to find it; amounts are reals (the application's numbers
  are treated as exact).
*/
module Types {

  /** An expense. */
  datatype Despesa = Despesa(id: string, descricao: string, valor: real, categoria: string, data: string)

  /** An investment with its fixed monthly yield. */
  datatype Investimento = Investimento(id: string, descricao: string, valor: real, data: string, rendimento: real)

  /** The kind of a transaction: a closed two-value enumeration. */
  datatype TipoTransacao = Deposito | Saque

  /** A deposit or withdrawal. */
  datatype Transacao = Transacao(id: string, tipo: TipoTransacao, valor: real, data: string, descricao: string)

  /**
    A debt stores its total and what has been paid; the outstanding balance is
    derived, never stored.
  */
  datatype Divida = Divida(id: string, descricao: string, valorTotal: real, valorPago: real,
                           dataCriacao: string, dataVencimento: string)
  {
    /** Outstanding balance `valorTotal - valorPago`. */
    function SaldoDevedor(): real
    {
      valorTotal - valorPago
    }

    /** `0 <= valorPago <= valorTotal`, the relation the payment form keeps. */
    predicate Consistente()
    {
      0.0 <= valorPago <= valorTotal
    }
  }

  /** A payment refers to its debt only through the `dividaId` string. */
  datatype Pagamento = Pagamento(id: string, dividaId: string, valor: real, data: string)

  /** The salary: a single value object. */
  datatype Salario = Salario(valor: real)

  function DespesaId(d: Despesa): string { d.id }
  function InvestimentoId(i: Investimento): string { i.id }
  function DividaId(d: Divida): string { d.id }
}
