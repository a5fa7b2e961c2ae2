/**
  The checks every form handler runs before it builds a record: all required
  text fields non-empty, then the amount text, with its first comma turned into a
  dot, parsed and tested for "is a number" and "> 0". The number parser itself
  (`parseFloat`) is a parameter: `None` stands for NaN.
*/
module Validation {
  import opened Wrappers
  import opened Text

  /** Why a submission was turned down; the message text shown to the user is not modelled. */
  datatype FormError =
    | CamposObrigatorios             // a required field is empty
    | ValorInvalido                  // the amount is not a number or not positive
    | ValorAcimaDoSaldo(saldo: real) // a payment larger than the debt's balance
    | SalarioInvalido                // the salary is not a number
    | SalarioNegativo                // the salary is negative
    | CategoriaObrigatoria           // the new category name is blank
    | CategoriaExistente             // the new category name is already listed

  /** `parseFloat(text.replace(',', '.'))`. */
  function ParseAmount(text: string, parseFloat: string -> Option<real>): Option<real>
  {
    parseFloat(ReplaceFirstComma(text))
  }

  /** Every required field is a non-empty string (no trimming: "  " passes). */
  predicate AllFilled(fields: seq<string>)
  {
    forall i :: 0 <= i < |fields| ==> fields[i] != ""
  }

  /**
    The two checks shared by the expense, investment, debt, transaction and
    payment forms, in the order they run.
  */
  function CheckSubmission(fields: seq<string>, amount: Option<real>): (r: Result<real, FormError>)
    ensures r.Ok? <==> AllFilled(fields) && amount.Some? && amount.value > 0.0
    ensures r.Ok? ==> r.value == amount.value
    ensures r.Err? ==> r.error == (if AllFilled(fields) then ValorInvalido else CamposObrigatorios)
  {
    if exists i :: 0 <= i < |fields| && fields[i] == "" then Err(CamposObrigatorios)
    else if amount.None? || amount.value <= 0.0 then Err(ValorInvalido)
    else Ok(amount.value)
  }

  /** A whitespace-only field is accepted by the required-field check. */
  lemma BlankFieldsPass(fields: seq<string>, amount: real)
    requires forall i :: 0 <= i < |fields| ==> fields[i] != [] && IsBlank(fields[i])
    requires amount > 0.0
    ensures CheckSubmission(fields, Some(amount)) == Ok(amount)
  {
  }
}
