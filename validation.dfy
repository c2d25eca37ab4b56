/**
 * `validate_transaction_data` of backend/utils/validation.py: the same checks as
 * `DataValidator.validate_transaction_data`, raising an HTTP 400 instead of returning a pair,
 * and without the final check against `sanitize_input`.
 */
module Validation {
  import opened Wrappers
  import opened Text
  import opened PyValues
  import opened Security

  const BAD_REQUEST: int := 400

  /** True, or the exception raised: an HTTP 400 with the check's message, or AttributeError. */
  function ValidateTransactionData(data: map<string, Value>): (r: Result<bool, Exception>)
    ensures r.Ok? ==> r.value
    ensures r.Ok? <==> FieldsPass(data) && data["descricao"].Str? && !IsBlank(data["descricao"].s)
    ensures FirstMissing(data, REQUIRED_FIELDS).Some? ==>
      r == Err(HttpException(BAD_REQUEST, MissingFieldMessage(FirstMissing(data, REQUIRED_FIELDS).value)))
    ensures r == Err(HttpException(BAD_REQUEST, INVALID_VALUE)) <==> HasRequiredFields(data) && BadValue(data["valor"])
    ensures r == Err(HttpException(BAD_REQUEST, INVALID_TYPE)) <==>
      HasRequiredFields(data) && !BadValue(data["valor"]) && BadType(data["tipo"])
    ensures r == Err(HttpException(BAD_REQUEST, EMPTY_DESCRIPTION)) <==> FieldsPass(data) && EmptyDescription(data["descricao"])
    ensures r == Err(AttributeError) <==> FieldsPass(data) && Truthy(data["descricao"]) && !data["descricao"].Str?
    ensures r.Err? ==> r.error == AttributeError || (r.error.HttpException? && r.error.statusCode == BAD_REQUEST)
  {
    RequiredFieldsPresent(data);
    var missing := FirstMissing(data, REQUIRED_FIELDS);
    MissingFieldMessageDistinct(if missing.Some? then missing.value else "");
    if missing.Some? then Err(HttpException(BAD_REQUEST, MissingFieldMessage(missing.value)))
    else if BadValue(data["valor"]) then Err(HttpException(BAD_REQUEST, INVALID_VALUE))
    else if BadType(data["tipo"]) then Err(HttpException(BAD_REQUEST, INVALID_TYPE))
    else
      var descricao := data["descricao"];
      if !Truthy(descricao) then Err(HttpException(BAD_REQUEST, EMPTY_DESCRIPTION))
      else if !descricao.Str? then Err(AttributeError)
      else if IsBlank(descricao.s) then Err(HttpException(BAD_REQUEST, EMPTY_DESCRIPTION))
      else Ok(true)
  }

  /**
   * The two validators agree: a rejection here is the same message there, an AttributeError
   * is raised by both, and an acceptance here is an acceptance there unless the description
   * holds a character `sanitize_input` escapes.
   */
  lemma ValidatorsAgree(data: map<string, Value>)
    ensures ValidateTransactionData(data).Err? && ValidateTransactionData(data).error.HttpException? ==>
      Security.ValidateTransactionData(data) == Ok(Verdict(false, ValidateTransactionData(data).error.detail))
    ensures ValidateTransactionData(data) == Err(AttributeError) <==> Security.ValidateTransactionData(data) == Err(AttributeError)
    ensures ValidateTransactionData(data).Ok? ==>
      (if NoSpecials(data["descricao"].s) then Security.ValidateTransactionData(data) == Ok(Verdict(true, VALIDATION_OK))
       else Security.ValidateTransactionData(data) == Ok(Verdict(false, UNSAFE_DESCRIPTION)))
    ensures Security.ValidateTransactionData(data).Ok? && Security.ValidateTransactionData(data).value.ok ==>
      ValidateTransactionData(data) == Ok(true)
  {
    RequiredFieldsPresent(data);
    var here, there := ValidateTransactionData(data), Security.ValidateTransactionData(data);
    if FirstMissing(data, REQUIRED_FIELDS).Some? {
      assert here == Err(HttpException(BAD_REQUEST, MissingFieldMessage(FirstMissing(data, REQUIRED_FIELDS).value)));
    } else if BadValue(data["valor"]) {
      assert here == Err(HttpException(BAD_REQUEST, INVALID_VALUE));
      assert there == Ok(Verdict(false, INVALID_VALUE));
    } else if BadType(data["tipo"]) {
      assert here == Err(HttpException(BAD_REQUEST, INVALID_TYPE));
      assert there == Ok(Verdict(false, INVALID_TYPE));
    } else {
      var descricao := data["descricao"];
      if descricao.Str? {
        SanitizeFixedPoints(descricao.s);
      }
    }
  }
}
