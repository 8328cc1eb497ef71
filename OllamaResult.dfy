/** `OllamaResult`: the raw reply of a generate or chat call and its structured reading. */
module OllamaResults {
  import opened Wrappers
  import opened Exceptions
  import opened Json
  import JavaStrings

  /** A Java `int`. */
  newtype int32 = x: int | -0x8000_0000 <= x < 0x8000_0000

  /** A Java `long`. */
  newtype int64 = x: int | -0x8000_0000_0000_0000 <= x < 0x8000_0000_0000_0000

  /**
   * The result of a completion. `response` is `final` in the source, which a
   * datatype field is by construction; the other three fields have setters in
   * the source, which the model leaves out, so every field is fixed at
   * construction. `responseType` is None (null) unless the four-argument
   * constructor supplied one.
   */
  datatype OllamaResult = OllamaResult(
    response: Option<string>,
    responseType: Option<TypeName>,
    responseTime: int64,
    httpStatusCode: int32)

  const NoResponseTypeMessage: string :=
    "Response class was not set in the original request; response cannot be structured."
  const NullResponseMessage: string := "Response is null; cannot structure a response."
  const ParseFailurePrefix: string := "Failed to parse response into type: "

  /** `new OllamaResult(response, responseTime, httpStatusCode)`. */
  function NewResult(response: Option<string>, responseTime: int64, httpStatusCode: int32): (r: OllamaResult)
    ensures r.response == response && r.responseTime == responseTime && r.httpStatusCode == httpStatusCode
    ensures r.responseType == None
  {
    OllamaResult(response, None, responseTime, httpStatusCode)
  }

  /** `new OllamaResult(response, responseType, responseTime, httpStatusCode)`. */
  function NewTypedResult(response: Option<string>, responseType: Option<TypeName>, responseTime: int64,
                          httpStatusCode: int32): (r: OllamaResult)
    ensures r.response == response && r.responseTime == responseTime && r.httpStatusCode == httpStatusCode
    ensures r.responseType == responseType
  {
    OllamaResult(response, responseType, responseTime, httpStatusCode)
  }

  /**
   * `getStructuredResponse()`. `readValue` stands for Jackson's
   * `readValue(response, responseType)`: a value, or the message of the
   * `JsonProcessingException` it throws.
   */
  function GetStructuredResponse(r: OllamaResult, readValue: (string, TypeName) -> Result<JsonValue, string>)
    : (out: Result<JsonValue, Throwable>)
    ensures r.responseType.None? ==> out == Err(IllegalStateException(NoResponseTypeMessage))
    ensures r.responseType.Some? && r.response.None? ==> out == Err(IllegalStateException(NullResponseMessage))
    ensures out.Ok? <==>
      r.responseType.Some? && r.response.Some? && readValue(r.response.value, r.responseType.value).Ok?
    ensures out.Ok? ==> out.value == readValue(r.response.value, r.responseType.value).value
    ensures r.responseType.Some? && r.response.Some? && out.Err? ==>
      var failure := readValue(r.response.value, r.responseType.value);
      failure.Err? &&
      out.error == RuntimeException(ParseFailurePrefix + r.responseType.value.name, JsonProcessingException(failure.error))
  {
    if r.responseType.None? then Err(IllegalStateException(NoResponseTypeMessage))
    else if r.response.None? then Err(IllegalStateException(NullResponseMessage))
    else
      match readValue(r.response.value, r.responseType.value)
      case Ok(v) => Ok(v)
      case Err(message) =>
        Err(RuntimeException(ParseFailurePrefix + r.responseType.value.name, JsonProcessingException(message)))
  }

  /**
   * A result as the three-argument constructor makes it is not structured: the
   * missing type is reported first, whatever the response is and whatever the
   * deserialiser would do.
   */
  lemma UntypedResultIsNotStructured(response: Option<string>, responseTime: int64, httpStatusCode: int32,
                                       readValue: (string, TypeName) -> Result<JsonValue, string>)
    ensures GetStructuredResponse(NewResult(response, responseTime, httpStatusCode), readValue)
      == Err(IllegalStateException(NoResponseTypeMessage))
  {
  }

  /**
   * The failure of a typed result whose deserialisation fails names the target
   * type: the message is the fixed prefix followed by the type's name.
   */
  lemma ParseFailureNamesType(r: OllamaResult, readValue: (string, TypeName) -> Result<JsonValue, string>)
    requires r.responseType.Some? && r.response.Some?
    requires readValue(r.response.value, r.responseType.value).Err?
    ensures GetStructuredResponse(r, readValue).Err?
    ensures var e := GetStructuredResponse(r, readValue).error;
      e.RuntimeException? && JavaStrings.EndsWith(e.message, r.responseType.value.name)
      && e.message[..|ParseFailurePrefix|] == ParseFailurePrefix
  {
  }
}
