/**
 * How the client classifies an HTTP reply `(statusCode, body)` from the model
 * server into a normal return or an `OllamaBaseException`, endpoint by endpoint.
 */
module StatusRules {
  import opened Wrappers
  import opened Exceptions
  import opened JavaStrings
  import opened OllamaResults

  const HttpOk: int32 := 200
  const HttpNotFound: int32 := 404

  /** The message of an upstream failure: `statusCode + " - " + body`. */
  function StatusMessage(status: int32, body: string): (m: string)
    ensures EndsWith(m, " - " + body)
    ensures ParseInt(m[..|m| - |body| - 3]) == Some(status as int)
  {
    var digits := IntToString(status as int);
    var m := digits + (" - " + body);
    IntToStringRoundTrip(status as int);
    assert |m| - |body| - 3 == |digits|;
    assert m[..|digits|] == digits && m[|digits|..] == " - " + body;
    m
  }

  /** Reads a status message back: the decimal status before the first space, then " - ", then the body. */
  function ParseStatusMessage(msg: string): (parsed: Option<(int, string)>)
  {
    var i := IndexOf(msg, ' ');
    if i + 3 <= |msg| && msg[i..i + 3] == " - " then
      match ParseInt(msg[..i])
      case None => None
      case Some(n) => Some((n, msg[i + 3..]))
    else None
  }

  /** An upstream failure message carries both the status code and the whole body, recoverably. */
  lemma StatusMessageRoundTrip(status: int32, body: string)
    ensures ParseStatusMessage(StatusMessage(status, body)) == Some((status as int, body))
  {
    var digits := IntToString(status as int);
    var msg := StatusMessage(status, body);
    IntToStringHasNoSpace(status as int);
    IntToStringRoundTrip(status as int);
    assert msg[|digits|] == ' ';
    assert forall j :: 0 <= j < |digits| ==> msg[j] == digits[j];
    assert IndexOf(msg, ' ') == |digits|;
    assert msg[..|digits|] == digits;
    assert msg[|digits| + 3..] == body;
  }

  /**
   * The rule of `ps`, `listModels`, `getModelDetails`, `embed`, `generateEmbeddings`
   * and the library listings: status 200 hands the body on to be parsed, any other
   * status raises `OllamaBaseException(status + " - " + body)`.
   */
  function ExpectOk(status: int32, body: string): (r: Result<string, Throwable>)
    ensures r.Ok? <==> status == HttpOk
    ensures r.Ok? ==> r.value == body
    ensures r.Err? ==> r.error == OllamaBaseException(StatusMessage(status, body))
  {
    if status == HttpOk then Ok(body) else Err(OllamaBaseException(StatusMessage(status, body)))
  }

  /** The reply the server gives for a model it does not have. */
  predicate IsMissingModelReply(status: int32, body: string)
  {
    status == HttpNotFound && Contains(body, "model") && Contains(body, "not found")
  }

  /**
   * `deleteModel(modelName, ignoreIfNotPresent)` as written: a 404 whose body
   * mentions "model" and "not found" returns normally, whatever
   * `ignoreIfNotPresent` says (the parameter is never read); otherwise only 200
   * returns normally.
   */
  function DeleteModelOutcome(ignoreIfNotPresent: bool, status: int32, body: string): (r: Outcome<Throwable>)
    ensures r.Pass? <==> status == HttpOk || IsMissingModelReply(status, body)
    ensures r.Fail? ==> r.error == OllamaBaseException(StatusMessage(status, body))
  {
    if IsMissingModelReply(status, body) then Pass
    else if status != HttpOk then Fail(OllamaBaseException(StatusMessage(status, body)))
    else Pass
  }

  /** Delete is the generic rule, made lenient for exactly the missing-model reply. */
  lemma DeleteExtendsGenericRule(ignoreIfNotPresent: bool, status: int32, body: string)
    ensures DeleteModelOutcome(ignoreIfNotPresent, status, body).Pass? <==>
            ExpectOk(status, body).Ok? || IsMissingModelReply(status, body)
    ensures DeleteModelOutcome(ignoreIfNotPresent, status, body).Fail? ==>
            DeleteModelOutcome(ignoreIfNotPresent, status, body).error == ExpectOk(status, body).error
  {
  }

  const MissingModelBody: string := "model 'llama2' not found"

  lemma MissingModelBodyIsRecognised()
    ensures IsMissingModelReply(HttpNotFound, MissingModelBody)
  {
    assert OccursAt(MissingModelBody, "model", 0);
    assert OccursAt(MissingModelBody, "not found", 15);
  }

  /**
   * As written, `deleteModel(name, false)` on a missing model returns normally
   * instead of reporting the 404.
   */
  lemma DeleteIgnoresFlag()
    ensures DeleteModelOutcome(false, HttpNotFound, MissingModelBody) == Pass
  {
    MissingModelBodyIsRecognised();
  }

  /** `deleteModel` as its documentation describes it: a missing model is ignored only when asked. */
  function DeleteModelOutcomeIntended(ignoreIfNotPresent: bool, status: int32, body: string): (r: Outcome<Throwable>)
    ensures r.Pass? <==> status == HttpOk || (ignoreIfNotPresent && IsMissingModelReply(status, body))
    ensures r.Fail? ==> r.error == OllamaBaseException(StatusMessage(status, body))
  {
    if ignoreIfNotPresent && IsMissingModelReply(status, body) then Pass
    else if status != HttpOk then Fail(OllamaBaseException(StatusMessage(status, body)))
    else Pass
  }

  /**
   * The intended rule agrees with the code whenever the caller asks to ignore a
   * missing model, and reports the missing model otherwise.
   */
  lemma DeleteIntendedHonoursFlag(status: int32, body: string)
    ensures DeleteModelOutcomeIntended(true, status, body) == DeleteModelOutcome(true, status, body)
    ensures IsMissingModelReply(status, body) ==>
            DeleteModelOutcomeIntended(false, status, body) == Fail(OllamaBaseException(StatusMessage(status, body)))
  {
  }

  /**
   * `createModelWithFilePath` and `createModelWithModelFileContents`: any status
   * but 200 fails with `status + " - " + body`; a 200 whose body contains
   * "error" fails with the body alone, because the server reports creation
   * failures with status 200.
   */
  function CreateModelOutcome(status: int32, body: string): (r: Outcome<Throwable>)
    ensures r.Pass? <==> status == HttpOk && !Contains(body, "error")
    ensures status != HttpOk ==> r == Fail(OllamaBaseException(StatusMessage(status, body)))
    ensures status == HttpOk && r.Fail? ==> r.error == OllamaBaseException(body)
  {
    if status != HttpOk then Fail(OllamaBaseException(StatusMessage(status, body)))
    else if Contains(body, "error") then Fail(OllamaBaseException(body))
    else Pass
  }

  /** Creation is stricter than the generic rule: it never succeeds where the generic rule fails. */
  lemma CreateStricterThanGenericRule(status: int32, body: string)
    ensures CreateModelOutcome(status, body).Pass? ==> ExpectOk(status, body).Ok?
    ensures ExpectOk(status, body).Err? ==> CreateModelOutcome(status, body) == Fail(ExpectOk(status, body).error)
  {
  }

  /** Every 200 reply whose body mentions "error" is a failure of model creation, reported by the body alone. */
  lemma CreateRejectsErrorBody(body: string)
    requires Contains(body, "error")
    ensures CreateModelOutcome(HttpOk, body) == Fail(OllamaBaseException(body))
  {
  }

  /**
   * `pullModel(modelName)` as written: `responseString` is initialised to "" and
   * never assigned, so a failing status reports `status + " - "` with no body.
   */
  function PullModelOutcome(status: int32): (r: Outcome<Throwable>)
    ensures r.Pass? <==> status == HttpOk
    ensures r.Fail? ==> r.error == OllamaBaseException(StatusMessage(status, ""))
  {
    if status != HttpOk then Fail(OllamaBaseException(StatusMessage(status, ""))) else Pass
  }

  /** The body the server sent is lost from the pull failure: only the status can be read back. */
  lemma PullFailureLosesBody(status: int32)
    requires status != HttpOk
    ensures ParseStatusMessage(PullModelOutcome(status).error.message) == Some((status as int, ""))
  {
    StatusMessageRoundTrip(status, "");
  }

  /** `pullModel` reporting a failing status the way every other endpoint does. */
  function PullModelOutcomeIntended(status: int32, body: string): (r: Outcome<Throwable>)
    ensures r.Pass? <==> ExpectOk(status, body).Ok?
    ensures r.Fail? ==> r.error == ExpectOk(status, body).error
  {
    match ExpectOk(status, body)
    case Ok(_) => Pass
    case Err(e) => Fail(e)
  }

  /** With the intended rule, the failure of a pull carries the server's body. */
  lemma PullIntendedKeepsBody(status: int32, body: string)
    requires status != HttpOk
    ensures PullModelOutcomeIntended(status, body).Fail?
    ensures ParseStatusMessage(PullModelOutcomeIntended(status, body).error.message) == Some((status as int, body))
  {
    StatusMessageRoundTrip(status, body);
  }
}
