/**
 * The part of src/n8n.js that is logic rather than I/O: turning the
 * webhook's reply into the canonical `{success, outputImage}` /
 * `{success: false, error}` shape, and turning a failed HTTP call into the
 * error `processVehicleImage` throws. The POST itself is a parameter: its
 * outcome (a reply body, or an axios error) is given as an `HttpOutcome`.
 */
module N8n {
  import opened Wrappers
  import Strings

  /** A string-valued JSON field tested for truthiness: present and not the empty string. */
  predicate Truthy(v: Option<string>) {
    v.Some? && v.value != ""
  }

  /**
   * The fields of a reply object that the code looks at. `success` is its
   * truthiness; a field that is absent, `null` or not a string is `None`.
   */
  datatype Payload = Payload(success: bool, outputImage: Option<string>, output: Option<string>, error: Option<string>)

  /** The fallback message when the reply explains nothing. */
  const UnknownError: string := "Unknown error from n8n"

  /**
   * The response-shape normalisation. `data` is `response.data`; `None` is a
   * falsy body (`null`, `undefined`, the empty string). The branches are tried
   * in the order `success`, `outputImage`, `output`.
   */
  function Normalize(data: Option<Payload>): (r: Payload)
    ensures data.Some? && data.value.success ==> r == data.value
    ensures data.Some? && !data.value.success && Truthy(data.value.outputImage) ==>
              r == Payload(true, data.value.outputImage, None, None)
    ensures data.Some? && !data.value.success && !Truthy(data.value.outputImage) && Truthy(data.value.output) ==>
              r == Payload(true, data.value.output, None, None)
    ensures r.success <==>
              data.Some? && (data.value.success || Truthy(data.value.outputImage) || Truthy(data.value.output))
    ensures !r.success ==> r.outputImage == None && r.output == None && Truthy(r.error)
    ensures !r.success && data.Some? && Truthy(data.value.error) ==> r.error == data.value.error
    ensures !r.success && !(data.Some? && Truthy(data.value.error)) ==> r.error == Some(UnknownError)
  {
    if data.Some? && data.value.success then
      data.value
    else if data.Some? && Truthy(data.value.outputImage) then
      Payload(true, data.value.outputImage, None, None)
    else if data.Some? && Truthy(data.value.output) then
      Payload(true, data.value.output, None, None)
    else
      Payload(false, None, None, Some(if data.Some? && Truthy(data.value.error) then data.value.error.value else UnknownError))
  }

  /** The test `startProcessing` applies to a returned result: `result.success && result.outputImage`. */
  predicate Delivers(r: Payload) {
    r.success && Truthy(r.outputImage)
  }

  /**
   * Which replies end in an image: one marked successful must carry
   * `outputImage` itself (an `output` field is then ignored); an unmarked one
   * may carry either field.
   */
  lemma DeliversExactly(data: Option<Payload>)
    ensures Delivers(Normalize(data)) <==>
              data.Some? &&
              (if data.value.success then Truthy(data.value.outputImage)
               else Truthy(data.value.outputImage) || Truthy(data.value.output))
  {
  }

  /** The delivered image is `outputImage` when that field is truthy, and `output` only otherwise. */
  lemma OutputImageBeatsOutput(p: Payload)
    requires Truthy(p.outputImage)
    ensures Normalize(Some(p)).outputImage == p.outputImage
  {
  }

  /** A reply already in canonical shape is left as it is: normalising twice is normalising once. */
  lemma NormalizeIdempotent(data: Option<Payload>)
    ensures Normalize(Some(Normalize(data))) == Normalize(data)
  {
  }

  // ---------------------------------------------------------------
  // Errors
  // ---------------------------------------------------------------

  /** The parts of an axios error the code reads: `code`, the status of `response` when one came back, and `message`. */
  datatype HttpError = HttpError(code: Option<string>, responseStatus: Option<nat>, message: string)

  /** What the `catch` block throws: a new `Error(message)`, or the original error unchanged. */
  datatype Thrown = Raised(message: string) | Rethrown(original: HttpError)

  const TimeoutCode: string := "ECONNABORTED"
  const TimeoutMessage: string := "Processing timed out. The image may still be processing."
  const StatusPrefix: string := "n8n error: "

  /** `error.message` of what was thrown, which `startProcessing` shows the user. */
  function MessageOf(t: Thrown): string {
    match t
    case Raised(m) => m
    case Rethrown(e) => e.message
  }

  /** The error classification: timeout first, then an HTTP error status, otherwise rethrow. */
  function ClassifyError(e: HttpError): (t: Thrown)
    ensures e.code == Some(TimeoutCode) ==> t == Raised(TimeoutMessage)
    ensures e.code != Some(TimeoutCode) && e.responseStatus.Some? ==>
              t.Raised? && |t.message| > |StatusPrefix| && t.message[..|StatusPrefix|] == StatusPrefix
    ensures e.code != Some(TimeoutCode) && e.responseStatus.Some? ==>
              t == Raised(StatusPrefix + Strings.Decimal(e.responseStatus.value))
    ensures e.code != Some(TimeoutCode) && e.responseStatus.None? ==> t == Rethrown(e)
  {
    if e.code == Some(TimeoutCode) then Raised(TimeoutMessage)
    else if e.responseStatus.Some? then Raised(StatusPrefix + Strings.Decimal(e.responseStatus.value))
    else Rethrown(e)
  }

  /** The status an HTTP-error message reports can be read back from it. */
  lemma StatusRecoverable(e: HttpError)
    requires e.code != Some(TimeoutCode) && e.responseStatus.Some?
    ensures var m := ClassifyError(e).message;
      (forall i :: |StatusPrefix| <= i < |m| ==> Strings.IsDigit(m[i])) &&
      Strings.ParseDecimal(m[|StatusPrefix|..]) == e.responseStatus.value
  {
    var digits := Strings.Decimal(e.responseStatus.value);
    assert ClassifyError(e).message[|StatusPrefix|..] == digits;
    Strings.DecimalRoundTrip(e.responseStatus.value);
  }

  /** The outcome of the webhook POST: a reply body, or an axios error. */
  datatype HttpOutcome = Responded(data: Option<Payload>) | Failed(error: HttpError)

  /** What `processVehicleImage` does with its caller: returns a result, or throws. */
  datatype Outcome = Returned(result: Payload) | Threw(thrown: Thrown)

  /** `processVehicleImage` without the POST: normalise a reply, classify an error. */
  function ProcessVehicleImage(h: HttpOutcome): (o: Outcome)
    ensures h.Responded? <==> o.Returned?
    ensures o.Returned? ==> o.result == Normalize(h.data)
    ensures o.Threw? ==> o.thrown == ClassifyError(h.error)
  {
    match h
    case Responded(data) => Returned(Normalize(data))
    case Failed(e) => Threw(ClassifyError(e))
  }

  /** The request body sent to the webhook. */
  datatype Request = Request(chatId: int, vehicleImage: Option<string>, selectedColor: Option<string>, selectedTexture: Option<string>)
}
