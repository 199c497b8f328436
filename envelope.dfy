/**
 * The JSend envelope builders of jsend-utils: four total functions that shape
 * `(message, data, httpStatus)` into a `{code, status, data, message}` record.
 */
module JSendEnvelope {
  import opened Wrappers

  // The HTTP status codes the builders default to.
  const HTTP_OK := 200
  const HTTP_BAD_REQUEST := 400
  const HTTP_UNPROCESSABLE_ENTITY := 422
  const HTTP_INTERNAL_SERVER_ERROR := 500

  /**
   * The `status` field. The library deliberately swaps JSend's words: a client
   * error is reported as "error" and a server error as "fail".
   */
  datatype Status = Success | Error | Fail

  /** The wire string of a status. */
  function StatusName(s: Status): string {
    match s
    case Success => "success"
    case Error => "error"
    case Fail => "fail"
  }

  /** Reads a wire string back as a status; the inverse of StatusName. */
  function StatusFromName(name: string): (r: Option<Status>)
    ensures r.Some? ==> StatusName(r.value) == name
    ensures forall s :: StatusName(s) == name ==> r == Some(s)
  {
    if name == "success" then Some(Success)
    else if name == "error" then Some(Error)
    else if name == "fail" then Some(Fail)
    else None
  }

  /**
   * An envelope as the builders return it. `data` is the caller's data
   * argument, None when it was omitted (`undefined`); JSON `null` is a value of
   * `D`. `message` is None on a success envelope (the key is not there) and is
   * the caller's message, possibly `undefined`, on an error envelope.
   */
  datatype Envelope<D> = Envelope(code: int, status: Status, data: Option<D>, message: Option<string>)

  /** JavaScript truthiness of an optional status argument: `undefined` and 0 are falsy. */
  predicate IsTruthyStatus(httpStatus: Option<int>) {
    httpStatus.Some? && httpStatus.value != 0
  }

  /** `httpStatus || fallback`. */
  function StatusOr(httpStatus: Option<int>, fallback: int): (code: int)
    ensures IsTruthyStatus(httpStatus) ==> code == httpStatus.value
    ensures !IsTruthyStatus(httpStatus) ==> code == fallback
    ensures fallback != 0 ==> code != 0
  {
    match httpStatus
    case Some(v) => if v != 0 then v else fallback
    case None => fallback
  }

  /**
   * createJSendSuccess. The documented range [200, 299] for an explicit status
   * is not checked by the library and is not a precondition here.
   */
  function CreateSuccess<D>(data: Option<D>, httpStatus: Option<int>): (e: Envelope<D>)
    ensures e.code == (if IsTruthyStatus(httpStatus) then httpStatus.value else HTTP_OK)
    ensures e.status == Success && e.data == data
    ensures e.message == None
  {
    Envelope(StatusOr(httpStatus, HTTP_OK), Success, data, None)
  }

  /** createJSendClientError; an explicit status is documented as [400, 499], never checked. */
  function CreateClientError<D>(message: Option<string>, data: Option<D>, httpStatus: Option<int>): (e: Envelope<D>)
    ensures e.code == (if IsTruthyStatus(httpStatus) then httpStatus.value else HTTP_BAD_REQUEST)
    ensures e.status == Error && e.data == data && e.message == message
  {
    Envelope(StatusOr(httpStatus, HTTP_BAD_REQUEST), Error, data, message)
  }

  /** createJSendClientValidationError: a client error whose code is always 422. */
  function CreateClientValidationError<D>(message: Option<string>, data: Option<D>): (e: Envelope<D>)
    ensures e == CreateClientError(message, data, Some(HTTP_UNPROCESSABLE_ENTITY))
    ensures e.code == HTTP_UNPROCESSABLE_ENTITY && e.status == Error
    ensures e.data == data && e.message == message
  {
    CreateClientError(message, data, Some(HTTP_UNPROCESSABLE_ENTITY))
  }

  /** createJSendServerError; an explicit status is documented as [500, 599], never checked. */
  function CreateServerError<D>(message: Option<string>, data: Option<D>, httpStatus: Option<int>): (e: Envelope<D>)
    ensures e.code == (if IsTruthyStatus(httpStatus) then httpStatus.value else HTTP_INTERNAL_SERVER_ERROR)
    ensures e.status == Fail && e.data == data && e.message == message
  {
    Envelope(StatusOr(httpStatus, HTTP_INTERNAL_SERVER_ERROR), Fail, data, message)
  }

  // ---------------------------------------------------------------------------
  // The four builders as one family, and the envelopes they can produce.

  /** A call of one of the four builders, with its arguments. */
  datatype BuilderCall<D> =
    | SuccessCall(data: Option<D>, httpStatus: Option<int>)
    | ClientErrorCall(message: Option<string>, data: Option<D>, httpStatus: Option<int>)
    | ClientValidationErrorCall(message: Option<string>, data: Option<D>)
    | ServerErrorCall(message: Option<string>, data: Option<D>, httpStatus: Option<int>)

  function Build<D>(call: BuilderCall<D>): Envelope<D> {
    match call
    case SuccessCall(d, s) => CreateSuccess(d, s)
    case ClientErrorCall(m, d, s) => CreateClientError(m, d, s)
    case ClientValidationErrorCall(m, d) => CreateClientValidationError(m, d)
    case ServerErrorCall(m, d, s) => CreateServerError(m, d, s)
  }

  /**
   * The shape every builder output has: a non-zero code (the `||` default
   * replaces 0), and no message on a success envelope.
   */
  predicate IsBuilderEnvelope<D>(e: Envelope<D>) {
    e.code != 0 && (e.status == Success ==> e.message == None)
  }

  /** A builder call that produces `e`, read off the envelope's status. */
  function Recover<D>(e: Envelope<D>): BuilderCall<D> {
    match e.status
    case Success => SuccessCall(e.data, Some(e.code))
    case Error => ClientErrorCall(e.message, e.data, Some(e.code))
    case Fail => ServerErrorCall(e.message, e.data, Some(e.code))
  }

  /** The status of a built envelope tells which builder made it. */
  lemma StatusIdentifiesBuilder<D>(call: BuilderCall<D>)
    ensures Build(call).status == Success <==> call.SuccessCall?
    ensures Build(call).status == Error <==> (call.ClientErrorCall? || call.ClientValidationErrorCall?)
    ensures Build(call).status == Fail <==> call.ServerErrorCall?
    ensures Build(call).data == call.data
  {
  }

  lemma BuildIsBuilderEnvelope<D>(call: BuilderCall<D>)
    ensures IsBuilderEnvelope(Build(call))
  {
  }

  lemma RecoverRebuilds<D>(e: Envelope<D>)
    requires IsBuilderEnvelope(e)
    ensures Build(Recover(e)) == e
  {
  }

  /** The builders produce exactly the envelopes of builder shape. */
  lemma BuilderRange<D>(e: Envelope<D>)
    ensures IsBuilderEnvelope(e) <==> exists call: BuilderCall<D> :: Build(call) == e
  {
    if IsBuilderEnvelope(e) {
      RecoverRebuilds(e);
    }
    if call: BuilderCall<D> :| Build(call) == e {
      BuildIsBuilderEnvelope(call);
    }
  }

  // ---------------------------------------------------------------------------
  // The JavaScript object view of an envelope.

  /**
   * A JavaScript object as this library reads it: each of the four envelope
   * keys may be absent. A key that holds `undefined` is the same as an absent
   * key here, as it is once the object is serialised to JSON.
   */
  datatype JsObject<D> = JsObject(code: Option<int>, status: Option<string>, data: Option<D>, message: Option<string>)

  /** The object literal `{}`. */
  function EmptyObject<D>(): JsObject<D> {
    JsObject(None, None, None, None)
  }

  /**
   * The object literal a builder returns: code and status always present,
   * data and message as the caller passed them.
   */
  function ToObject<D>(e: Envelope<D>): (o: JsObject<D>)
    ensures o.code == Some(e.code)
    ensures o.status.Some? && StatusFromName(o.status.value) == Some(e.status)
    ensures o.data == e.data && o.message == e.message
  {
    JsObject(Some(e.code), Some(StatusName(e.status)), e.data, e.message)
  }

  /** Reads an object as an envelope, when its code and status keys are both usable. */
  function FromObject<D>(o: JsObject<D>): (r: Option<Envelope<D>>)
    ensures r.Some? <==> o.code.Some? && o.status.Some? && StatusFromName(o.status.value).Some?
    ensures r.Some? ==> ToObject(r.value) == o
  {
    match (o.code, o.status)
    case (Some(c), Some(s)) =>
      (match StatusFromName(s)
       case Some(st) => Some(Envelope(c, st, o.data, o.message))
       case None => None)
    case _ => None
  }

  lemma ObjectRoundTrip<D>(e: Envelope<D>)
    ensures FromObject(ToObject(e)) == Some(e)
  {
  }
}
