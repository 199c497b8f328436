/**
 * decorateExpressResponse of jsend-utils: five methods installed on an Express
 * response, each of which sets the response status to an envelope's code and
 * then sends that envelope. The response is reduced to the two things these
 * methods change: the status code and the sequence of objects sent as JSON.
 */
module ExpressDecorator {
  import opened Wrappers
  import opened JSendEnvelope

  /**
   * What jsendPassThrough can throw: JSON.parse's SyntaxError on malformed
   * text, and the TypeError of reading `['code']` from null or undefined.
   */
  datatype Exception = SyntaxError | TypeError

  /** A JSON text parses to null or to an object. */
  datatype JsonValue<D> = JsonNull | JsonObject(obj: JsObject<D>)

  /**
   * The argument of jsendPassThrough: an object, its serialised text, or
   * null/undefined.
   */
  datatype PassThroughArg<D> = ObjectArg(obj: JsObject<D>) | TextArg(text: string) | NullishArg

  /**
   * The object jsendPassThrough sends, or what it throws first. `parse` stands
   * for JSON.parse: None when the text is malformed.
   */
  function PassThroughObject<D>(arg: PassThroughArg<D>, parse: string -> Option<JsonValue<D>>): (r: Result<JsObject<D>, Exception>)
    ensures arg.ObjectArg? ==> r == Ok(arg.obj)
    ensures arg.NullishArg? ==> r == Err(TypeError)
    ensures arg.TextArg? ==>
      (parse(arg.text).None? <==> r == Err(SyntaxError)) &&
      (parse(arg.text) == Some(JsonNull) <==> r == Err(TypeError)) &&
      (r.Ok? <==> parse(arg.text).Some? && parse(arg.text).value.JsonObject?) &&
      (r.Ok? ==> parse(arg.text) == Some(JsonObject(r.value)))
  {
    match arg
    case ObjectArg(o) => Ok(o)
    case NullishArg => Err(TypeError)
    case TextArg(t) =>
      match parse(t)
      case None => Err(SyntaxError)
      case Some(JsonNull) => Err(TypeError)
      case Some(JsonObject(o)) => Ok(o)
  }

  /** An Express response, reduced to its status code and what has been sent on it. */
  class Response<D> {
    /** `res.statusCode`; `res.status(x)` stores any x, including `undefined`. */
    var statusCode: Option<int>
    /** The objects passed to `res.json`, in order. */
    var sent: seq<JsObject<D>>
    /** Whether decorateExpressResponse has installed the jsend methods. */
    var decorated: bool

    /** A fresh response; Node starts every response at status 200. */
    constructor ()
      ensures statusCode == Some(HTTP_OK) && sent == [] && !decorated
    {
      statusCode := Some(HTTP_OK);
      sent := [];
      decorated := false;
    }

    /** The status of the response is the code of the last object sent. */
    predicate StatusMatchesLastSent()
      reads this
    {
      |sent| > 0 && statusCode == sent[|sent| - 1].code
    }

    /** `res.status(code)`. */
    method Status(code: Option<int>)
      modifies this`statusCode
      ensures statusCode == code
    {
      statusCode := code;
    }

    /** `res.json(obj)`. */
    method Json(obj: JsObject<D>)
      modifies this`sent
      ensures sent == old(sent) + [obj]
    {
      sent := sent + [obj];
    }

    /** decorateExpressResponse(res); calling it again changes nothing. */
    method Decorate()
      modifies this`decorated
      ensures decorated
    {
      decorated := true;
    }

    /** `this.status(jsendObj.code).json(jsendObj)`, shared by the four builder methods. */
    method Send(e: Envelope<D>)
      modifies this`statusCode, this`sent
      ensures statusCode == Some(e.code) && sent == old(sent) + [ToObject(e)]
      ensures StatusMatchesLastSent()
    {
      var obj := ToObject(e);
      Status(obj.code);
      Json(obj);
    }

    method JSendSuccess(data: Option<D>, httpStatus: Option<int>)
      requires decorated
      modifies this`statusCode, this`sent
      ensures statusCode == Some(CreateSuccess(data, httpStatus).code)
      ensures sent == old(sent) + [ToObject(CreateSuccess(data, httpStatus))]
      ensures StatusMatchesLastSent()
    {
      var jsendObj := CreateSuccess(data, httpStatus);
      Send(jsendObj);
    }

    method JSendClientError(message: Option<string>, data: Option<D>, httpStatus: Option<int>)
      requires decorated
      modifies this`statusCode, this`sent
      ensures statusCode == Some(CreateClientError(message, data, httpStatus).code)
      ensures sent == old(sent) + [ToObject(CreateClientError(message, data, httpStatus))]
      ensures StatusMatchesLastSent()
    {
      var jsendObj := CreateClientError(message, data, httpStatus);
      Send(jsendObj);
    }

    method JSendClientValidationError(message: Option<string>, data: Option<D>)
      requires decorated
      modifies this`statusCode, this`sent
      ensures statusCode == Some(HTTP_UNPROCESSABLE_ENTITY)
      ensures sent == old(sent) + [ToObject(CreateClientValidationError(message, data))]
      ensures StatusMatchesLastSent()
    {
      var jsendObj := CreateClientValidationError(message, data);
      Send(jsendObj);
    }

    method JSendServerError(message: Option<string>, data: Option<D>, httpStatus: Option<int>)
      requires decorated
      modifies this`statusCode, this`sent
      ensures statusCode == Some(CreateServerError(message, data, httpStatus).code)
      ensures sent == old(sent) + [ToObject(CreateServerError(message, data, httpStatus))]
      ensures StatusMatchesLastSent()
    {
      var jsendObj := CreateServerError(message, data, httpStatus);
      Send(jsendObj);
    }

    /**
     * jsendPassThrough: text is parsed first. A parse error, or a null or
     * undefined object, throws with the response untouched; otherwise the
     * status becomes the object's `code` and the object is sent unchanged.
     */
    method JSendPassThrough(arg: PassThroughArg<D>, parse: string -> Option<JsonValue<D>>)
      returns (thrown: Option<Exception>)
      requires decorated
      modifies this`statusCode, this`sent
      ensures PassThroughObject(arg, parse).Err? ==>
        thrown == Some(PassThroughObject(arg, parse).error) && statusCode == old(statusCode) && sent == old(sent)
      ensures PassThroughObject(arg, parse).Ok? ==>
        thrown == None && sent == old(sent) + [PassThroughObject(arg, parse).value] && StatusMatchesLastSent()
    {
      var jsendResponse: JsObject<D>;
      match arg {
        case TextArg(t) =>
          var parsed := parse(t);
          match parsed {
            case None =>
              return Some(SyntaxError);
            case Some(JsonNull) =>
              return Some(TypeError);
            case Some(JsonObject(o)) =>
              jsendResponse := o;
          }
        case NullishArg =>
          return Some(TypeError);
        case ObjectArg(o) =>
          jsendResponse := o;
      }
      Status(jsendResponse.code);
      Json(jsendResponse);
      thrown := None;
    }
  }

  /** The builder method a builder call names, on a decorated response. */
  method SendBuilt<D>(res: Response<D>, call: BuilderCall<D>)
    requires res.decorated
    modifies res`statusCode, res`sent
    ensures res.statusCode == Some(Build(call).code)
    ensures res.sent == old(res.sent) + [ToObject(Build(call))]
  {
    match call {
      case SuccessCall(d, s) => res.JSendSuccess(d, s);
      case ClientErrorCall(m, d, s) => res.JSendClientError(m, d, s);
      case ClientValidationErrorCall(m, d) => res.JSendClientValidationError(m, d);
      case ServerErrorCall(m, d, s) => res.JSendServerError(m, d, s);
    }
  }

  /**
   * Passing a built envelope through, as an object or as text that parses to
   * it, leaves a fresh response in the same state as the builder method does.
   */
  method PassThroughReplaysBuilder<D>(call: BuilderCall<D>, arg: PassThroughArg<D>, parse: string -> Option<JsonValue<D>>)
    returns (direct: Response<D>, replayed: Response<D>, thrown: Option<Exception>)
    requires PassThroughObject(arg, parse) == Ok(ToObject(Build(call)))
    ensures thrown == None
    ensures direct.statusCode == replayed.statusCode == Some(Build(call).code)
    ensures direct.sent == replayed.sent == [ToObject(Build(call))]
  {
    direct := new Response();
    direct.Decorate();
    SendBuilt(direct, call);
    replayed := new Response();
    replayed.Decorate();
    thrown := replayed.JSendPassThrough(arg, parse);
  }
}
