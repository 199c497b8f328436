/**
 * The error classes of jsend-utils: JSendError extends the built-in Error,
 * JSendClientError and JSendServerError extend JSendError, and
 * JSendClientValidationError extends JSendClientError. Each error holds a
 * JSend object in `data` and a display `message`.
 */
module JSendErrors {
  import opened Wrappers
  import Env = JSendEnvelope

  /** The classes of the hierarchy, with JavaScript's built-in Error as its root. */
  datatype ErrorClass = Error | JSendError | JSendClientError | JSendClientValidationError | JSendServerError

  /** The class an `extends` clause names. */
  function Parent(c: ErrorClass): Option<ErrorClass> {
    match c
    case Error => None
    case JSendError => Some(Error)
    case JSendClientError => Some(JSendError)
    case JSendClientValidationError => Some(JSendClientError)
    case JSendServerError => Some(JSendError)
  }

  /** How many `extends` steps separate a class from Error. */
  function Depth(c: ErrorClass): nat {
    match c
    case Error => 0
    case JSendError => 1
    case JSendClientError => 2
    case JSendClientValidationError => 3
    case JSendServerError => 2
  }

  /** `instanceof`: walks the prototype chain from `c` looking for `ancestor`. */
  function InstanceOf(c: ErrorClass, ancestor: ErrorClass): (r: bool)
    ensures r ==> Depth(ancestor) <= Depth(c)
    ensures r && Depth(ancestor) == Depth(c) ==> c == ancestor
    decreases Depth(c)
  {
    c == ancestor || (Parent(c).Some? && InstanceOf(Parent(c).value, ancestor))
  }

  /** The classes an instance of `c` belongs to, as the class declarations list them. */
  function Ancestors(c: ErrorClass): set<ErrorClass> {
    match c
    case Error => {Error}
    case JSendError => {JSendError, Error}
    case JSendClientError => {JSendClientError, JSendError, Error}
    case JSendClientValidationError => {JSendClientValidationError, JSendClientError, JSendError, Error}
    case JSendServerError => {JSendServerError, JSendError, Error}
  }

  /** The prototype-chain walk agrees with the table of ancestors, in both directions. */
  lemma {:induction false} InstanceOfIsAncestry(c: ErrorClass, ancestor: ErrorClass)
    ensures InstanceOf(c, ancestor) <==> ancestor in Ancestors(c)
    decreases Depth(c)
  {
    if Parent(c).Some? {
      InstanceOfIsAncestry(Parent(c).value, ancestor);
    }
  }

  lemma {:induction false} InstanceOfTransitive(a: ErrorClass, b: ErrorClass, c: ErrorClass)
    requires InstanceOf(a, b) && InstanceOf(b, c)
    ensures InstanceOf(a, c)
    decreases Depth(a)
  {
    if a != b {
      InstanceOfTransitive(Parent(a).value, b, c);
    }
  }

  /** Every class of the hierarchy is an Error. */
  lemma {:induction false} EveryClassIsAnError(c: ErrorClass)
    ensures InstanceOf(c, Error)
    decreases Depth(c)
  {
    if Parent(c).Some? {
      EveryClassIsAnError(Parent(c).value);
    }
  }

  /** Two distinct classes are never each other's instances. */
  lemma InstanceOfAntisymmetric(a: ErrorClass, b: ErrorClass)
    requires InstanceOf(a, b) && InstanceOf(b, a)
    ensures a == b
  {
    InstanceOfIsAncestry(a, b);
    InstanceOfIsAncestry(b, a);
  }

  // ---------------------------------------------------------------------------
  // Error objects.

  /** An error object: its class, its `data` and its display `message`. */
  datatype ErrorObject<D> = ErrorObject(cls: ErrorClass, data: Env.JsObject<D>, message: string)

  predicate IsA<D>(e: ErrorObject<D>, c: ErrorClass) {
    InstanceOf(e.cls, c)
  }

  /** JavaScript truthiness of an optional message: `undefined` and "" are falsy. */
  predicate IsTruthyMessage(m: Option<string>) {
    m.Some? && m.value != ""
  }

  /** `message || fallback`. */
  function MessageOr(m: Option<string>, fallback: string): (r: string)
    ensures IsTruthyMessage(m) ==> r == m.value
    ensures !IsTruthyMessage(m) ==> r == fallback
    ensures fallback != "" ==> r != ""
  {
    match m
    case Some(s) => if s != "" then s else fallback
    case None => fallback
  }

  /** The message each constructor falls back to; Error's own default message is "". */
  function DefaultMessage(c: ErrorClass): string {
    match c
    case Error => ""
    case JSendError => "Error"
    case JSendClientError => "Client Error"
    case JSendClientValidationError => "Validation Error"
    case JSendServerError => "Server Error"
  }

  /**
   * `new JSendError(jsendObj)`. An omitted argument (None) takes the default
   * `{}`; the object is stored as it is and its message, when truthy, becomes
   * the display message.
   */
  function NewJSendError<D>(jsendObj: Option<Env.JsObject<D>>): (e: ErrorObject<D>)
    ensures e.cls == JSendError
    ensures e.data == (if jsendObj.Some? then jsendObj.value else Env.EmptyObject())
    ensures IsTruthyMessage(e.data.message) ==> e.message == e.data.message.value
    ensures !IsTruthyMessage(e.data.message) ==> e.message == "Error"
  {
    var obj := match jsendObj case Some(o) => o case None => Env.EmptyObject();
    ErrorObject(JSendError, obj, MessageOr(obj.message, DefaultMessage(JSendError)))
  }

  /**
   * What JSendError's constructor, reached through `super()` with no argument,
   * leaves in `this` when an object of class `cls` is constructed: `{}` and
   * "Error". For JSendClientValidationError, JSendClientError's body then runs
   * on this result before the validation body does. The Init functions below
   * overwrite both fields, whatever they are (see SuperIsOverwritten).
   */
  function Super<D>(cls: ErrorClass): (e: ErrorObject<D>)
    ensures e.cls == cls && e.data == Env.EmptyObject() && e.message == "Error"
  {
    NewJSendError(None).(cls := cls)
  }

  /** The body of the JSendClientError constructor, run on `self` after `super()`. */
  function InitClientError<D>(self: ErrorObject<D>, message: Option<string>, data: Option<D>, httpStatus: Option<int>): (e: ErrorObject<D>)
    ensures e.cls == self.cls
    ensures e.data == Env.ToObject(Env.CreateClientError(message, data, httpStatus))
    ensures e.message == MessageOr(message, "Client Error")
  {
    var withData := self.(data := Env.ToObject(Env.CreateClientError(message, data, httpStatus)));
    withData.(message := MessageOr(withData.data.message, DefaultMessage(JSendClientError)))
  }

  /** The body of the JSendClientValidationError constructor, run on `self` after `super()`. */
  function InitClientValidationError<D>(self: ErrorObject<D>, message: Option<string>, data: Option<D>): (e: ErrorObject<D>)
    ensures e.cls == self.cls
    ensures e.data == Env.ToObject(Env.CreateClientValidationError(message, data))
    ensures e.message == MessageOr(message, "Validation Error")
  {
    var withData := self.(data := Env.ToObject(Env.CreateClientValidationError(message, data)));
    withData.(message := MessageOr(withData.data.message, DefaultMessage(JSendClientValidationError)))
  }

  /** The body of the JSendServerError constructor, run on `self` after `super()`. */
  function InitServerError<D>(self: ErrorObject<D>, message: Option<string>, data: Option<D>, httpStatus: Option<int>): (e: ErrorObject<D>)
    ensures e.cls == self.cls
    ensures e.data == Env.ToObject(Env.CreateServerError(message, data, httpStatus))
    ensures e.message == MessageOr(message, "Server Error")
  {
    var withData := self.(data := Env.ToObject(Env.CreateServerError(message, data, httpStatus)));
    withData.(message := MessageOr(withData.data.message, DefaultMessage(JSendServerError)))
  }

  /** `new JSendClientError(message, data, httpStatus)`: `super()`, then the constructor body. */
  function NewClientError<D>(message: Option<string>, data: Option<D>, httpStatus: Option<int>): (e: ErrorObject<D>)
    ensures e.cls == JSendClientError
    ensures e.data == Env.ToObject(Env.CreateClientError(message, data, httpStatus))
    ensures e.message == MessageOr(message, "Client Error")
  {
    InitClientError(Super(JSendClientError), message, data, httpStatus)
  }

  /**
   * `new JSendClientValidationError(message, data)`: its `super()` runs the
   * JSendClientError constructor with no arguments, then its own body.
   */
  function NewClientValidationError<D>(message: Option<string>, data: Option<D>): (e: ErrorObject<D>)
    ensures e.cls == JSendClientValidationError
    ensures e.data == Env.ToObject(Env.CreateClientValidationError(message, data))
    ensures e.message == MessageOr(message, "Validation Error")
  {
    var self := InitClientError(Super(JSendClientValidationError), None, None, None);
    InitClientValidationError(self, message, data)
  }

  /** `new JSendServerError(message, data, httpStatus)`: `super()`, then the constructor body. */
  function NewServerError<D>(message: Option<string>, data: Option<D>, httpStatus: Option<int>): (e: ErrorObject<D>)
    ensures e.cls == JSendServerError
    ensures e.data == Env.ToObject(Env.CreateServerError(message, data, httpStatus))
    ensures e.message == MessageOr(message, "Server Error")
  {
    InitServerError(Super(JSendServerError), message, data, httpStatus)
  }

  /** The fields `super()` set are all overwritten: only the class survives from it. */
  lemma SuperIsOverwritten<D>(a: ErrorObject<D>, b: ErrorObject<D>, message: Option<string>, data: Option<D>, httpStatus: Option<int>)
    requires a.cls == b.cls
    ensures InitClientError(a, message, data, httpStatus) == InitClientError(b, message, data, httpStatus)
    ensures InitClientValidationError(a, message, data) == InitClientValidationError(b, message, data)
    ensures InitServerError(a, message, data, httpStatus) == InitServerError(b, message, data, httpStatus)
  {
  }

  // ---------------------------------------------------------------------------
  // The four constructors as one family.

  /** A `new` expression of one of the four classes, with its arguments. */
  datatype ErrorCall<D> =
    | JSendErrorCall(jsendObj: Option<Env.JsObject<D>>)
    | ClientErrorCall(message: Option<string>, data: Option<D>, httpStatus: Option<int>)
    | ClientValidationErrorCall(message: Option<string>, data: Option<D>)
    | ServerErrorCall(message: Option<string>, data: Option<D>, httpStatus: Option<int>)

  function Construct<D>(call: ErrorCall<D>): ErrorObject<D> {
    match call
    case JSendErrorCall(o) => NewJSendError(o)
    case ClientErrorCall(m, d, s) => NewClientError(m, d, s)
    case ClientValidationErrorCall(m, d) => NewClientValidationError(m, d)
    case ServerErrorCall(m, d, s) => NewServerError(m, d, s)
  }

  /** The class a `new` expression names. */
  function ClassOf<D>(call: ErrorCall<D>): ErrorClass {
    match call
    case JSendErrorCall(_) => JSendError
    case ClientErrorCall(_, _, _) => JSendClientError
    case ClientValidationErrorCall(_, _) => JSendClientValidationError
    case ServerErrorCall(_, _, _) => JSendServerError
  }

  /** The builder call behind each subclass constructor. */
  function BuilderOf<D>(call: ErrorCall<D>): Env.BuilderCall<D>
    requires !call.JSendErrorCall?
  {
    match call
    case ClientErrorCall(m, d, s) => Env.ClientErrorCall(m, d, s)
    case ClientValidationErrorCall(m, d) => Env.ClientValidationErrorCall(m, d)
    case ServerErrorCall(m, d, s) => Env.ServerErrorCall(m, d, s)
  }

  /**
   * Every constructed error has the class its `new` names, is a JSendError
   * and an Error, and its display message is its data's message when that is
   * truthy and the class default otherwise, so it is never empty.
   */
  lemma ConstructedError<D>(call: ErrorCall<D>)
    ensures Construct(call).cls == ClassOf(call)
    ensures IsA(Construct(call), JSendError) && IsA(Construct(call), Error)
    ensures Construct(call).message == MessageOr(Construct(call).data.message, DefaultMessage(ClassOf(call)))
    ensures Construct(call).message != ""
  {
    var c := ClassOf(call);
    InstanceOfIsAncestry(c, JSendError);
    InstanceOfIsAncestry(c, Error);
  }

  /**
   * A subclass error carries exactly the envelope its builder makes, and its
   * class agrees with that envelope's status: it is a JSendClientError exactly
   * when the status is "error", and a JSendServerError exactly when it is "fail".
   */
  lemma SubclassCarriesEnvelope<D>(call: ErrorCall<D>)
    requires !call.JSendErrorCall?
    ensures Env.FromObject(Construct(call).data) == Some(Env.Build(BuilderOf(call)))
    ensures IsA(Construct(call), JSendClientError) <==> Env.Build(BuilderOf(call)).status == Env.Error
    ensures IsA(Construct(call), JSendServerError) <==> Env.Build(BuilderOf(call)).status == Env.Fail
  {
    var c := ClassOf(call);
    InstanceOfIsAncestry(c, JSendClientError);
    InstanceOfIsAncestry(c, JSendServerError);
    Env.ObjectRoundTrip(Env.Build(BuilderOf(call)));
  }

  /** A validation error is a client error, a JSendError and an Error, and not a server error. */
  lemma ValidationErrorIsAClientError<D>(message: Option<string>, data: Option<D>)
    ensures var e := NewClientValidationError(message, data);
      IsA(e, JSendClientValidationError) && IsA(e, JSendClientError) && IsA(e, JSendError) && IsA(e, Error)
      && !IsA(e, JSendServerError)
  {
    InstanceOfIsAncestry(JSendClientValidationError, JSendServerError);
  }

  /** A client error is not a validation error nor a server error. */
  lemma ClientErrorIsNotAValidationError<D>(message: Option<string>, data: Option<D>, httpStatus: Option<int>)
    ensures var e := NewClientError(message, data, httpStatus);
      IsA(e, JSendClientError) && IsA(e, JSendError) && IsA(e, Error)
      && !IsA(e, JSendClientValidationError) && !IsA(e, JSendServerError)
  {
    InstanceOfIsAncestry(JSendClientError, JSendClientValidationError);
    InstanceOfIsAncestry(JSendClientError, JSendServerError);
  }

  /** A server error is a JSendError and an Error, but no kind of client error. */
  lemma ServerErrorIsNotAClientError<D>(message: Option<string>, data: Option<D>, httpStatus: Option<int>)
    ensures var e := NewServerError(message, data, httpStatus);
      IsA(e, JSendServerError) && IsA(e, JSendError) && IsA(e, Error)
      && !IsA(e, JSendClientError) && !IsA(e, JSendClientValidationError)
  {
    InstanceOfIsAncestry(JSendServerError, JSendClientError);
    InstanceOfIsAncestry(JSendServerError, JSendClientValidationError);
  }

  /** A plain JSendError is none of the subclasses. */
  lemma JSendErrorIsNoSubclass<D>(jsendObj: Option<Env.JsObject<D>>)
    ensures var e := NewJSendError(jsendObj);
      IsA(e, JSendError) && IsA(e, Error)
      && !IsA(e, JSendClientError) && !IsA(e, JSendClientValidationError) && !IsA(e, JSendServerError)
  {
    InstanceOfIsAncestry(JSendError, JSendClientError);
    InstanceOfIsAncestry(JSendError, JSendClientValidationError);
    InstanceOfIsAncestry(JSendError, JSendServerError);
  }
}
