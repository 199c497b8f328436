/** The concrete cases the library's test suite checks, stated over the model. */
module JSendScenarios {
  import opened Wrappers
  import Env = JSendEnvelope
  import opened JSendErrors

  /** The JSON payloads the test cases use. */
  datatype Json = JStr(s: string) | JObj(fields: map<string, Json>)

  lemma JSendErrorKeepsItsObject()
    ensures var obj := Env.JsObject(None, None,
                                    Some(JObj(map["foo" := JStr("bar"), "bif" := JObj(map["boz" := JStr("baz")])])),
                                    Some("This is the message"));
      var err := NewJSendError(Some(obj));
      IsA(err, Error) && IsA(err, JSendError) && err.data == obj && err.message == "This is the message"
  {
  }

  lemma JSendErrorOfNothing()
    ensures var err := NewJSendError<Json>(None);
      err.data == Env.EmptyObject() && err.message == "Error"
  {
  }

  lemma ClientErrorDefaultsAndOverride()
    ensures var err1 := NewClientError(Some("You messed up"), Some(JObj(map["you" := JStr("sent bad data")])), None);
      err1.data == Env.JsObject(Some(400), Some("error"), Some(JObj(map["you" := JStr("sent bad data")])), Some("You messed up"))
      && err1.message == "You messed up"
    ensures var err2 := NewClientError(Some("You messed up again!"), Some(JObj(map["you" := JStr("sent invalid data")])), Some(422));
      err2.data == Env.JsObject(Some(422), Some("error"), Some(JObj(map["you" := JStr("sent invalid data")])), Some("You messed up again!"))
      && err2.message == "You messed up again!"
  {
  }

  lemma ClientValidationErrorIs422()
    ensures var err := NewClientValidationError(Some("You messed up"), Some(JObj(map["you" := JStr("sent bad data")])));
      err.data == Env.JsObject(Some(422), Some("error"), Some(JObj(map["you" := JStr("sent bad data")])), Some("You messed up"))
      && err.message == "You messed up"
  {
  }

  lemma ServerErrorDefaultsAndOverride()
    ensures var err1 := NewServerError(Some("Ooops.  Something went seriously wrong"), Some(JObj(map["us" := JStr("sorry about that")])), None);
      err1.data == Env.JsObject(Some(500), Some("fail"), Some(JObj(map["us" := JStr("sorry about that")])), Some("Ooops.  Something went seriously wrong"))
      && err1.message == "Ooops.  Something went seriously wrong"
    ensures var err2 := NewServerError(Some("Come back later!"), Some(JObj(map["advice" := JStr("coming soon...come back later")])), Some(501));
      err2.data == Env.JsObject(Some(501), Some("fail"), Some(JObj(map["advice" := JStr("coming soon...come back later")])), Some("Come back later!"))
      && err2.message == "Come back later!"
  {
  }
}
