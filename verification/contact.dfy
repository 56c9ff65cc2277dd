/**
 The POST /contact handler up to the point where it hands the two mails to
 the mail service: read the JSON body, apply the required-field gate, classify
 the message, and assemble the admin alert and the acknowledgement.

 The gate uses Python truthiness: a field passes when it is present and is not
 null, false, zero, the empty string, the empty list or the empty object.
 */
module Contact {
  import opened Intent
  import opened Reply

  datatype Option<T> = None | Some(value: T)

  /** A JSON value as the request parser delivers it. */
  datatype Value =
    | Null
    | Bool(b: bool)
    | Number(x: real)
    | Str(s: string)
    | Array(items: seq<Value>)
    | Object(fields: map<string, Value>)

  /** Python's truth value of a parsed JSON value: exactly the six "empty" values are falsy. */
  predicate Truthy(v: Value): (r: bool)
    ensures !r <==>
      v == Null || v == Bool(false) || v == Number(0.0)
      || v == Str("") || v == Array([]) || v == Object(map[])
  {
    match v
    case Null => false
    case Bool(b) => b
    case Number(x) => x != 0.0
    case Str(s) => s != []
    case Array(items) => items != []
    case Object(fields) => fields != map[]
  }

  /** The fields the gate demands. */
  predicate IsRequired(key: string) {
    key == "name" || key == "email" || key == "message"
  }

  /** `key` is present with a truthy value. */
  predicate Present(fields: map<string, Value>, key: string) {
    key in fields && Truthy(fields[key])
  }

  /** Every required field is present with a truthy value. */
  predicate AllRequiredPresent(fields: map<string, Value>): (r: bool)
    ensures r <==> forall key :: IsRequired(key) ==> key in fields && Truthy(fields[key])
  {
    Present(fields, "name") && Present(fields, "email") && Present(fields, "message")
  }

  /** `request.get_json(...) or {}`: a body that does not parse, or parses to a falsy value, reads as `{}`. */
  function Data(payload: Option<Value>): (data: Value)
    ensures Truthy(data) ==> payload == Some(data)
    ensures !Truthy(data) ==> data == Object(map[])
    ensures payload.Some? && Truthy(payload.value) ==> data == payload.value
  {
    match payload
    case None => Object(map[])
    case Some(v) => if Truthy(v) then v else Object(map[])
  }

  /** `dict.get(key)`: a missing key reads as null. */
  function Get(fields: map<string, Value>, key: string): (v: Value)
    ensures key in fields ==> v == fields[key]
    ensures key !in fields ==> !Truthy(v)
  {
    if key in fields then fields[key] else Null
  }

  /** The notification sent to the site owner. */
  datatype AdminAlert = AdminAlert(name: Value, email: Value, message: string, intent: Label)

  /** The acknowledgement sent back to the visitor. */
  datatype Acknowledgement = Acknowledgement(to: Value, subject: string, reply: Template<Value>)

  const AcknowledgementSubject: string := "Thanks for contacting me"

  /** What the handler answers, with the mails it builds when it gets that far. */
  datatype Outcome =
    | BadRequest   // 400, {"error": "All fields are required"}
    | ServerError  // 500, {"error": "Server error"}
    | Accepted(intent: Label, alert: AdminAlert, acknowledgement: Acknowledgement)  // 200, {"success": true}

  function Status(outcome: Outcome): (code: int)
    ensures code in {200, 400, 500}
  {
    match outcome
    case BadRequest => 400
    case ServerError => 500
    case Accepted(_, _, _) => 200
  }

  /**
   The handler. A body that is truthy but not an object makes `data.get`
   raise, and a truthy message that is not a string makes `message.lower()`
   raise; both are caught and answered with status 500. Failures of the mail
   service are caught and do not change the answer, so they do not appear.
   */
  function Handle(payload: Option<Value>): (r: Outcome)
    ensures r == BadRequest <==>
      Data(payload).Object? && !AllRequiredPresent(Data(payload).fields)
    ensures r.Accepted? <==>
      Data(payload).Object? && AllRequiredPresent(Data(payload).fields)
      && Data(payload).fields["message"].Str?
    ensures r.Accepted? ==>
      var fields := Data(payload).fields;
      var message := fields["message"].s;
      && message != []
      && r.intent == Classify(message)
      && r.alert == AdminAlert(fields["name"], fields["email"], message, r.intent)
      && r.acknowledgement.to == fields["email"]
      && r.acknowledgement.subject == AcknowledgementSubject
      && r.acknowledgement.reply == AutoReply(fields["name"], Name(r.intent))
  {
    var data := Data(payload);
    if !data.Object? then ServerError
    else
      var name := Get(data.fields, "name");
      var email := Get(data.fields, "email");
      var message := Get(data.fields, "message");
      if !Truthy(name) || !Truthy(email) || !Truthy(message) then BadRequest
      else if !message.Str? then ServerError
      else
        var intent := Classify(message.s);
        Accepted(
          intent,
          AdminAlert(name, email, message.s, intent),
          Acknowledgement(email, AcknowledgementSubject, AutoReply(name, Name(intent))))
  }

  /** A body that does not parse reads as `{}` and is refused by the gate, not as a server error. */
  lemma UnparsableBodyIsBadRequest()
    ensures Handle(None) == BadRequest
  {
  }

  /** Any falsy JSON body (null, false, 0, "", [], {}) is refused by the gate. */
  lemma FalsyBodyIsBadRequest(v: Value)
    requires !Truthy(v)
    ensures Handle(Some(v)) == BadRequest
  {
    UnparsableBodyIsBadRequest();
  }

  /** A truthy body that is not an object has no `get` and ends in status 500. */
  lemma TruthyNonObjectIsServerError(v: Value)
    requires Truthy(v) && !v.Object?
    ensures Handle(Some(v)) == ServerError
  {
  }

  /** A missing or falsy required field is refused with status 400, whatever the other fields hold. */
  lemma MissingFieldIsBadRequest(fields: map<string, Value>, key: string)
    requires IsRequired(key) && !Present(fields, key)
    ensures Handle(Some(Object(fields))) == BadRequest
    ensures Status(Handle(Some(Object(fields)))) == 400
  {
  }

  /**
   When the handler accepts, the acknowledgement's body is the one that
   belongs to the label, and its headline is "Thanks for getting in touch"
   exactly for client messages.
   */
  lemma AcknowledgementMatchesIntent(payload: Option<Value>)
    requires Handle(payload).Accepted?
    ensures Handle(payload).acknowledgement.reply.body == BodyFor(Handle(payload).intent)
    ensures Handle(payload).acknowledgement.reply.headline == GettingInTouch
      <==> Handle(payload).intent == Client
  {
    var r := Handle(payload);
    AutoReplyFollowsLabel(Data(payload).fields["name"], r.intent);
  }

  /**
   The gate tests emptiness, not blankness: a message made only of spaces
   passes it and is classified like any other text.
   */
  lemma BlankMessagePassesGate(name: Value, email: Value)
    requires Truthy(name) && Truthy(email)
    ensures Handle(Some(Object(map["name" := name, "email" := email, "message" := Str(" ")]))).Accepted?
  {
    var fields := map["name" := name, "email" := email, "message" := Str(" ")];
    assert Truthy(Object(fields)) by {
      assert "name" in fields;
    }
  }
}
