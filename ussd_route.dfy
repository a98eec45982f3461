/**
 * The USSD gateway's HTTP endpoint (WeThrift/src/app/api/ussd/route.ts): `ussdRequestSchema`
 * checks the body, and an accepted request is handed to the dialog engine, whose response is
 * sent back unchanged inside `{success: true, data}`.
 */
module UssdRoute {
  import opened Wrappers
  import opened Text
  import opened Schema
  import Ussd

  /** The three fields of an accepted request. */
  datatype UssdRequest = UssdRequest(sessionId: string, phoneNumber: string, userInput: string)

  /** A property that is a string with at least one character. */
  predicate NonEmptyString(fields: map<string, Json>, key: string) {
    key in fields && fields[key].JString? && |fields[key].s| > 0
  }

  /** The bodies `ussdRequestSchema` accepts. The phone pattern is matched as sent: no white space is removed. */
  predicate Acceptable(body: Json) {
    && body.JObject?
    && NonEmptyString(body.fields, "sessionId")
    && "phoneNumber" in body.fields && body.fields["phoneNumber"].JString?
    && MatchesNigerianPhone(body.fields["phoneNumber"].s)
    && NonEmptyString(body.fields, "userInput")
  }

  /** `ussdRequestSchema.parse(body)`. */
  function ParseRequest(body: Json): (c: Checked<UssdRequest>)
    ensures c.Accepted? <==> Acceptable(body)
    ensures c.Accepted? ==> c.data == UssdRequest(body.fields["sessionId"].s, body.fields["phoneNumber"].s, body.fields["userInput"].s)
    ensures c.Rejected? ==> |c.issues| > 0
  {
    if !body.JObject? then Rejected(NotAnObject)
    else
      var f := body.fields;
      var sessionId := MinLength(StringAt(Property(f, "sessionId"), ["sessionId"]), ["sessionId"], 1, "Session ID is required");
      var phone := Matching(StringAt(Property(f, "phoneNumber"), ["phoneNumber"]), ["phoneNumber"], MatchesNigerianPhone, "Invalid Nigerian phone number");
      var input := MinLength(StringAt(Property(f, "userInput"), ["userInput"]), ["userInput"], 1, "User input is required");
      var issues := sessionId.issues + phone.issues + input.issues;
      if issues == [] then
        Accepted(UssdRequest(sessionId.value.value, phone.value.value, input.value.value))
      else
        Rejected(issues)
  }

  /**
   * `POST`: an unreadable body (`request.json()` throws) is a 500, a refused body a 400 with
   * Zod's issues, and an accepted one is answered with the engine's response for it.
   */
  function Answer(body: Option<Json>, engine: UssdRequest -> Ussd.UssdResponse): (r: Reply<Ussd.UssdResponse>)
    ensures Status(r) == 200 <==> body.Some? && Acceptable(body.value)
    ensures Status(r) == 400 <==> body.Some? && !Acceptable(body.value)
    ensures Status(r) == 500 <==> body.None?
    ensures r.Success? ==> r == Success(engine(ParseRequest(body.value).data), None)
    ensures Status(r) == 400 ==> r.details == ParseRequest(body.value).issues && |r.details| > 0
  {
    if body.None? then Internal()
    else
      match ParseRequest(body.value)
      case Rejected(issues) => Invalid(issues)
      case Accepted(request) => Success(engine(request), None)
  }

  /** The engine's answer to a request, on a given store, faults and lookups. */
  function EngineAnswer(store: map<string, Ussd.Session>, f: Ussd.Faults, env: Ussd.Lookups): UssdRequest -> Ussd.UssdResponse {
    (request: UssdRequest) => Ussd.TurnResponse(store, request.sessionId, request.phoneNumber, request.userInput, f, env)
  }

  /**
   * `POST` against the engine: only an accepted body reaches `processUSSDRequest`, so a
   * refused or unreadable one leaves every session as it was.
   */
  method Post(engine: Ussd.UssdEngine, body: Option<Json>, f: Ussd.Faults, env: Ussd.Lookups) returns (r: Reply<Ussd.UssdResponse>)
    requires engine.Valid()
    modifies engine
    ensures engine.Valid()
    ensures r == Answer(body, EngineAnswer(old(engine.sessions), f, env))
    ensures !(body.Some? && Acceptable(body.value)) ==> engine.sessions == old(engine.sessions)
    ensures body.Some? && Acceptable(body.value) ==>
      var q := ParseRequest(body.value).data;
      engine.sessions == Ussd.TurnStore(old(engine.sessions), q.sessionId, q.phoneNumber, q.userInput, f, env.accounts)
  {
    if body.None? {
      return Internal();
    }
    match ParseRequest(body.value) {
      case Rejected(issues) =>
        r := Invalid(issues);
      case Accepted(q) =>
        var response := engine.ProcessUssdRequest(q.sessionId, q.phoneNumber, q.userInput, f, env);
        r := Success(response, None);
    }
  }

  /**
   * The route matches the phone pattern on the number as sent, while the engine's own
   * validator removes white space first: any valid number with a space in front passes the
   * engine's check and is refused by the route.
   */
  lemma {:induction false} LeadingSpaceOnlyPassesEngine(core: string)
    requires IsMobileCore(core)
    ensures Ussd.IsValidPhoneNumber([' '] + core)
    ensures !MatchesNigerianPhone([' '] + core)
  {
    var spaced := [' '] + core;
    forall i | 0 <= i < |core| ensures !IsSpace(core[i]) {
      if i >= 2 {
        assert core[i] == core[2..][i - 2];
      }
    }
    RemoveSpacesKeepsSpaceFree(core);
    assert spaced[1..] == core;
    assert spaced[0] == ' ';
  }
}
