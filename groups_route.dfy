/**
 * The groups collection endpoint (WeThrift/src/app/api/groups/route.ts). `GET` lists either a
 * user's groups or the result of a search, chosen by the query parameters; `POST` checks the
 * body against `createGroupSchema`, requires a signed-in user, and creates the group with the
 * camel-case fields renamed, empty `settings` and a commission rate of 2.5.
 */
module GroupsRoute {
  import opened Wrappers
  import opened Text
  import opened Schema
  import Groups

  /* ---------------------------------------------------------------- GET */

  /** `searchParams.get(...)` of the three parameters; `None` is a missing parameter. */
  datatype SearchParams = SearchParams(userId: Option<string>, query: Option<string>, limit: Option<string>)

  /** JavaScript truthiness of a parameter: present and not empty. */
  predicate Filled(s: Option<string>) {
    s.Some? && |s.value| > 0
  }

  /** The longest run of decimal digits at the start of `s`. */
  function DigitsPrefix(s: string): (d: string)
    ensures |d| <= |s| && d == s[..|d|] && AllDigits(d)
    ensures |d| < |s| ==> !IsDigit(s[|d|])
  {
    if s != [] && IsDigit(s[0]) then [s[0]] + DigitsPrefix(s[1..]) else []
  }

  /** The number a run of decimal digits denotes. */
  function DigitsValue(d: string): nat
    requires AllDigits(d)
  {
    if d == [] then 0 else DigitsValue(d[..|d| - 1]) * 10 + (d[|d| - 1] as int - '0' as int)
  }

  /**
   * `parseInt(s)` for decimal text: leading white space skipped, an optional sign, then the
   * digits up to the first non-digit; `None` (NaN) when there are no digits.
   */
  function ParseInt(s: string): (n: Option<int>)
    ensures n.None? <==> DigitsPrefix(Unsigned(TrimStart(s))) == []
  {
    var t := TrimStart(s);
    var d := DigitsPrefix(Unsigned(t));
    if d == [] then None
    else
      var v: int := DigitsValue(d);
      if |t| > 0 && t[0] == '-' then Some(-v) else Some(v)
  }

  /** The text after an optional leading sign. */
  function Unsigned(t: string): string {
    if |t| > 0 && (t[0] == '-' || t[0] == '+') then t[1..] else t
  }

  lemma {:induction false} DigitsPrefixOfDigits(d: string)
    requires AllDigits(d)
    ensures DigitsPrefix(d) == d
  {
    if d != [] {
      DigitsPrefixOfDigits(d[1..]);
    }
  }

  lemma {:induction false} DigitsValueOfNat(n: nat)
    ensures DigitsValue(NatToString(n)) == n
  {
    if n >= 10 {
      var s := NatToString(n);
      assert s[..|s| - 1] == NatToString(n / 10);
      DigitsValueOfNat(n / 10);
    }
  }

  /** `parseInt` reads back every number `${n}` prints. */
  lemma ParseIntOfNat(n: nat)
    ensures ParseInt(NatToString(n)) == Some(n)
  {
    var s := NatToString(n);
    assert !IsSpace(s[0]) by { assert IsDigit(s[0]); }
    assert TrimStart(s) == s;
    assert Unsigned(s) == s by { assert IsDigit(s[0]); }
    DigitsPrefixOfDigits(s);
    DigitsValueOfNat(n);
  }

  /** `parseInt(searchParams.get('limit') || '20')`. */
  function Limit(limit: Option<string>): Option<int> {
    ParseInt(if Filled(limit) then limit.value else "20")
  }

  /** A missing or empty `limit` searches for 20 groups. */
  lemma DefaultLimit(limit: Option<string>)
    requires !Filled(limit)
    ensures Limit(limit) == Some(20)
  {
    assert NatToString(20) == "20" by {
      assert NatToString(2) == "2";
    }
    ParseIntOfNat(20);
  }

  /** A service's `{ groups, error }`: the groups with 200, or the error's message with 500. */
  function FromService(result: Result<seq<Groups.Group>, string>): (r: Reply<seq<Groups.Group>>)
    ensures result.Ok? <==> Status(r) == 200
    ensures result.Ok? ==> r.Success? && r.data == result.value
    ensures result.Err? ==> Status(r) == 500 && r.error == result.error
  {
    match result
    case Ok(groups) => Success(groups, None)
    case Err(message) => Failure(500, message, [])
  }

  const MissingParameters := "Missing required parameters"

  /**
   * `GET`: `userId` lists that user's groups, otherwise `query` searches with the limit,
   * otherwise 400. The two services are the lookups `getUserGroups` and `searchGroups`.
   */
  function Get(p: SearchParams, userGroups: string -> Result<seq<Groups.Group>, string>,
               search: (string, Option<int>) -> Result<seq<Groups.Group>, string>): (r: Reply<seq<Groups.Group>>)
    ensures Status(r) == 400 <==> !Filled(p.userId) && !Filled(p.query)
    ensures Status(r) == 400 ==> r == Failure(400, MissingParameters, [])
  {
    if Filled(p.userId) then FromService(userGroups(p.userId.value))
    else if Filled(p.query) then FromService(search(p.query.value, Limit(p.limit)))
    else Failure(400, MissingParameters, [])
  }

  /** A user id wins over a query: with `userId` set, the query and limit do not matter. */
  lemma UserIdTakesPrecedence(p: SearchParams, query: Option<string>, limit: Option<string>,
                              userGroups: string -> Result<seq<Groups.Group>, string>,
                              search: (string, Option<int>) -> Result<seq<Groups.Group>, string>)
    requires Filled(p.userId)
    ensures Get(p, userGroups, search) == Get(p.(query := query, limit := limit), userGroups, search)
    ensures Get(p, userGroups, search) == FromService(userGroups(p.userId.value))
  {
  }

  /** Without a user id, a query is searched with a limit of 20 unless one is given. */
  lemma SearchUsesDefaultLimit(p: SearchParams, userGroups: string -> Result<seq<Groups.Group>, string>,
                               search: (string, Option<int>) -> Result<seq<Groups.Group>, string>)
    requires !Filled(p.userId) && Filled(p.query) && !Filled(p.limit)
    ensures Get(p, userGroups, search) == FromService(search(p.query.value, Some(20)))
  {
    DefaultLimit(p.limit);
  }

  /* ---------------------------------------------------------------- POST */

  const GroupTypes := ["community", "formal", "corporate"]

  /** What `createGroupSchema` yields. */
  datatype CreateGroupRequest = CreateGroupRequest(
    name: string,
    description: string,
    groupType: string,
    maxMembers: real,
    privacySettings: Groups.Privacy)

  predicate IsBoolean(fields: map<string, Json>, key: string) {
    key in fields && fields[key].JBool?
  }

  /** The bodies `createGroupSchema` accepts. Lengths are counted in UTF-16 code units. */
  predicate Acceptable(body: Json) {
    && body.JObject?
    && var f := body.fields;
    && "name" in f && f["name"].JString? && Utf16Length(f["name"].s) >= 2
    && "description" in f && f["description"].JString? && Utf16Length(f["description"].s) >= 10
    && "groupType" in f && f["groupType"].JString? && f["groupType"].s in GroupTypes
    && "maxMembers" in f && f["maxMembers"].JNumber? && 2.0 <= f["maxMembers"].n <= 1000.0
    && "privacySettings" in f && f["privacySettings"].JObject?
    && IsBoolean(f["privacySettings"].fields, "isPublic")
    && IsBoolean(f["privacySettings"].fields, "allowInvites")
    && IsBoolean(f["privacySettings"].fields, "requireApproval")
  }

  /** The nested `privacySettings` object: three booleans. */
  function PrivacyAt(v: Option<Json>, path: seq<string>): (p: Parsed<Groups.Privacy>)
    ensures p.value.Some? <==>
      v.Some? && v.value.JObject? && IsBoolean(v.value.fields, "isPublic")
      && IsBoolean(v.value.fields, "allowInvites") && IsBoolean(v.value.fields, "requireApproval")
    ensures p.value.Some? ==> p.issues == [] && p.value.value == Groups.Privacy(
      v.value.fields["isPublic"].b, v.value.fields["allowInvites"].b, v.value.fields["requireApproval"].b)
    ensures p.value.None? ==> |p.issues| > 0
  {
    if v.Some? && v.value.JObject? then
      var f := v.value.fields;
      var isPublic := BooleanAt(Property(f, "isPublic"), path + ["isPublic"]);
      var allowInvites := BooleanAt(Property(f, "allowInvites"), path + ["allowInvites"]);
      var requireApproval := BooleanAt(Property(f, "requireApproval"), path + ["requireApproval"]);
      if isPublic.value.Some? && allowInvites.value.Some? && requireApproval.value.Some? then
        Parsed(Some(Groups.Privacy(isPublic.value.value, allowInvites.value.value, requireApproval.value.value)), [])
      else
        Parsed(None, isPublic.issues + allowInvites.issues + requireApproval.issues)
    else Parsed(None, [Issue(path, InvalidType, None)])
  }

  /** `createGroupSchema.parse(body)`. */
  function ParseCreateGroup(body: Json): (c: Checked<CreateGroupRequest>)
    ensures c.Accepted? <==> Acceptable(body)
    ensures c.Accepted? ==>
      var f := body.fields;
      && c.data.name == f["name"].s && c.data.description == f["description"].s
      && c.data.groupType == f["groupType"].s && c.data.maxMembers == f["maxMembers"].n
      && c.data.privacySettings == Groups.Privacy(f["privacySettings"].fields["isPublic"].b,
           f["privacySettings"].fields["allowInvites"].b, f["privacySettings"].fields["requireApproval"].b)
    ensures c.Rejected? ==> |c.issues| > 0
  {
    if !body.JObject? then Rejected(NotAnObject)
    else
      var f := body.fields;
      var name := MinLength(StringAt(Property(f, "name"), ["name"]), ["name"], 2, "Group name must be at least 2 characters");
      var description := MinLength(StringAt(Property(f, "description"), ["description"]), ["description"], 10,
                                   "Description must be at least 10 characters");
      var groupType := EnumAt(Property(f, "groupType"), ["groupType"], GroupTypes);
      var maxMembers := AtMost(AtLeast(NumberAt(Property(f, "maxMembers"), ["maxMembers"]), ["maxMembers"], 2.0,
                                       "Maximum members must be at least 2"),
                               ["maxMembers"], 1000.0, "Maximum members cannot exceed 1000");
      var privacy := PrivacyAt(Property(f, "privacySettings"), ["privacySettings"]);
      var issues := name.issues + description.issues + groupType.issues + maxMembers.issues + privacy.issues;
      if issues == [] then
        Accepted(CreateGroupRequest(name.value.value, description.value.value, groupType.value.value,
                                    maxMembers.value.value, privacy.value.value))
      else
        Rejected(issues)
  }

  /** `groupData`: the request's fields under the table's names, plus the fixed defaults. */
  function Draft(q: CreateGroupRequest): (d: Groups.GroupDraft)
    ensures d.settings == map[] && d.commissionRate == 2.5
  {
    Groups.GroupDraft(q.name, q.description, q.groupType, q.maxMembers, q.privacySettings, map[], 2.5)
  }

  /** Every group the route creates has a known type and room for 2 to 1000 members. */
  lemma AcceptedDraftInBounds(body: Json)
    requires Acceptable(body)
    ensures var d := Draft(ParseCreateGroup(body).data);
      d.groupType in GroupTypes && 2.0 <= d.maxMembers <= 1000.0 && Utf16Length(d.name) >= 2
      && Utf16Length(d.description) >= 10
  {
  }

  const Unauthorized := "Unauthorized"
  const GroupCreated := "Group created successfully"

  /**
   * `POST`: an unreadable body is a 500, a refused one a 400, a missing user a 401; only then
   * is the group created (`id`, the codes and the time are the values the service generates),
   * and a failed insert is a 500 with its message.
   */
  method Post(dir: Groups.GroupDirectory, body: Option<Json>, currentUser: Option<string>,
              id: string, groupCode: string, inviteCode: string, at: string)
    returns (r: Reply<Groups.Group>)
    requires dir.Valid()
    modifies dir
    ensures dir.Valid()
    ensures body.None? ==> r == Internal()
    ensures body.Some? && !Acceptable(body.value) ==> r == Invalid(ParseCreateGroup(body.value).issues)
    ensures body.Some? && Acceptable(body.value) && currentUser.None? ==> r == Failure(401, Unauthorized, [])
    ensures !(body.Some? && Acceptable(body.value) && currentUser.Some? && id !in old(dir.groups)) ==>
      dir.groups == old(dir.groups) && dir.members == old(dir.members)
    ensures body.Some? && Acceptable(body.value) && currentUser.Some? ==>
      var d := Draft(ParseCreateGroup(body.value).data);
      && (id in old(dir.groups) ==> r == Failure(500, Groups.Message(Groups.DuplicateId), []))
      && (id !in old(dir.groups) ==>
            && r == Success(Groups.NewGroup(d, currentUser.value, id, groupCode, inviteCode), Some(GroupCreated))
            && dir.members == old(dir.members) + [Groups.Membership(id, currentUser.value, Groups.Admin, Groups.Active, at)]
            && dir.groups == old(dir.groups)[id := Groups.NewGroup(d, currentUser.value, id, groupCode, inviteCode)
                                                      .(currentMembers := Groups.ActiveCount(dir.members, id))])
    ensures old(dir.Consistent()) ==> dir.Consistent()
  {
    if body.None? {
      return Internal();
    }
    match ParseCreateGroup(body.value) {
      case Rejected(issues) =>
        r := Invalid(issues);
      case Accepted(q) =>
        if currentUser.None? {
          return Failure(401, Unauthorized, []);
        }
        var created := dir.CreateGroup(Draft(q), currentUser.value, id, groupCode, inviteCode, at);
        match created {
          case Err(e) => r := Failure(500, Groups.Message(e), []);
          case Ok(group) => r := Success(group, Some(GroupCreated));
        }
    }
  }
}
