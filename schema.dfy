/**
 * The request-body checking the three HTTP routes share: a parsed JSON body, the Zod
 * schema primitives they use (`z.string()` with `min` and `regex`, `z.number()` with `min`
 * and `max`, `z.enum`, `z.boolean()`, `default`, `optional`), and the JSON replies the routes
 * send.
 *
 * A field parse follows Zod's statuses: a value of the wrong type (or a missing required
 * value) rejects the field outright (`value` is `None`), while a failed check on a value of
 * the right type records an issue and keeps the value. Every field of an object is parsed;
 * the issues are collected in field order.
 */
module Schema {
  import opened Wrappers
  import opened Text

  /** A JSON value as `request.json()` returns it. */
  datatype Json =
    | JNull
    | JBool(b: bool)
    | JNumber(n: real)
    | JString(s: string)
    | JArray(items: seq<Json>)
    | JObject(fields: map<string, Json>)

  datatype IssueKind = InvalidType | TooSmall | TooBig | InvalidString | InvalidEnumValue | Custom

  /** One entry of `ZodError.errors`; `message` is `None` where Zod words the message itself. */
  datatype Issue = Issue(path: seq<string>, kind: IssueKind, message: Option<string>)

  /** The parse of one field: its value unless it was rejected outright, and its issues. */
  datatype Parsed<T> = Parsed(value: Option<T>, issues: seq<Issue>)

  /** The outcome of `schema.parse(body)`: the validated data, or the `ZodError`'s issues. */
  datatype Checked<T> = Accepted(data: T) | Rejected(issues: seq<Issue>)

  /**
   * A route's JSON reply: `{success: true, data, message?}` with status 200, or
   * `{success: false, error, details?}` with the given status (`details` is empty where the
   * route sends none).
   */
  datatype Reply<T> =
    | Success(data: T, message: Option<string>)
    | Failure(status: nat, error: string, details: seq<Issue>)

  function Status<T>(r: Reply<T>): nat {
    if r.Success? then 200 else r.status
  }

  const InvalidInputData := "Invalid input data"
  const InternalServerError := "Internal server error"

  /** A property of the body object: `None` stands for `undefined`. */
  function Property(fields: map<string, Json>, key: string): (v: Option<Json>)
    ensures v.Some? <==> key in fields
    ensures v.Some? ==> v.value == fields[key]
  {
    if key in fields then Some(fields[key]) else None
  }

  /** `z.string()`: anything but a string, `undefined` included, is a type error. */
  function StringAt(v: Option<Json>, path: seq<string>): (p: Parsed<string>)
    ensures p.value.Some? <==> v.Some? && v.value.JString?
    ensures p.value.Some? ==> p.value.value == v.value.s && p.issues == []
    ensures p.value.None? ==> p.issues == [Issue(path, InvalidType, None)]
  {
    if v.Some? && v.value.JString? then Parsed(Some(v.value.s), [])
    else Parsed(None, [Issue(path, InvalidType, None)])
  }

  /** `.default(d)`: an absent value is replaced by `d` before the inner schema runs. */
  function Defaulted(v: Option<Json>, d: Json): (w: Option<Json>)
    ensures w.Some?
    ensures v.Some? ==> w == v
  {
    if v.None? then Some(d) else v
  }

  /** `z.string().optional()`: absent is accepted as absent; `null` is still a type error. */
  function OptionalStringAt(v: Option<Json>, path: seq<string>): (p: Parsed<Option<string>>)
    ensures v.None? ==> p == Parsed(Some(None), [])
    ensures v.Some? && v.value.JString? ==> p == Parsed(Some(Some(v.value.s)), [])
    ensures p.issues == [] <==> v.None? || v.value.JString?
  {
    if v.None? then Parsed(Some(None), [])
    else if v.value.JString? then Parsed(Some(Some(v.value.s)), [])
    else Parsed(None, [Issue(path, InvalidType, None)])
  }

  /** `.min(n, message)` on a string: fewer than `n` UTF-16 code units adds one issue. */
  function MinLength(p: Parsed<string>, path: seq<string>, n: nat, message: string): (q: Parsed<string>)
    ensures q.value == p.value
    ensures |p.issues| <= |q.issues| <= |p.issues| + 1 && q.issues[..|p.issues|] == p.issues
    ensures q.issues == p.issues <==> p.value.None? || Utf16Length(p.value.value) >= n
    ensures q.issues != p.issues ==> q.issues[|p.issues|] == Issue(path, TooSmall, Some(message))
  {
    if p.value.Some? && Utf16Length(p.value.value) < n then Parsed(p.value, p.issues + [Issue(path, TooSmall, Some(message))])
    else p
  }

  /** `.regex(pattern, message)` (or `.email(message)`): a string the test refuses adds one issue. */
  function Matching(p: Parsed<string>, path: seq<string>, test: string -> bool, message: string): (q: Parsed<string>)
    ensures q.value == p.value
    ensures |p.issues| <= |q.issues| <= |p.issues| + 1 && q.issues[..|p.issues|] == p.issues
    ensures q.issues == p.issues <==> p.value.None? || test(p.value.value)
    ensures q.issues != p.issues ==> q.issues[|p.issues|] == Issue(path, InvalidString, Some(message))
  {
    if p.value.Some? && !test(p.value.value) then Parsed(p.value, p.issues + [Issue(path, InvalidString, Some(message))])
    else p
  }

  /** `z.number()`: a JSON number, and nothing else. */
  function NumberAt(v: Option<Json>, path: seq<string>): (p: Parsed<real>)
    ensures p.value.Some? <==> v.Some? && v.value.JNumber?
    ensures p.value.Some? ==> p.value.value == v.value.n && p.issues == []
    ensures p.value.None? ==> p.issues == [Issue(path, InvalidType, None)]
  {
    if v.Some? && v.value.JNumber? then Parsed(Some(v.value.n), [])
    else Parsed(None, [Issue(path, InvalidType, None)])
  }

  /** `.min(lo, message)` on a number (inclusive). */
  function AtLeast(p: Parsed<real>, path: seq<string>, lo: real, message: string): (q: Parsed<real>)
    ensures q.value == p.value
    ensures q.issues == p.issues <==> p.value.None? || p.value.value >= lo
    ensures q.issues != p.issues ==> q.issues == p.issues + [Issue(path, TooSmall, Some(message))]
  {
    if p.value.Some? && p.value.value < lo then Parsed(p.value, p.issues + [Issue(path, TooSmall, Some(message))])
    else p
  }

  /** `.max(hi, message)` on a number (inclusive). */
  function AtMost(p: Parsed<real>, path: seq<string>, hi: real, message: string): (q: Parsed<real>)
    ensures q.value == p.value
    ensures q.issues == p.issues <==> p.value.None? || p.value.value <= hi
    ensures q.issues != p.issues ==> q.issues == p.issues + [Issue(path, TooBig, Some(message))]
  {
    if p.value.Some? && p.value.value > hi then Parsed(p.value, p.issues + [Issue(path, TooBig, Some(message))])
    else p
  }

  /** `z.enum(options)`: a string that is not one of the options is rejected outright. */
  function EnumAt(v: Option<Json>, path: seq<string>, options: seq<string>): (p: Parsed<string>)
    ensures p.value.Some? <==> v.Some? && v.value.JString? && v.value.s in options
    ensures p.value.Some? ==> p.value.value == v.value.s && p.issues == []
    ensures p.value.None? ==> |p.issues| == 1 && p.issues[0].path == path && p.issues[0].message.None?
  {
    if v.Some? && v.value.JString? then
      if v.value.s in options then Parsed(Some(v.value.s), []) else Parsed(None, [Issue(path, InvalidEnumValue, None)])
    else Parsed(None, [Issue(path, InvalidType, None)])
  }

  /** `z.boolean()`. */
  function BooleanAt(v: Option<Json>, path: seq<string>): (p: Parsed<bool>)
    ensures p.value.Some? <==> v.Some? && v.value.JBool?
    ensures p.value.Some? ==> p.value.value == v.value.b && p.issues == []
    ensures p.value.None? ==> p.issues == [Issue(path, InvalidType, None)]
  {
    if v.Some? && v.value.JBool? then Parsed(Some(v.value.b), [])
    else Parsed(None, [Issue(path, InvalidType, None)])
  }

  /** `.refine(val => val === true, message)` on a boolean: `false` adds a custom issue. */
  function MustBeTrue(p: Parsed<bool>, path: seq<string>, message: string): (q: Parsed<bool>)
    ensures q.value == p.value
    ensures q.issues == p.issues <==> p.value != Some(false)
    ensures q.issues != p.issues ==> q.issues == p.issues + [Issue(path, Custom, Some(message))]
  {
    if p.value == Some(false) then Parsed(p.value, p.issues + [Issue(path, Custom, Some(message))]) else p
  }

  /** The reply to a body that is not an object at all: Zod's single type error at the root. */
  const NotAnObject := [Issue([], InvalidType, None)]

  /** A schema failure: 400 with the issues as details. */
  function Invalid<T>(issues: seq<Issue>): (r: Reply<T>)
    ensures Status(r) == 400 && r.Failure? && r.details == issues
  {
    Failure(400, InvalidInputData, issues)
  }

  /** Anything thrown that is not a `ZodError`, an unreadable body included: 500. */
  function Internal<T>(): (r: Reply<T>)
    ensures Status(r) == 500 && r.Failure? && r.details == []
  {
    Failure(500, InternalServerError, [])
  }
}
