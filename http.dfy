/** The outside world as the dashboard sees it: requests it sends to the REST
    backend, the replies it gets, and the errors its services throw. Transport
    itself is not modelled; a reply is a parameter of every call. */
module Http {

  datatype Option<+T> = None | Some(value: T)

  /** What the backend answered: a success carrying the response body, or a
      failure that may carry an HTTP status (none when no response arrived). */
  datatype Reply<+T> = Ok(value: T) | Fail(status: Option<int>)

  /** A thrown JavaScript `Error`; only its `message` is observable. */
  datatype Error = Error(message: string)

  /** A settled promise: resolved with a value or rejected with an error. */
  datatype Result<+T> = Success(value: T) | Failure(error: Error)

  datatype Verb = Get | Post | Put | Delete

  /** A browser `File` chosen by the user; only its identity matters here. */
  datatype File = File(name: string)

  /** One value of a multipart `FormData` entry. */
  datatype FormValue = Text(text: string) | Blob(file: File)

  datatype Field = Field(name: string, value: FormValue)

  datatype JsonValue = JNumber(n: int) | JString(s: string)

  datatype Body =
    | NoBody
    | Multipart(fields: seq<Field>)
    | Json(members: seq<(string, JsonValue)>)

  /** A request relative to the API base URL. */
  datatype Request = Request(verb: Verb, path: string, body: Body)

  predicate IsDigit(c: char) {
    '0' <= c <= '9'
  }

  function DigitChar(d: nat): (c: char)
    requires d < 10
    ensures IsDigit(c) && c as int - '0' as int == d
  {
    ('0' as int + d) as char
  }

  /** JavaScript's `toString()` on an integral number: decimal digits, with
      a leading '-' for negatives. */
  function NumberText(n: int): (s: string)
    ensures s != []
    ensures s[0] == '-' <==> n < 0
    ensures forall i :: (if n < 0 then 1 else 0) <= i < |s| ==> IsDigit(s[i])
    decreases if n < 0 then 1 - n else n
  {
    if n < 0 then "-" + NumberText(-n)
    else if n < 10 then [DigitChar(n)]
    else NumberText(n / 10) + [DigitChar(n % 10)]
  }

  /** The value of a string of decimal digits, most significant first. */
  function DigitsValue(s: string): nat
    requires forall i :: 0 <= i < |s| ==> IsDigit(s[i])
  {
    if s == [] then 0
    else
      assert IsDigit(s[|s| - 1]);
      10 * DigitsValue(s[..|s| - 1]) + (s[|s| - 1] as int - '0' as int)
  }

  /** Reads the text of an integer: an optional '-' and then one or more
      decimal digits; any other text has no integer value. */
  function ParseInteger(s: string): Option<int> {
    if |s| > 1 && s[0] == '-' && forall i :: 1 <= i < |s| ==> IsDigit(s[i]) then
      var magnitude: int := DigitsValue(s[1..]);
      Some(-magnitude)
    else if |s| > 0 && forall i :: 0 <= i < |s| ==> IsDigit(s[i]) then
      Some(DigitsValue(s))
    else None
  }

  lemma {:induction false} NaturalTextValue(n: nat)
    ensures DigitsValue(NumberText(n)) == n
    decreases n
  {
    if n >= 10 {
      var s := NumberText(n);
      assert s[..|s| - 1] == NumberText(n / 10);
      NaturalTextValue(n / 10);
    }
  }

  /** The text of an integer reads back as that integer. */
  lemma NumberTextValue(n: int)
    ensures ParseInteger(NumberText(n)) == Some(n)
  {
    if n < 0 {
      assert NumberText(n)[1..] == NumberText(-n);
      NaturalTextValue(-n);
    } else {
      NaturalTextValue(n);
    }
  }

  /** Different integers have different texts. */
  lemma NumberTextInjective(a: int, b: int)
    ensures NumberText(a) == NumberText(b) ==> a == b
  {
    NumberTextValue(a);
    NumberTextValue(b);
  }

  /** JavaScript's `toString()` on a boolean. */
  function BoolText(b: bool): string {
    if b then "true" else "false"
  }

  /** `err.message || fallback`: the message of a caught error, or the
      fallback text when that message is empty. */
  function MessageOr(e: Error, fallback: string): (m: string)
    ensures e.message != "" ==> m == e.message
    ensures e.message == "" ==> m == fallback
    ensures fallback != "" ==> m != ""
  {
    if e.message != "" then e.message else fallback
  }

  /** The `try { ... } catch { throw new Error(message) }` wrapper shared by
      every service call: a success passes through, and any failure is
      replaced by one fixed message. */
  function Settle<T>(reply: Reply<T>, message: string): (r: Result<T>)
    ensures r.Success? <==> reply.Ok?
    ensures reply.Ok? ==> r.value == reply.value
    ensures reply.Fail? ==> r.error == Error(message)
  {
    match reply
    case Ok(v) => Success(v)
    case Fail(_) => Failure(Error(message))
  }

  /** A failure is reported the same way whatever status the backend sent,
      or whether it sent one at all. */
  lemma SettleForgetsStatus<T>(s1: Option<int>, s2: Option<int>, message: string)
    ensures Settle<T>(Fail(s1), message) == Settle<T>(Fail(s2), message)
  {
  }

  function Names(fields: seq<Field>): (r: seq<string>)
    ensures |r| == |fields|
    ensures forall i :: 0 <= i < |fields| ==> r[i] == fields[i].name
  {
    if fields == [] then [] else [fields[0].name] + Names(fields[1..])
  }

  lemma {:induction false} NamesAppend(a: seq<Field>, b: seq<Field>)
    ensures Names(a + b) == Names(a) + Names(b)
  {
    // the ensures of Names determine it pointwise
  }

  /** The value of the first entry named `name`, as `FormData.get` reads it. */
  function Lookup(fields: seq<Field>, name: string): (r: Option<FormValue>)
    ensures r.None? <==> name !in Names(fields)
  {
    if fields == [] then None
    else if fields[0].name == name then Some(fields[0].value)
    else Lookup(fields[1..], name)
  }
}

/** URL paths built from segments, as the services' template literals build
    them, and the inverse split that a router performs. */
module Paths {

  predicate SlashFree(s: string) {
    forall i :: 0 <= i < |s| ==> s[i] != '/'
  }

  predicate AllSlashFree(segments: seq<string>) {
    forall i :: 0 <= i < |segments| ==> SlashFree(segments[i])
  }

  /** `"/" + s1 + "/" + s2 + ...` */
  function Join(segments: seq<string>): string
  {
    if segments == [] then "" else "/" + segments[0] + Join(segments[1..])
  }

  lemma JoinOne(a: string)
    ensures Join([a]) == "/" + a
  {
    assert [a][1..] == [];
  }

  lemma JoinTwo(a: string, b: string)
    ensures Join([a, b]) == "/" + a + "/" + b
  {
    assert [a, b][1..] == [b];
    JoinOne(b);
  }

  /** The characters of `s` before its first '/', and the rest from that '/'. */
  function ReadSegment(s: string): (r: (string, string))
    ensures |r.0| + |r.1| == |s|
  {
    if s == [] || s[0] == '/' then ([], s)
    else var (seg, rest) := ReadSegment(s[1..]); ([s[0]] + seg, rest)
  }

  /** Splits a path of the form "/a/b/c" back into its segments. */
  function Split(p: string): seq<string>
    decreases |p|
  {
    if p == [] || p[0] != '/' then []
    else var (seg, rest) := ReadSegment(p[1..]); [seg] + Split(rest)
  }

  lemma {:induction false} ReadSegmentOfJoin(seg: string, tail: string)
    requires SlashFree(seg)
    requires tail == [] || tail[0] == '/'
    ensures ReadSegment(seg + tail) == (seg, tail)
  {
    if seg != [] {
      assert (seg + tail)[0] == seg[0] != '/';
      assert (seg + tail)[1..] == seg[1..] + tail;
      ReadSegmentOfJoin(seg[1..], tail);
      assert [seg[0]] + seg[1..] == seg;
    } else {
      assert seg + tail == tail;
    }
  }

  /** A router recovers exactly the segments a path was built from, as long
      as no segment contains a '/'. */
  lemma {:induction false} SplitJoin(segments: seq<string>)
    requires AllSlashFree(segments)
    ensures Split(Join(segments)) == segments
  {
    if segments != [] {
      var tail := Join(segments[1..]);
      SlashFreeTail(segments);
      JoinStartsWithSlash(segments[1..]);
      ReadSegmentOfJoin(segments[0], tail);
      var p := Join(segments);
      assert p == "/" + (segments[0] + tail);
      assert p[1..] == segments[0] + tail;
      SplitJoin(segments[1..]);
      assert Split(p) == [segments[0]] + Split(tail);
    }
  }

  lemma SlashFreeTail(segments: seq<string>)
    requires segments != [] && AllSlashFree(segments)
    ensures SlashFree(segments[0]) && AllSlashFree(segments[1..])
  {
    forall i | 0 <= i < |segments[1..]| ensures SlashFree(segments[1..][i]) {
      assert segments[1..][i] == segments[i + 1];
    }
  }

  lemma JoinStartsWithSlash(segments: seq<string>)
    ensures Join(segments) == [] || Join(segments)[0] == '/'
  {
  }

  lemma JoinInjective(s1: seq<string>, s2: seq<string>)
    requires AllSlashFree(s1) && AllSlashFree(s2)
    requires Join(s1) == Join(s2)
    ensures s1 == s2
  {
    SplitJoin(s1);
    SplitJoin(s2);
  }
}
