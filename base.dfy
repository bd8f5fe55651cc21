/** Option and Result, used for absent values and for failing steps. */
module Wrappers {
  datatype Option<+T> = None | Some(value: T)

  datatype Result<+R, +E> = Success(value: R) | Failure(error: E)
}

/**
 * JSON values as JavaScript's JSON.parse produces them, and the JavaScript
 * property access and truthiness tests the route handlers apply to them.
 */
module JsonData {
  import opened Wrappers

  /**
   * A parsed JSON value. A number is kept as the text JavaScript's `String(n)`
   * gives for it (so every zero, including -0, is the text "0"); its
   * arithmetic value is never needed here.
   */
  datatype Json =
    | JNull
    | JBool(b: bool)
    | JNum(text: string)
    | JStr(s: string)
    | JArr(items: seq<Json>)
    | JObj(members: seq<(string, Json)>)

  /** JavaScript truthiness of a JSON value (JSON has no NaN). */
  predicate Truthy(v: Json) {
    match v
    case JNull => false
    case JBool(b) => b
    case JNum(t) => t != "0"
    case JStr(s) => s != ""
    case JArr(_) => true
    case JObj(_) => true
  }

  /**
   * The value JSON.parse keeps for `key` in an object literal: the LAST
   * member with that key.
   */
  function Lookup(members: seq<(string, Json)>, key: string): (r: Option<Json>)
    ensures r.None? <==> forall i :: 0 <= i < |members| ==> members[i].0 != key
    ensures r.Some? ==> exists i :: 0 <= i < |members| && members[i] == (key, r.value)
                                    && forall j :: i < j < |members| ==> members[j].0 != key
  {
    if members == [] then None
    else if members[|members| - 1].0 == key then Some(members[|members| - 1].1)
    else Lookup(members[..|members| - 1], key)
  }

  /** In an object whose keys are distinct, each key finds its own member. */
  lemma LookupUnique(members: seq<(string, Json)>, i: nat)
    requires i < |members|
    requires forall j :: 0 <= j < |members| && j != i ==> members[j].0 != members[i].0
    ensures Lookup(members, members[i].0) == Some(members[i].1)
  {
  }

  /**
   * `v[key]` / `const { key } = v` for a non-null value: objects give their
   * member, every other value gives `undefined` (None). Inherited properties
   * (`length`, `constructor`, ...) are not modelled; no handler reads them.
   */
  function Field(v: Json, key: string): (r: Option<Json>)
    ensures !v.JObj? ==> r.None?
  {
    match v
    case JObj(ms) => Lookup(ms, key)
    case _ => None
  }

  /** The handler's `!key` guard passes: the field is there and truthy. */
  predicate Present(v: Json, key: string) {
    Field(v, key).Some? && Truthy(Field(v, key).value)
  }

  /** `a || b` where `a` may be `undefined`. */
  function OrElse(a: Option<Json>, b: Json): (r: Json)
    ensures a.Some? && Truthy(a.value) ==> r == a.value
    ensures !(a.Some? && Truthy(a.value)) ==> r == b
  {
    if a.Some? && Truthy(a.value) then a.value else b
  }

  function DigitChar(d: nat): (c: char)
    requires d < 10
    ensures '0' <= c <= '9'
  {
    "0123456789"[d]
  }

  /** Decimal text of a natural number, as `String(n)` writes it. */
  function NatText(n: nat): (r: string)
    ensures |r| >= 1
    ensures forall i :: 0 <= i < |r| ==> '0' <= r[i] <= '9'
    ensures n >= 10 ==> r[0] != '0'
  {
    if n < 10 then [DigitChar(n)] else NatText(n / 10) + [DigitChar(n % 10)]
  }

  /** Decimal text of an integer, with a leading '-' when negative. */
  function IntText(i: int): (r: string)
    ensures i >= 0 ==> r == NatText(i)
    ensures i < 0 ==> r == "-" + NatText(-i)
  {
    if i < 0 then "-" + NatText(-i) else NatText(i)
  }

  function JInt(i: int): Json {
    JNum(IntText(i))
  }

  /** A JSON number holding a natural number (row ids in responses). */
  function JNat(n: nat): Json {
    JNum(NatText(n))
  }
}

/** The string operations the core uses: `includes`, case mapping, `join`. */
module Text {
  /** `s.includes(t)`: t occurs in s at some position (the empty string everywhere). */
  predicate Contains(s: string, t: string) {
    exists i :: 0 <= i <= |s| && t <= s[i..]
  }

  /** `s.includes(k1) || s.includes(k2) || ...`, evaluated left to right. */
  predicate ContainsAny(s: string, keywords: seq<string>) {
    |keywords| > 0 && (Contains(s, keywords[0]) || ContainsAny(s, keywords[1..]))
  }

  /** ContainsAny holds exactly when one of the keywords occurs. */
  lemma {:induction false} ContainsAnyIff(s: string, keywords: seq<string>)
    ensures ContainsAny(s, keywords) <==> exists k :: k in keywords && Contains(s, k)
  {
    if |keywords| > 0 {
      ContainsAnyIff(s, keywords[1..]);
      assert forall k :: k in keywords <==> k == keywords[0] || k in keywords[1..];
    }
  }

  /** A substring of a substring is a substring. */
  lemma ContainsTransitive(s: string, t: string, u: string)
    requires Contains(s, t) && Contains(t, u)
    ensures Contains(s, u)
  {
    var i :| 0 <= i <= |s| && t <= s[i..];
    var j :| 0 <= j <= |t| && u <= t[j..];
    assert s[i..][j..] == s[i + j..];
    assert u <= s[i..][j..] by {
      assert t[j..] <= s[i..][j..];
    }
    assert 0 <= i + j <= |s| && u <= s[i + j..];
  }

  /**
   * ASCII case mapping, the part of JavaScript's `toLowerCase` this model
   * covers: 'A'..'Z' become 'a'..'z', every other character is kept.
   */
  function LowerChar(c: char): (r: char)
    ensures !('A' <= r <= 'Z')
    ensures 'a' <= r <= 'z' ==> c == r || c == (r as int - 32) as char
  {
    if 'A' <= c <= 'Z' then (c as int + 32) as char else c
  }

  function UpperChar(c: char): (r: char)
    ensures !('a' <= r <= 'z')
  {
    if 'a' <= c <= 'z' then (c as int - 32) as char else c
  }

  /** `s.toLowerCase()`: same length, no upper-case letter left. */
  function Lower(s: string): (r: string)
    ensures |r| == |s|
    ensures forall i :: 0 <= i < |r| ==> !('A' <= r[i] <= 'Z')
  {
    seq(|s|, i requires 0 <= i < |s| => LowerChar(s[i]))
  }

  /** `s.toUpperCase()`: same length, no lower-case letter left. */
  function Upper(s: string): (r: string)
    ensures |r| == |s|
    ensures forall i :: 0 <= i < |r| ==> !('a' <= r[i] <= 'z')
  {
    seq(|s|, i requires 0 <= i < |s| => UpperChar(s[i]))
  }

  /** Lower-casing twice changes nothing beyond lower-casing once. */
  lemma LowerIdempotent(s: string)
    ensures Lower(Lower(s)) == Lower(s)
  {
    var l := Lower(s);
    forall i | 0 <= i < |l|
      ensures Lower(l)[i] == l[i]
    {
      assert !('A' <= l[i] <= 'Z');
    }
  }

  /** Lower-casing after upper-casing is the same as lower-casing. */
  lemma LowerUpper(s: string)
    ensures Lower(Upper(s)) == Lower(s)
  {
    forall i | 0 <= i < |s|
      ensures Lower(Upper(s))[i] == Lower(s)[i]
    {
      assert Upper(s)[i] == UpperChar(s[i]);
    }
  }

  /** `lines.join(sep)`. */
  function Join(lines: seq<string>, sep: string): (r: string)
    ensures |lines| == 1 ==> r == lines[0]
  {
    if |lines| == 0 then ""
    else if |lines| == 1 then lines[0]
    else Join(lines[..|lines| - 1], sep) + sep + lines[|lines| - 1]
  }

  /** Number of occurrences of character c in s. */
  function Count(s: string, c: char): (n: nat)
    ensures n <= |s|
  {
    if s == [] then 0 else Count(s[..|s| - 1], c) + (if s[|s| - 1] == c then 1 else 0)
  }

  lemma {:induction false} CountAppend(a: string, b: string, c: char)
    ensures Count(a + b, c) == Count(a, c) + Count(b, c)
  {
    if b == [] {
      assert a + b == a;
    } else {
      assert (a + b)[..|a + b| - 1] == a + b[..|b| - 1];
      CountAppend(a, b[..|b| - 1], c);
    }
  }

  /**
   * Joining n lines that hold no separator character yields exactly n - 1
   * separators: one line per element.
   */
  lemma {:induction false} JoinSeparators(lines: seq<string>, sep: char)
    requires |lines| >= 1
    requires forall i :: 0 <= i < |lines| ==> Count(lines[i], sep) == 0
    ensures Count(Join(lines, [sep]), sep) == |lines| - 1
  {
    if |lines| > 1 {
      var init := lines[..|lines| - 1];
      JoinSeparators(init, sep);
      CountAppend(Join(init, [sep]), [sep], sep);
      CountAppend(Join(init, [sep]) + [sep], lines[|lines| - 1], sep);
      assert [sep][..0] == [];
    }
  }

  /** A string with no c anywhere counts zero c. */
  lemma {:induction false} CountAbsent(s: string, c: char)
    requires forall i :: 0 <= i < |s| ==> s[i] != c
    ensures Count(s, c) == 0
  {
    if s != [] {
      CountAbsent(s[..|s| - 1], c);
    }
  }
}

/** HTTP requests and JSON responses as the route handlers see them. */
module Http {
  import opened Wrappers
  import opened JsonData

  /** What `await req.json()` produced: a value, or the SyntaxError it threw. */
  datatype Request = Body(json: Json) | Unparseable(message: string)

  /** A response: its status and its JSON body. */
  datatype Response = Response(status: int, body: Json)

  const OK := 200
  const BadRequest := 400
  const Unauthorized := 401
  const NotFound := 404
  const ServerError := 500

  /**
   * Message of the TypeError JavaScript throws when a handler destructures
   * fields out of a `null` body. The runtime's exact wording is not modelled.
   */
  const NullBodyMessage := "Cannot destructure property of null"

  /**
   * `const { ... } = await req.json()`: fails with the thrown message when
   * the body does not parse or parses to `null`; any other value can be
   * destructured.
   */
  function ReadBody(req: Request): (r: Result<Json, string>)
    ensures r.Success? <==> req.Body? && req.json != JNull
    ensures r.Success? ==> r.value == req.json
    ensures req.Unparseable? ==> r == Failure(req.message)
  {
    match req
    case Unparseable(m) => Failure(m)
    case Body(j) => if j == JNull then Failure(NullBodyMessage) else Success(j)
  }

  /** The `userId` the session provider returns is truthy: someone is signed in. */
  predicate SignedIn(userId: Option<string>) {
    userId.Some? && userId.value != ""
  }

  /** `{ error: message }` with the given status. */
  function ErrorResponse(status: int, message: string): (r: Response)
    ensures r.status == status && Field(r.body, "error") == Some(JStr(message))
  {
    Response(status, JObj([("error", JStr(message))]))
  }

  /** `error.message || "Internal Server Error"`. */
  function MessageOr(message: string, fallback: string): (r: string)
    ensures r != "" || fallback == ""
  {
    if message != "" then message else fallback
  }
}
