/** Values shared by every part of the model: identifiers, optional values,
    the errors a handler can throw, and the few JavaScript string operations
    the handlers rely on (trim, an ASCII-only toLowerCase, replace, parseInt). */
module Common {

  /** An ObjectId as it arrives in a route parameter or a token claim. */
  type Id = string

  /** An opaque signed credential (a JWT); its contents are never inspected. */
  type Token = string

  datatype Option<T> = None | Some(value: T)

  /** What a handler can throw. The error middleware tells these apart:
      `ApiError` is the project's own error class, `MongooseError` stands for
      any `instanceof mongoose.Error` (a CastError from a lookup with a
      malformed id, a ValidationError from a missing required field), and
      `ScriptError` for everything else (TypeError, ReferenceError, BSONError). */
  datatype Thrown =
    | ApiError(statusCode: int, message: string)
    | MongooseError(message: string)
    | ScriptError(message: string)

  datatype Result<T> = Ok(value: T) | Err(error: Thrown)

  /** The status code of an `ApiError`, or 0 for any other kind of error. */
  function CodeOf<T>(r: Result<T>): int {
    if r.Err? && r.error.ApiError? then r.error.statusCode else 0
  }

  /** JavaScript truthiness of an optional string field: present and not "". */
  predicate Present(o: Option<string>) {
    o.Some? && o.value != ""
  }

  // ---------------------------------------------------------------------
  // ObjectId validity (mongoose.isValidObjectId)
  // ---------------------------------------------------------------------

  predicate IsHexDigit(c: char) {
    ('0' <= c <= '9') || ('a' <= c <= 'f') || ('A' <= c <= 'F')
  }

  /** Mongoose accepts a 24-digit hexadecimal string, or any 12-character
      string (read as 12 raw bytes). */
  predicate IsValidObjectId(s: string) {
    |s| == 12 || (|s| == 24 && forall i :: 0 <= i < |s| ==> IsHexDigit(s[i]))
  }

  // ---------------------------------------------------------------------
  // String.prototype.trim
  // ---------------------------------------------------------------------

  /** The ECMAScript WhiteSpace and LineTerminator code points. */
  predicate IsSpace(c: char) {
    c == ' ' || c == '\t' || c == '\n' || c == '\r' || c == '\U{000B}' || c == '\U{000C}'
    || c == '\U{00A0}' || c == '\U{1680}' || ('\U{2000}' <= c <= '\U{200A}')
    || c == '\U{2028}' || c == '\U{2029}' || c == '\U{202F}' || c == '\U{205F}'
    || c == '\U{3000}' || c == '\U{FEFF}'
  }

  function TrimStart(s: string): (r: string)
    ensures |r| <= |s| && r == s[|s| - |r|..]
    ensures r == [] || !IsSpace(r[0])
    ensures forall i :: 0 <= i < |s| - |r| ==> IsSpace(s[i])
  {
    if s == [] || !IsSpace(s[0]) then s else TrimStart(s[1..])
  }

  function TrimEnd(s: string): (r: string)
    ensures |r| <= |s| && r == s[..|r|]
    ensures r == [] || !IsSpace(r[|r| - 1])
    ensures forall i :: |r| <= i < |s| ==> IsSpace(s[i])
  {
    if s == [] || !IsSpace(s[|s| - 1]) then s else TrimEnd(s[..|s| - 1])
  }

  function Trim(s: string): string {
    TrimEnd(TrimStart(s))
  }

  predicate AllSpace(s: string) {
    forall i :: 0 <= i < |s| ==> IsSpace(s[i])
  }

  /** `s.trim() === ""` holds exactly when every character of `s` is white space. */
  lemma TrimEmptyIffAllSpace(s: string)
    ensures Trim(s) == "" <==> AllSpace(s)
  {
    var t := TrimStart(s);
    if !AllSpace(s) {
      var k :| 0 <= k < |s| && !IsSpace(s[k]);
      assert |t| > 0;
      assert !IsSpace(t[0]);
    }
  }

  // ---------------------------------------------------------------------
  // An ASCII-only String.prototype.toLowerCase (A-Z only) and a
  // case-insensitive substring test
  // ---------------------------------------------------------------------

  function LowerChar(c: char): char {
    if 'A' <= c <= 'Z' then (c as int + 32) as char else c
  }

  function Lower(s: string): (r: string)
    ensures |r| == |s|
    ensures forall i :: 0 <= i < |s| ==> r[i] == LowerChar(s[i])
  {
    if s == [] then [] else [LowerChar(s[0])] + Lower(s[1..])
  }

  /** Lowering twice changes nothing more than lowering once. */
  lemma LowerIdempotent(s: string)
    ensures Lower(Lower(s)) == Lower(s)
  {
    var l := Lower(s);
    assert forall i :: 0 <= i < |l| ==> LowerChar(l[i]) == l[i];
  }

  predicate OccursAt(s: string, pat: string, i: nat) {
    i + |pat| <= |s| && s[i..i + |pat|] == pat
  }

  predicate Contains(hay: string, needle: string) {
    exists i: nat | i <= |hay| :: OccursAt(hay, needle, i)
  }

  /** A `$regex` match with option "i", read as a literal case-insensitive substring. */
  predicate ContainsIgnoreCase(hay: string, needle: string) {
    Contains(Lower(hay), Lower(needle))
  }

  // ---------------------------------------------------------------------
  // String.prototype.indexOf and replace(string, string)
  // ---------------------------------------------------------------------

  function IndexOfFrom(s: string, pat: string, from: nat): (r: Option<nat>)
    requires from <= |s|
    ensures r.Some? ==> from <= r.value && OccursAt(s, pat, r.value)
    ensures r.Some? ==> forall j :: from <= j < r.value ==> !OccursAt(s, pat, j)
    ensures r.None? ==> forall j :: from <= j ==> !OccursAt(s, pat, j)
    decreases |s| - from
  {
    if OccursAt(s, pat, from) then Some(from)
    else if from + |pat| >= |s| then None
    else IndexOfFrom(s, pat, from + 1)
  }

  /** The first position at which `pat` occurs in `s`. */
  function IndexOf(s: string, pat: string): Option<nat> {
    IndexOfFrom(s, pat, 0)
  }

  /** `s.replace(pat, rep)` with a string pattern: only the first occurrence is replaced. */
  function ReplaceFirst(s: string, pat: string, rep: string): string {
    match IndexOf(s, pat)
    case None => s
    case Some(i) => s[..i] + rep + s[i + |pat|..]
  }

  lemma {:induction false} ReplaceFirstOfPrefix(pat: string, rest: string, rep: string)
    ensures ReplaceFirst(pat + rest, pat, rep) == rep + rest
  {
    var s := pat + rest;
    assert s[0..|pat|] == pat;
    assert OccursAt(s, pat, 0);
    assert s[|pat|..] == rest;
  }

  lemma ReplaceFirstAbsent(s: string, pat: string, rep: string)
    requires !Contains(s, pat)
    ensures ReplaceFirst(s, pat, rep) == s
  {
    assert IndexOf(s, pat).None?;
  }

  // ---------------------------------------------------------------------
  // parseInt(s, 10)
  // ---------------------------------------------------------------------

  predicate IsDigit(c: char) {
    '0' <= c <= '9'
  }

  /** The value of the longest run of digits at the front of `s`, with its length. */
  function DigitPrefix(s: string): (r: (nat, nat))
    ensures r.1 <= |s|
    ensures forall i :: 0 <= i < r.1 ==> IsDigit(s[i])
    ensures r.1 < |s| ==> !IsDigit(s[r.1])
  {
    DigitRun(s, 0, 0)
  }

  function DigitRun(s: string, i: nat, acc: nat): (r: (nat, nat))
    requires i <= |s|
    requires forall j :: 0 <= j < i ==> IsDigit(s[j])
    ensures i <= r.1 <= |s|
    ensures forall j :: 0 <= j < r.1 ==> IsDigit(s[j])
    ensures r.1 < |s| ==> !IsDigit(s[r.1])
    decreases |s| - i
  {
    if i < |s| && IsDigit(s[i]) then DigitRun(s, i + 1, acc * 10 + (s[i] as int - '0' as int))
    else (acc, i)
  }

  /** `parseInt(s, 10)`: skip leading white space, read an optional sign and
      the longest run of digits; `None` stands for NaN (no digit at all). */
  function ParseInt(s: string): Option<int> {
    var t := TrimStart(s);
    var neg := t != [] && t[0] == '-';
    var body := if t != [] && (t[0] == '-' || t[0] == '+') then t[1..] else t;
    var (v, n) := DigitPrefix(body);
    var value: int := if neg then 0 - (v as int) else v as int;
    if n == 0 then None else Some(value)
  }

  function DigitChar(d: nat): char
    requires d < 10
  {
    ('0' as int + d) as char
  }

  /** The decimal spelling of a natural number. */
  function ShowNat(n: nat): (r: string)
    ensures |r| > 0
    ensures forall i :: 0 <= i < |r| ==> IsDigit(r[i])
    decreases n
  {
    if n < 10 then [DigitChar(n)] else ShowNat(n / 10) + [DigitChar(n % 10)]
  }

  lemma {:induction false} DigitRunAppend(s: string, i: nat, acc: nat, d: nat)
    requires i <= |s|
    requires forall j :: 0 <= j < |s| ==> IsDigit(s[j])
    requires d < 10
    ensures DigitRun(s + [DigitChar(d)], i, acc) == (DigitRun(s, i, acc).0 * 10 + d, |s| + 1)
    decreases |s| - i
  {
    var t := s + [DigitChar(d)];
    assert forall j :: 0 <= j < i ==> IsDigit(t[j]);
    if i < |s| {
      assert t[i] == s[i];
      DigitRunAppend(s, i + 1, acc * 10 + (s[i] as int - '0' as int), d);
    } else {
      assert t[i] == DigitChar(d);
      assert DigitRun(t, i + 1, acc * 10 + d) == (acc * 10 + d, i + 1);
    }
  }

  /** The value DigitRun computes over a whole run of digits that spells `n`. */
  lemma {:induction false} DigitPrefixOfShowNat(n: nat)
    ensures DigitPrefix(ShowNat(n)) == (n, |ShowNat(n)|)
    decreases n
  {
    if n < 10 {
      var s := ShowNat(n);
      assert DigitRun(s, 1, n) == (n, 1);
    } else {
      DigitPrefixOfShowNat(n / 10);
      DigitRunAppend(ShowNat(n / 10), 0, 0, n % 10);
    }
  }

  /** Round trip: parsing the decimal spelling of `n` gives back `n`. */
  lemma {:induction false} ParseIntShowNat(n: nat)
    ensures ParseInt(ShowNat(n)) == Some(n)
  {
    var s := ShowNat(n);
    assert !IsSpace(s[0]);
    assert TrimStart(s) == s;
    assert s[0] != '-' && s[0] != '+';
    DigitPrefixOfShowNat(n);
  }
}
