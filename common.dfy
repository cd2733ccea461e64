/** The optional-value wrapper used throughout the model for Python's `None`. */
module Wrappers {
  datatype Option<+T> = None | Some(value: T) {
    /** The wrapped value, or `default` when there is none. */
    function GetOr(default: T): T {
      match this
      case Some(v) => v
      case None => default
    }
  }
}

/** Decoded JSON as the Python `json` module hands it to the program. */
module Json {
  import opened Wrappers

  datatype Value =
    | VNone
    | VBool(b: bool)
    | VInt(i: int)
    | VStr(s: string)
    | VList(items: seq<Value>)
    | VDict(fields: map<string, Value>)

  /** A Python `dict` decoded from a JSON object. */
  type Dict = map<string, Value>

  /** Python truthiness of a decoded value (`if v:`). */
  predicate Truthy(v: Value) {
    match v
    case VNone => false
    case VBool(b) => b
    case VInt(i) => i != 0
    case VStr(s) => s != ""
    case VList(items) => |items| > 0
    case VDict(fields) => |fields| > 0
  }

  /** `d.get(key)`: an absent key reads as `None`. */
  function Get(d: Dict, key: string): Value {
    if key in d then d[key] else VNone
  }

  /** `d.get(key, default)`. */
  function GetOr(d: Dict, key: string, default: Value): Value {
    if key in d then d[key] else default
  }

  /** `len(v)`, or None where Python raises TypeError (numbers, booleans, None). */
  function Len(v: Value): (r: Option<nat>)
    ensures r.Some? <==> (v.VStr? || v.VList? || v.VDict?)
  {
    match v
    case VStr(s) => Some(|s|)
    case VList(items) => Some(|items|)
    case VDict(fields) => Some(|fields|)
    case _ => None
  }
}

/** String operations the core relies on, over ASCII. */
module Text {

  /** `c.lower()` for ASCII letters. */
  function LowerChar(c: char): char {
    if 'A' <= c <= 'Z' then (c as int + 32) as char else c
  }

  /** `c.upper()` for ASCII letters. */
  function UpperChar(c: char): char {
    if 'a' <= c <= 'z' then (c as int - 32) as char else c
  }

  /** `s.lower()`. */
  function Lower(s: string): (r: string)
    ensures |r| == |s|
    ensures forall i :: 0 <= i < |s| ==> r[i] == LowerChar(s[i])
  {
    seq(|s|, i requires 0 <= i < |s| => LowerChar(s[i]))
  }

  /** `s.upper()`. */
  function Upper(s: string): (r: string)
    ensures |r| == |s|
    ensures forall i :: 0 <= i < |s| ==> r[i] == UpperChar(s[i])
  {
    seq(|s|, i requires 0 <= i < |s| => UpperChar(s[i]))
  }

  /** `s.startswith(p)`. */
  predicate StartsWith(s: string, p: string) {
    |p| <= |s| && s[..|p|] == p
  }

  /** `sub in s`: `sub` occurs somewhere in `s`. */
  predicate Contains(s: string, sub: string)
    decreases |s|
  {
    StartsWith(s, sub) || (|s| > 0 && Contains(s[1..], sub))
  }

  /** `s.lstrip(chars)`: drops the longest prefix made of `chars`. */
  function LStrip(s: string, chars: set<char>): (r: string)
    ensures |r| <= |s| && r == s[|s| - |r|..]
    ensures forall i :: 0 <= i < |s| - |r| ==> s[i] in chars
    ensures |r| > 0 ==> r[0] !in chars
  {
    if |s| > 0 && s[0] in chars then
      var r := LStrip(s[1..], chars);
      assert s[1..][|s| - 1 - |r|..] == s[|s| - |r|..];
      assert forall i :: 1 <= i < |s| ==> s[1..][i - 1] == s[i];
      r
    else s
  }

  /** Python's ASCII whitespace (`str.isspace` below U+0080). */
  predicate IsSpace(c: char) {
    c == ' ' || (9 <= c as int <= 13) || (28 <= c as int <= 31)
  }

  /** The whitespace characters `IsSpace` accepts, as a set. */
  function Whitespace(): (w: set<char>)
    ensures forall c :: c in w <==> IsSpace(c)
  {
    {' ', 9 as char, 10 as char, 11 as char, 12 as char, 13 as char,
     28 as char, 29 as char, 30 as char, 31 as char}
  }

  /** `r` is the slice of `s` starting at `k`, with only `chars` around it. */
  predicate TrimmedAt(s: string, r: string, k: int, chars: set<char>) {
    0 <= k <= |s| - |r| && r == s[k..k + |r|]
    && (forall i :: 0 <= i < k ==> s[i] in chars)
    && (forall i :: k + |r| <= i < |s| ==> s[i] in chars)
  }

  /** The number of leading characters of `s` that are in `chars`. */
  function LeadingIn(s: string, chars: set<char>): (n: nat)
    ensures n <= |s|
    ensures forall i :: 0 <= i < n ==> s[i] in chars
    ensures n < |s| ==> s[n] !in chars
  {
    if |s| > 0 && s[0] in chars then
      var n := LeadingIn(s[1..], chars);
      assert forall i :: 1 <= i < |s| ==> s[i] == s[1..][i - 1];
      n + 1
    else 0
  }

  /** Where `s[lo..hi]` ends once its trailing characters in `chars` are dropped. */
  function TrailingEnd(s: string, lo: nat, hi: nat, chars: set<char>): (e: nat)
    requires lo <= hi <= |s|
    ensures lo <= e <= hi
    ensures forall i :: e <= i < hi ==> s[i] in chars
    ensures e > lo ==> s[e - 1] !in chars
    decreases hi
  {
    if hi > lo && s[hi - 1] in chars then TrailingEnd(s, lo, hi - 1, chars) else hi
  }

  /** `s.strip(chars)`: drops the longest prefix and suffix made of `chars`. */
  function StripChars(s: string, chars: set<char>): (r: string)
    ensures TrimmedAt(s, r, LeadingIn(s, chars), chars)
    ensures |r| > 0 ==> r[0] !in chars && r[|r| - 1] !in chars
  {
    var k := LeadingIn(s, chars);
    var e := TrailingEnd(s, k, |s|, chars);
    assert e == k + (e - k);
    s[k..e]
  }

  /** `r` is `s` with its leading and trailing whitespace removed: a slice with only whitespace around it and none at its ends. */
  ghost predicate StrippedFrom(s: string, r: string) {
    && (exists k :: TrimmedAt(s, r, k, Whitespace()))
    && (|r| > 0 ==> !IsSpace(r[0]) && !IsSpace(r[|r| - 1]))
  }

  /** `s.strip()`: drops leading and trailing whitespace and nothing else. */
  function Strip(s: string): (r: string)
    ensures |r| <= |s|
    ensures StrippedFrom(s, r)
  {
    StripChars(s, Whitespace())
  }
}
