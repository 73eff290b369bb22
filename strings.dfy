/** String helpers shared by the service and the UI shell: the ECMAScript
    whitespace class, `trim`, `Array.prototype.join`, `endsWith` and the
    global whitespace replacement used for file names. */
module Strings {

  datatype Option<+T> = None | Some(value: T) {
    function GetOr(default: T): T {
      match this
      case Some(v) => v
      case None => default
    }
  }

  /** The value of a call that completes normally, or the message of the
      error it throws. */
  datatype Result<+T> = Ok(value: T) | Err(message: string)

  /** The characters ECMAScript's `trim()` strips and its regular-expression
      class `\s` matches: WhiteSpace and LineTerminator. */
  predicate IsWhitespace(c: char) {
    || c == '\t' || c == '\n' || c == '\U{000B}' || c == '\U{000C}' || c == '\r' || c == ' '
    || c == '\U{00A0}' || c == '\U{1680}' || ('\U{2000}' <= c <= '\U{200A}')
    || c == '\U{2028}' || c == '\U{2029}' || c == '\U{202F}' || c == '\U{205F}'
    || c == '\U{3000}' || c == '\U{FEFF}'
  }

  ghost predicate AllWhitespace(s: string) {
    forall i :: 0 <= i < |s| ==> IsWhitespace(s[i])
  }

  ghost predicate NoWhitespace(s: string) {
    forall i :: 0 <= i < |s| ==> !IsWhitespace(s[i])
  }

  /** `t` occurs somewhere inside `s`. */
  ghost predicate Infix(t: string, s: string) {
    exists i :: 0 <= i <= |s| && t <= s[i..]
  }

  lemma InfixOf(p: string, t: string, q: string)
    ensures Infix(t, p + t + q)
  {
    var s := p + t + q;
    assert s[|p|..] == t + q;
  }

  lemma InfixExtend(t: string, p: string, s: string)
    requires Infix(t, s)
    ensures Infix(t, p + s)
  {
    var i :| 0 <= i <= |s| && t <= s[i..];
    assert (p + s)[|p| + i..] == s[i..];
  }

  /** The pieces of a template literal, concatenated in order. This is
      `Join(parts, "")` (see `ConcatIsJoin`); it is kept as its own definition
      because a template literal is plain concatenation, and the head-first
      recursion without a one-piece case keeps `PartIsInfix` a direct induction. */
  function Concat(parts: seq<string>): string {
    if parts == [] then "" else parts[0] + Concat(parts[1..])
  }

  /** Every piece of a template occurs in the text it produces. */
  lemma {:induction false} PartIsInfix(parts: seq<string>, k: nat)
    requires k < |parts|
    ensures Infix(parts[k], Concat(parts))
  {
    if k == 0 {
      InfixOf([], parts[0], Concat(parts[1..]));
      assert [] + parts[0] + Concat(parts[1..]) == Concat(parts);
    } else {
      PartIsInfix(parts[1..], k - 1);
      InfixExtend(parts[k], parts[0], Concat(parts[1..]));
    }
  }

  predicate EndsWith(s: string, suffix: string) {
    |suffix| <= |s| && s[|s| - |suffix|..] == suffix
  }

  /** Leading whitespace removed: the result is a suffix of `s`, what was
      dropped is whitespace, and what is left does not start with whitespace. */
  function TrimStart(s: string): (r: string)
    ensures |r| <= |s| && r == s[|s| - |r|..]
    ensures AllWhitespace(s[..|s| - |r|])
    ensures r == [] || !IsWhitespace(r[0])
  {
    if s != [] && IsWhitespace(s[0]) then TrimStart(s[1..]) else s
  }

  /** Trailing whitespace removed: the result is a prefix of `s`, what was
      dropped is whitespace, and what is left does not end with whitespace. */
  function TrimEnd(s: string): (r: string)
    ensures |r| <= |s| && r == s[..|r|]
    ensures AllWhitespace(s[|r|..])
    ensures r == [] || !IsWhitespace(r[|r| - 1])
  {
    if s != [] && IsWhitespace(s[|s| - 1]) then TrimEnd(s[..|s| - 1]) else s
  }

  lemma InfixWithin(t: string, p: string, s: string, q: string)
    requires Infix(t, s)
    ensures Infix(t, p + s + q)
  {
    var i :| 0 <= i <= |s| && t <= s[i..];
    assert (p + s + q)[|p| + i..] == s[i..] + q;
  }

  /** `String.prototype.trim`: the result neither starts nor ends with whitespace. */
  function Trim(s: string): (r: string)
    ensures |r| <= |s|
    ensures r == [] || (!IsWhitespace(r[0]) && !IsWhitespace(r[|r| - 1]))
  {
    TrimEnd(TrimStart(s))
  }

  /** `s.trim()` is the run of `s` that starts at `TrimOffset(s)`, and
      everything around that run is whitespace. */
  function TrimOffset(s: string): (i: nat)
    ensures i + |Trim(s)| <= |s|
  {
    |s| - |TrimStart(s)|
  }

  lemma TrimIsCore(s: string)
    ensures var i, r := TrimOffset(s), Trim(s);
      s[i..i + |r|] == r && AllWhitespace(s[..i]) && AllWhitespace(s[i + |r|..])
  {
    var t := TrimStart(s);
    var r := Trim(s);
    var i := TrimOffset(s);
    assert s[i..] == t;
    assert s[i..i + |r|] == t[..|r|];
    assert s[i + |r|..] == t[|r|..];
  }

  /** `s.trim()` is the empty (falsy) string exactly when `s` is all whitespace. */
  lemma TrimEmptyIff(s: string)
    ensures Trim(s) == "" <==> AllWhitespace(s)
  {
    var t := TrimStart(s);
    if Trim(s) == "" {
      assert AllWhitespace(t[0..]);
      assert s == s[..|s| - |t|];
    }
  }

  /** `!s.trim()`: the text is empty or whitespace only. */
  function IsBlank(s: string): (b: bool)
    ensures b <==> AllWhitespace(s)
  {
    TrimEmptyIff(s);
    Trim(s) == ""
  }

  /** `Array.prototype.join(sep)` over strings. */
  function Join(items: seq<string>, sep: string): string {
    if |items| == 0 then ""
    else if |items| == 1 then items[0]
    else items[0] + sep + Join(items[1..], sep)
  }

  /** Concatenating the pieces is joining them with the empty separator. */
  lemma {:induction false} ConcatIsJoin(parts: seq<string>)
    ensures Concat(parts) == Join(parts, "")
  {
    if |parts| == 1 {
      assert Concat(parts) == parts[0] + Concat(parts[1..]);
      assert parts[0] + [] == parts[0];
    } else if |parts| > 1 {
      ConcatIsJoin(parts[1..]);
      assert parts[0] + "" == parts[0];
    }
  }

  /** Every item occurs in the join. */
  lemma {:induction false} JoinContainsItem(items: seq<string>, sep: string, k: nat)
    requires k < |items|
    ensures Infix(items[k], Join(items, sep))
  {
    if |items| == 1 {
      InfixOf([], items[0], []);
      assert [] + items[0] + [] == items[0];
    } else if k == 0 {
      var rest := sep + Join(items[1..], sep);
      InfixOf([], items[0], rest);
      assert [] + items[0] + rest == Join(items, sep);
    } else {
      JoinContainsItem(items[1..], sep, k - 1);
      InfixExtend(items[k], items[0] + sep, Join(items[1..], sep));
    }
  }

  /** A character in neither the items nor the separator is not in the join. */
  lemma {:induction false} JoinAvoids(items: seq<string>, sep: string, c: char)
    requires forall i :: 0 <= i < |items| ==> c !in items[i]
    requires c !in sep
    ensures c !in Join(items, sep)
  {
    if |items| > 1 {
      JoinAvoids(items[1..], sep, c);
      assert c !in items[0];
    }
  }

  /** Number of occurrences of `c` in `s`. */
  function Count(s: string, c: char): nat {
    if s == [] then 0 else (if s[0] == c then 1 else 0) + Count(s[1..], c)
  }

  lemma {:induction false} CountAppend(a: string, b: string, c: char)
    ensures Count(a + b, c) == Count(a, c) + Count(b, c)
  {
    if a == [] {
      assert a + b == b;
    } else {
      assert (a + b)[1..] == a[1..] + b;
      CountAppend(a[1..], b, c);
    }
  }

  lemma {:induction false} CountAbsent(s: string, c: char)
    requires c !in s
    ensures Count(s, c) == 0
  {
    if s != [] {
      assert c !in s[1..];
      CountAbsent(s[1..], c);
    }
  }

  /** `s.replace(/\s/g, with)`: every whitespace character becomes `with`. */
  function ReplaceWhitespace(s: string, with: char): (r: string)
    requires !IsWhitespace(with)
    ensures |r| == |s|
    ensures forall i :: 0 <= i < |s| ==> r[i] == if IsWhitespace(s[i]) then with else s[i]
  {
    if s == [] then [] else [if IsWhitespace(s[0]) then with else s[0]] + ReplaceWhitespace(s[1..], with)
  }
}
