/**
 * The JavaScript built-ins the recorder leans on, stated as Dafny functions:
 * truthiness, `String.prototype.indexOf`/`replace`/`split`/`trim`,
 * `Array.prototype.join`, and an array of strings that is updated in place
 * by `push` and `splice`.
 */
module Js {

  datatype Option<T> = None | Some(value: T)

  /**
   * A JavaScript value as the cache stores it and as the yt-dlp metadata
   * carries it. Numbers are integers here (no fractions, no NaN); an object
   * is known only by an identity.
   */
  datatype Value = Undefined | Null | Bool(b: bool) | Num(n: int) | Str(s: string) | Object(id: nat)

  /** JavaScript's ToBoolean. */
  predicate Truthy(v: Value) {
    match v
    case Undefined => false
    case Null => false
    case Bool(b) => b
    case Num(n) => n != 0
    case Str(s) => s != ""
    case Object(_) => true
  }

  /**
   * `a == b` with `b` a non-empty, non-numeric string literal (the comparison
   * with 'was_live' on `is_live`): among the values here, only that string.
   */
  predicate LooseEqualsString(a: Value, b: string) {
    match a
    case Str(s) => s == b
    case _ => false
  }

  // ---------------------------------------------------------------- strings

  predicate StartsWith(s: string, prefix: string) {
    |prefix| <= |s| && s[..|prefix|] == prefix
  }

  predicate OccursAt(s: string, sub: string, i: int) {
    0 <= i && i + |sub| <= |s| && s[i..i + |sub|] == sub
  }

  /** `s.indexOf(sub, from)`: the first position at or after `from` where `sub` occurs, or -1. */
  function IndexOfFrom(s: string, sub: string, from: nat): (r: int)
    requires from <= |s|
    ensures r == -1 || (from <= r && OccursAt(s, sub, r))
    ensures r == -1 ==> forall i :: from <= i ==> !OccursAt(s, sub, i)
    ensures r != -1 ==> forall i :: from <= i < r ==> !OccursAt(s, sub, i)
    decreases |s| - from
  {
    if from + |sub| > |s| then -1
    else if s[from..from + |sub|] == sub then from
    else IndexOfFrom(s, sub, from + 1)
  }

  /** `s.indexOf(sub)`; it is 0 exactly when `sub` is a prefix of `s`. */
  function IndexOf(s: string, sub: string): (r: int)
    ensures r == -1 <==> forall i :: !OccursAt(s, sub, i)
    ensures r != -1 ==> OccursAt(s, sub, r) && forall i :: 0 <= i < r ==> !OccursAt(s, sub, i)
    ensures r == 0 <==> StartsWith(s, sub)
  {
    var r := IndexOfFrom(s, sub, 0);
    assert StartsWith(s, sub) ==> OccursAt(s, sub, 0);
    r
  }

  /** `s.indexOf(sub) !== -1` */
  predicate Contains(s: string, sub: string) {
    IndexOf(s, sub) != -1
  }

  /** `s.replace(pattern, replacement)` with a string pattern: only the first occurrence is replaced. */
  function ReplaceFirst(s: string, pattern: string, replacement: string): (r: string)
  {
    var i := IndexOf(s, pattern);
    if i == -1 then s else s[..i] + replacement + s[i + |pattern|..]
  }

  /** Replacing a prefix by nothing drops it. */
  lemma ReplacePrefix(s: string, prefix: string)
    requires StartsWith(s, prefix)
    ensures ReplaceFirst(s, prefix, "") == s[|prefix|..]
  {
    assert IndexOf(s, prefix) == 0;
  }

  /** The position of the first `c` in `s`. */
  function FirstIndex(s: string, c: char): (k: nat)
    requires c in s
    ensures k < |s| && s[k] == c && c !in s[..k]
  {
    if s[0] == c then 0
    else
      var k := FirstIndex(s[1..], c);
      assert s[1..][..k] == s[1..k + 1];
      k + 1
  }

  /** `s.split(sep)` with a one-character separator; never empty, as in JavaScript. */
  function Split(s: string, sep: char): (parts: seq<string>)
    ensures |parts| >= 1
    ensures forall i :: 0 <= i < |parts| ==> sep !in parts[i]
    ensures |parts| > 1 <==> sep in s
    decreases |s|
  {
    if sep !in s then [s]
    else
      var k := FirstIndex(s, sep);
      [s[..k]] + Split(s[k + 1..], sep)
  }

  /** `parts.join(sep)` */
  function Join(parts: seq<string>, sep: char): string
  {
    if |parts| == 0 then ""
    else if |parts| == 1 then parts[0]
    else parts[0] + [sep] + Join(parts[1..], sep)
  }

  /** Splitting and joining again gives back the original string. */
  lemma {:induction false} JoinSplit(s: string, sep: char)
    ensures Join(Split(s, sep), sep) == s
    decreases |s|
  {
    if sep in s {
      var k := FirstIndex(s, sep);
      var rest := s[k + 1..];
      JoinSplit(rest, sep);
      assert Split(s, sep) == [s[..k]] + Split(rest, sep);
      assert s == s[..k] + [sep] + rest;
    }
  }

  /** Joining separator-free parts and splitting again gives back the parts. */
  lemma {:induction false} SplitJoin(parts: seq<string>, sep: char)
    requires |parts| >= 1
    requires forall i :: 0 <= i < |parts| ==> sep !in parts[i]
    ensures Split(Join(parts, sep), sep) == parts
    decreases |parts|
  {
    if |parts| > 1 {
      var s := Join(parts, sep);
      var rest := Join(parts[1..], sep);
      assert s == parts[0] + [sep] + rest;
      assert s[|parts[0]|] == sep;
      assert s[..|parts[0]|] == parts[0];
      var k := FirstIndex(s, sep);
      assert k == |parts[0]|;
      assert s[k + 1..] == rest;
      SplitJoin(parts[1..], sep);
      assert Split(s, sep) == [parts[0]] + parts[1..];
    }
  }

  /** The parts after the first, joined again, are what follows the first separator. */
  lemma SplitTail(s: string, sep: char)
    requires sep in s
    ensures Split(s, sep)[0] == s[..FirstIndex(s, sep)]
    ensures Join(Split(s, sep)[1..], sep) == s[FirstIndex(s, sep) + 1..]
  {
    var k := FirstIndex(s, sep);
    var parts := Split(s, sep);
    assert parts == [s[..k]] + Split(s[k + 1..], sep);
    assert parts[1..] == Split(s[k + 1..], sep);
    JoinSplit(s[k + 1..], sep);
  }

  /** A separator-free head, the separator, and anything: the first part is the head and the others join back to the rest. */
  lemma SplitAtHead(head: string, rest: string, sep: char)
    requires sep !in head
    ensures var parts := Split(head + [sep] + rest, sep);
      |parts| > 1 && parts[0] == head && Join(parts[1..], sep) == rest
  {
    var s := head + [sep] + rest;
    assert s[|head|] == sep;
    var k := FirstIndex(s, sep);
    assert s[..k] == head;
    SplitTail(s, sep);
    assert s[k + 1..] == rest;
  }

  /** The characters `String.prototype.trim` removes: WhiteSpace and LineTerminator of ECMA-262. */
  predicate IsWhiteSpace(c: char) {
    var n := c as int;
    n == 0x09 || n == 0x0B || n == 0x0C || n == 0x20 || n == 0xA0 || n == 0xFEFF
    || n == 0x1680 || (0x2000 <= n <= 0x200A) || n == 0x202F || n == 0x205F || n == 0x3000
    || n == 0x0A || n == 0x0D || n == 0x2028 || n == 0x2029
  }

  predicate AllWhiteSpace(s: string) {
    forall i :: 0 <= i < |s| ==> IsWhiteSpace(s[i])
  }

  /** `s.trimStart()`: a suffix of `s`; what was cut is white space, and it does not start with any. */
  function TrimStart(s: string): (r: string)
    ensures |r| <= |s| && r == s[|s| - |r|..]
    ensures AllWhiteSpace(s[..|s| - |r|])
    ensures r == [] || !IsWhiteSpace(r[0])
  {
    if s != [] && IsWhiteSpace(s[0]) then
      var r := TrimStart(s[1..]);
      assert s[..|s| - |r|] == [s[0]] + s[1..][..|s| - 1 - |r|];
      r
    else s
  }

  /** `s.trimEnd()`: a prefix of `s`; what was cut is white space, and it does not end with any. */
  function TrimEnd(s: string): (r: string)
    ensures |r| <= |s| && r == s[..|r|]
    ensures AllWhiteSpace(s[|r|..])
    ensures r == [] || !IsWhiteSpace(r[|r| - 1])
  {
    if s != [] && IsWhiteSpace(s[|s| - 1]) then
      var r := TrimEnd(s[..|s| - 1]);
      assert s[|r|..] == s[..|s| - 1][|r|..] + [s[|s| - 1]];
      r
    else s
  }

  /** `s.trim()` */
  function Trim(s: string): (r: string)
  {
    TrimEnd(TrimStart(s))
  }

  /** Trim keeps a contiguous middle piece of `s`, cuts only white space, and leaves none at either end. */
  lemma TrimIsMiddle(s: string)
    ensures exists i, j :: 0 <= i <= j <= |s| && Trim(s) == s[i..j]
                           && AllWhiteSpace(s[..i]) && AllWhiteSpace(s[j..])
    ensures Trim(s) == [] || (!IsWhiteSpace(Trim(s)[0]) && !IsWhiteSpace(Trim(s)[|Trim(s)| - 1]))
  {
    var t := TrimStart(s);
    var r := TrimEnd(t);
    var i := |s| - |t|;
    var j := i + |r|;
    assert r == s[i..j];
    assert s[j..] == t[|r|..];
  }

  /** Trimming twice is trimming once. */
  lemma TrimIdempotent(s: string)
    ensures Trim(Trim(s)) == Trim(s)
  {
    var r := Trim(s);
    TrimIsMiddle(s);
  }

  // ---------------------------------------------------------------- arrays

  /** `xs.indexOf(x)` on an array of strings. */
  function SeqIndexOf(xs: seq<string>, x: string): (r: int)
    ensures r == -1 <==> x !in xs
    ensures r != -1 ==> 0 <= r < |xs| && xs[r] == x && x !in xs[..r]
  {
    if xs == [] then -1
    else if xs[0] == x then 0
    else
      var r := SeqIndexOf(xs[1..], x);
      if r == -1 then -1
      else
        assert xs[..r + 1] == [xs[0]] + xs[1..][..r];
        r + 1
  }

  /**
   * `i = xs.indexOf(x); if (i !== -1) xs.splice(i, 1)` as a value: the first
   * `x` is dropped, everything else keeps its order.
   */
  function RemoveFirst(xs: seq<string>, x: string): (r: seq<string>)
    ensures x !in xs ==> r == xs
    ensures x in xs ==> |r| == |xs| - 1
  {
    var i := SeqIndexOf(xs, x);
    if i == -1 then xs else xs[..i] + xs[i + 1..]
  }

  /** Removing the first `x` removes one `x` and nothing else. */
  lemma RemoveFirstMultiset(xs: seq<string>, x: string)
    ensures multiset(RemoveFirst(xs, x)) == multiset(xs) - multiset{x}
  {
    var i := SeqIndexOf(xs, x);
    if i != -1 {
      assert xs == xs[..i] + [xs[i]] + xs[i + 1..];
    }
  }

  /** The first occurrence is the only position holding `x` with no `x` before it. */
  lemma SeqIndexOfUnique(xs: seq<string>, x: string, i: nat)
    requires i < |xs| && xs[i] == x && x !in xs[..i]
    ensures SeqIndexOf(xs, x) == i
    ensures RemoveFirst(xs, x) == xs[..i] + xs[i + 1..]
  {
  }

  /** When the left part holds `x`, its first `x` is the one removed. */
  lemma RemoveFirstLeft(xs: seq<string>, ys: seq<string>, x: string)
    requires x in xs
    ensures RemoveFirst(xs + ys, x) == RemoveFirst(xs, x) + ys
  {
    var i := SeqIndexOf(xs, x);
    var zs := xs + ys;
    assert zs[i] == x;
    assert zs[..i] == xs[..i];
    SeqIndexOfUnique(zs, x, i);
    SeqIndexOfUnique(xs, x, i);
    assert zs[i + 1..] == xs[i + 1..] + ys;
    assert zs[..i] + zs[i + 1..] == (xs[..i] + xs[i + 1..]) + ys;
  }

  /** When the left part has no `x`, the first `x` is removed from the right part. */
  lemma RemoveFirstRight(xs: seq<string>, ys: seq<string>, x: string)
    requires x !in xs
    ensures RemoveFirst(xs + ys, x) == xs + RemoveFirst(ys, x)
  {
    var zs := xs + ys;
    if x in ys {
      var i := SeqIndexOf(ys, x);
      var k := |xs| + i;
      assert zs[k] == x;
      assert zs[..k] == xs + ys[..i];
      assert x !in zs[..k];
      SeqIndexOfUnique(zs, x, k);
      assert zs[..k] + zs[k + 1..] == xs + (ys[..i] + ys[i + 1..]);
    }
  }

  /** An array of strings that `push` and `splice` change in place. */
  class StringArray {
    var items: seq<string>

    constructor (items: seq<string>)
      ensures this.items == items
    {
      this.items := items;
    }

    /** `a.push(...xs)` */
    method Push(xs: seq<string>)
      modifies this
      ensures items == old(items) + xs
    {
      items := items + xs;
    }

    /** `a.indexOf(x)` */
    method IndexOf(x: string) returns (i: int)
      ensures i == -1 <==> x !in items
      ensures i != -1 ==> 0 <= i < |items| && items[i] == x && x !in items[..i]
    {
      i := 0;
      while i < |items|
        invariant 0 <= i <= |items|
        invariant x !in items[..i]
      {
        if items[i] == x {
          return;
        }
        assert items[..i + 1] == items[..i] + [items[i]];
        i := i + 1;
      }
      assert items[..i] == items;
      i := -1;
    }

    /** `a.splice(i, 1)` */
    method SpliceOne(i: nat)
      requires i < |items|
      modifies this
      ensures items == old(items[..i]) + old(items[i + 1..])
    {
      items := items[..i] + items[i + 1..];
    }
  }
}
