/**
 * The few Python string operations the core relies on, for a one-character
 * separator: `str.find`, `str.split`, the `sep.join` that inverts it, and
 * `str.upper` restricted to ASCII letters.
 */
module Text {

  /** An ASCII lower-case letter. */
  predicate IsLowerAscii(c: char) {
    'a' <= c <= 'z'
  }

  predicate NoLowerAscii(s: string) {
    forall i :: 0 <= i < |s| ==> !IsLowerAscii(s[i])
  }

  /** `c.upper()` for ASCII letters; every other character is kept. */
  function UpperChar(c: char): (u: char)
    ensures !IsLowerAscii(u)
    ensures IsLowerAscii(c) ==> 'A' <= u <= 'Z' && u as int + 32 == c as int
    ensures !IsLowerAscii(c) ==> u == c
  {
    if IsLowerAscii(c) then (c as int - 32) as char else c
  }

  /** `s.upper()`, character by character. */
  function Upper(s: string): (r: string)
    ensures |r| == |s|
    ensures forall i :: 0 <= i < |s| ==> r[i] == UpperChar(s[i])
  {
    if s == [] then [] else [UpperChar(s[0])] + Upper(s[1..])
  }

  /** Upper-casing leaves no lower-case ASCII letter and cannot introduce a non-letter. */
  lemma UpperShape(s: string, c: char)
    requires !IsLowerAscii(c) && !('A' <= c <= 'Z')
    ensures NoLowerAscii(Upper(s))
    ensures c in Upper(s) ==> c in s
  {
    if c in Upper(s) {
      var i :| 0 <= i < |s| && Upper(s)[i] == c;
      assert s[i] == c;
    }
  }

  /** `s.find(c)`, except that "absent" is reported as |s| instead of -1. */
  function Find(s: string, c: char): (k: nat)
    ensures k <= |s|
    ensures c !in s[..k]
    ensures k < |s| ==> s[k] == c
    ensures k == |s| <==> c !in s
  {
    if s == [] then 0
    else if s[0] == c then 0
    else
      var k' := Find(s[1..], c);
      assert s[..1 + k'] == [s[0]] + s[1..][..k'];
      1 + k'
  }

  /**
   * `s.split(sep)`: the maximal runs of `s` between occurrences of `sep`.
   * There is always at least one part; there is exactly one when `sep` does
   * not occur; no part contains `sep`, and every part is made of characters
   * of `s`.
   */
  function Split(s: string, sep: char): (parts: seq<string>)
    ensures |parts| >= 1
    ensures |parts| == 1 <==> sep !in s
    ensures forall i :: 0 <= i < |parts| ==> sep !in parts[i]
    ensures forall i, c :: 0 <= i < |parts| && c in parts[i] ==> c in s
  {
    if s == [] then [[]]
    else
      var rest := Split(s[1..], sep);
      assert forall c :: c in s[1..] ==> c in s;
      if s[0] == sep then [[]] + rest
      else [[s[0]] + rest[0]] + rest[1..]
  }

  /** `sep.join(parts)`. */
  function Join(parts: seq<string>, sep: char): string
    requires |parts| >= 1
  {
    if |parts| == 1 then parts[0] else parts[0] + [sep] + Join(parts[1..], sep)
  }

  lemma JoinConsHead(c: char, parts: seq<string>, sep: char)
    requires |parts| >= 1
    ensures Join([[c] + parts[0]] + parts[1..], sep) == [c] + Join(parts, sep)
  {
    var ps := [[c] + parts[0]] + parts[1..];
    assert ps[1..] == parts[1..];
  }

  /** Joining the parts of a split gives back the string. */
  lemma {:induction false} JoinSplit(s: string, sep: char)
    ensures Join(Split(s, sep), sep) == s
  {
    if s != [] {
      var rest := Split(s[1..], sep);
      JoinSplit(s[1..], sep);
      if s[0] == sep {
        assert ([[]] + rest)[1..] == rest;
      } else {
        JoinConsHead(s[0], rest, sep);
      }
    }
  }

  /** Splitting a string whose first occurrence of `sep` closes `p`. */
  lemma {:induction false} SplitAfterPrefix(p: string, t: string, sep: char)
    requires sep !in p
    ensures Split(p + [sep] + t, sep) == [p] + Split(t, sep)
  {
    if p == [] {
      assert p + [sep] + t == [sep] + t;
      assert ([sep] + t)[1..] == t;
    } else {
      var s := p + [sep] + t;
      assert s[1..] == p[1..] + [sep] + t;
      SplitAfterPrefix(p[1..], t, sep);
      assert [p[0]] + p[1..] == p;
    }
  }

  /** A string without `sep` is its own single part. */
  lemma {:induction false} SplitWithoutSep(p: string, sep: char)
    requires sep !in p
    ensures Split(p, sep) == [p]
  {
    if p != [] {
      SplitWithoutSep(p[1..], sep);
      assert p[0] != sep;
      assert [p[0]] + p[1..] == p;
    }
  }

  /** Splitting the join of separator-free parts gives back the parts. */
  lemma {:induction false} SplitJoin(parts: seq<string>, sep: char)
    requires |parts| >= 1
    requires forall i :: 0 <= i < |parts| ==> sep !in parts[i]
    ensures Split(Join(parts, sep), sep) == parts
  {
    if |parts| == 1 {
      SplitWithoutSep(parts[0], sep);
    } else {
      SplitJoin(parts[1..], sep);
      SplitAfterPrefix(parts[0], Join(parts[1..], sep), sep);
      assert [parts[0]] + parts[1..] == parts;
    }
  }

  /**
   * The first part of a split is the text before the first `sep`, and the
   * parts after it are the split of the text after that `sep`.
   */
  lemma {:induction false} SplitAtFirst(s: string, sep: char)
    ensures Split(s, sep)[0] == s[..Find(s, sep)]
    ensures sep in s ==> Split(s, sep)[1..] == Split(s[Find(s, sep) + 1..], sep)
  {
    var k := Find(s, sep);
    if k == |s| {
      SplitWithoutSep(s, sep);
    } else {
      assert s == s[..k] + [sep] + s[k + 1..];
      SplitAfterPrefix(s[..k], s[k + 1..], sep);
    }
  }
}
