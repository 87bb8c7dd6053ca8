/** The few functions of Go's `strings` package that the core relies on, on `seq<char>`. */
module Text {

  predicate IsPrefix(p: string, s: string) {
    |p| <= |s| && s[..|p|] == p
  }

  predicate IsSuffix(p: string, s: string) {
    |p| <= |s| && s[|s| - |p|..] == p
  }

  /** `sub` occurs in `s` starting at index `i`. */
  ghost predicate OccursAt(s: string, sub: string, i: int) {
    0 <= i && i + |sub| <= |s| && s[i..i + |sub|] == sub
  }

  /** strings.Contains: scans `s` from the left for an occurrence of `sub`. */
  predicate Contains(s: string, sub: string)
    decreases |s|
  {
    IsPrefix(sub, s) || (|s| > 0 && Contains(s[1..], sub))
  }

  /** The scan finds an occurrence exactly when one exists at some index. */
  lemma {:induction false} ContainsIffOccurs(s: string, sub: string)
    ensures Contains(s, sub) <==> exists i :: OccursAt(s, sub, i)
    decreases |s|
  {
    if IsPrefix(sub, s) {
      assert OccursAt(s, sub, 0);
    }
    if |s| > 0 {
      ContainsIffOccurs(s[1..], sub);
      if Contains(s[1..], sub) {
        var i :| OccursAt(s[1..], sub, i);
        assert s[i + 1..i + 1 + |sub|] == s[1..][i..i + |sub|];
        assert OccursAt(s, sub, i + 1);
      }
      if i :| OccursAt(s, sub, i) {
        if i > 0 {
          assert s[1..][i - 1..i - 1 + |sub|] == s[i..i + |sub|];
          assert OccursAt(s[1..], sub, i - 1);
        } else {
          assert s[..|sub|] == sub;
        }
      }
    } else {
      if i :| OccursAt(s, sub, i) {
        assert i == 0 && |sub| == 0;
        assert IsPrefix(sub, s);
      }
    }
  }

  /** An occurrence at a known index is found by the scan. */
  lemma OccursThenContains(s: string, sub: string, i: int)
    requires OccursAt(s, sub, i)
    ensures Contains(s, sub)
  {
    ContainsIffOccurs(s, sub);
  }

  /** strings.TrimPrefix: drops one copy of `p` from the front of `s` when present. */
  function TrimPrefix(s: string, p: string): (r: string)
    ensures IsPrefix(p, s) ==> s == p + r
    ensures !IsPrefix(p, s) ==> r == s
  {
    if IsPrefix(p, s) then s[|p|..] else s
  }

  /** strings.TrimRight with a one-character cut set: drops every trailing `c`. */
  function TrimRight(s: string, c: char): (r: string)
    ensures IsPrefix(r, s)
    ensures r == [] || r[|r| - 1] != c
    ensures forall i :: |r| <= i < |s| ==> s[i] == c
  {
    if |s| > 0 && s[|s| - 1] == c then TrimRight(s[..|s| - 1], c) else s
  }

  /** strings.Cut (or bytes.Cut) with a one-element separator: splits around the first `sep`. */
  function Cut<T(==)>(s: seq<T>, sep: T): (r: (seq<T>, seq<T>, bool))
    ensures r.2 ==> s == r.0 + [sep] + r.1 && sep !in r.0
    ensures !r.2 ==> r.0 == s && r.1 == [] && sep !in s
  {
    if |s| == 0 then ([], [], false)
    else if s[0] == sep then ([], s[1..], true)
    else
      var (before, after, found) := Cut(s[1..], sep);
      assert s == [s[0]] + s[1..];
      ([s[0]] + before, after, found)
  }

  /** strings.Count for a one-character needle. */
  function Count(s: string, c: char): nat {
    multiset(s)[c]
  }

  predicate IsAsciiLetter(c: char) {
    'a' <= c <= 'z' || 'A' <= c <= 'Z'
  }

  predicate IsAsciiDigit(c: char) {
    '0' <= c <= '9'
  }

  function LowerChar(c: char): char {
    if 'A' <= c <= 'Z' then (c as int + 32) as char else c
  }

  function UpperChar(c: char): char {
    if 'a' <= c <= 'z' then (c as int - 32) as char else c
  }

  /** strings.ToLower restricted to ASCII letters. */
  function ToLower(s: string): (r: string)
    ensures |r| == |s|
    ensures forall i :: 0 <= i < |s| ==> r[i] == LowerChar(s[i])
  {
    if |s| == 0 then "" else [LowerChar(s[0])] + ToLower(s[1..])
  }

  /** strings.Join with a one-character separator. */
  function Join(items: seq<string>, sep: char): (r: string)
  {
    if |items| == 0 then ""
    else if |items| == 1 then items[0]
    else items[0] + [sep] + Join(items[1..], sep)
  }

  /** Every item of a join appears in the joined text. */
  lemma {:induction false} JoinContainsItem(items: seq<string>, sep: char, k: nat)
    requires k < |items|
    ensures Contains(Join(items, sep), items[k])
  {
    var j := Join(items, sep);
    if |items| == 1 {
      assert OccursAt(j, items[0], 0);
      OccursThenContains(j, items[0], 0);
    } else if k == 0 {
      assert j[..|items[0]|] == items[0];
      assert OccursAt(j, items[0], 0);
      OccursThenContains(j, items[0], 0);
    } else {
      var tail := Join(items[1..], sep);
      JoinContainsItem(items[1..], sep, k - 1);
      ContainsIffOccurs(tail, items[k]);
      var i :| OccursAt(tail, items[k], i);
      var off := |items[0]| + 1;
      assert j == items[0] + [sep] + tail;
      assert j[off + i..off + i + |items[k]|] == tail[i..i + |items[k]|];
      assert OccursAt(j, items[k], off + i);
      OccursThenContains(j, items[k], off + i);
    }
  }
}
