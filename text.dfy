/** The Python string operations the assembler relies on: `sep.join(parts)`,
    `s.split(c)` on a one-character separator, and `s.split(sep)[0]`. */
module Text {

  /** `sep.join(parts)`: the parts in order, with `sep` between neighbours and
      nothing before the first or after the last. */
  function Join(parts: seq<string>, sep: string): string
    decreases |parts|
  {
    if |parts| == 0 then ""
    else if |parts| == 1 then parts[0]
    else parts[0] + sep + Join(parts[1..], sep)
  }

  /** `s.split(c)`: the maximal pieces of `s` that do not contain `c`, in order;
      never empty (`"".split(c) == [""]`). */
  function Split(s: string, c: char): (r: seq<string>)
    ensures |r| > 0
    ensures forall k :: 0 <= k < |r| ==> c !in r[k]
    decreases |s|
  {
    if |s| == 0 then [""]
    else
      var rest := Split(s[1..], c);
      if s[0] == c then [""] + rest
      else [[s[0]] + rest[0]] + rest[1..]
  }

  /** The one-character strings of `s`, as Python yields them when it iterates a string. */
  function Chars(s: string): (r: seq<string>)
    ensures |r| == |s|
    ensures forall k :: 0 <= k < |s| ==> r[k] == [s[k]]
  {
    seq(|s|, k requires 0 <= k < |s| => [s[k]])
  }

  /** `sep` occurs in `s` starting at index `k`. */
  predicate OccursAt(s: string, sep: string, k: nat) {
    k + |sep| <= |s| && s[k..k + |sep|] == sep
  }

  /** `s.split(sep)[0]`: the part of `s` before the first occurrence of `sep`,
      or all of `s` when `sep` does not occur. */
  function PrefixBefore(s: string, sep: string): (r: string)
    requires |sep| > 0
    ensures |r| <= |s| && r == s[..|r|]
    ensures forall k :: 0 <= k < |r| ==> !OccursAt(s, sep, k)
    ensures |r| < |s| ==> OccursAt(s, sep, |r|)
    decreases |s|
  {
    if |s| == 0 || OccursAt(s, sep, 0) then ""
    else
      var t := PrefixBefore(s[1..], sep);
      forall k | 0 <= k
        ensures OccursAt(s[1..], sep, k) <==> OccursAt(s, sep, k + 1)
      {
        if k + 1 + |sep| <= |s| {
          assert s[1..][k..k + |sep|] == s[k + 1..k + 1 + |sep|];
        }
      }
      assert forall k :: 0 < k <= |t| ==> !OccursAt(s, sep, k) by {
        forall k | 0 < k <= |t| ensures !OccursAt(s, sep, k) {
          assert !OccursAt(s[1..], sep, k - 1);
        }
      }
      [s[0]] + t
  }

  /** Splitting a string that does not contain the separator gives the string back. */
  lemma {:induction false} SplitWithoutSeparator(p: string, c: char)
    requires c !in p
    ensures Split(p, c) == [p]
    decreases |p|
  {
    if |p| > 0 {
      SplitWithoutSeparator(p[1..], c);
      assert [p[0]] + p[1..] == p;
    }
  }

  /** A piece free of the separator followed by the separator splits off as one piece. */
  lemma {:induction false} SplitAfterPiece(p: string, c: char, rest: string)
    requires c !in p
    ensures Split(p + [c] + rest, c) == [p] + Split(rest, c)
    decreases |p|
  {
    var s := p + [c] + rest;
    if |p| == 0 {
      assert s[1..] == rest;
    } else {
      assert s[1..] == p[1..] + [c] + rest;
      SplitAfterPiece(p[1..], c, rest);
      assert [p[0]] + p[1..] == p;
    }
  }

  /** Round trip: joining pieces that are free of `c` with `c` and splitting on `c`
      gives the pieces back, one per piece, in order. */
  lemma {:induction false} SplitJoin(parts: seq<string>, c: char)
    requires |parts| > 0
    requires forall k :: 0 <= k < |parts| ==> c !in parts[k]
    ensures Split(Join(parts, [c]), c) == parts
    decreases |parts|
  {
    if |parts| == 1 {
      SplitWithoutSeparator(parts[0], c);
    } else {
      SplitJoin(parts[1..], c);
      SplitAfterPiece(parts[0], c, Join(parts[1..], [c]));
      assert [parts[0]] + parts[1..] == parts;
    }
  }

  /** Joining the characters of a string with the empty separator gives the string:
      this is what `"".join(s)` does to a single string argument. */
  lemma {:induction false} JoinChars(s: string)
    ensures Join(Chars(s), "") == s
    decreases |s|
  {
    if |s| > 1 {
      JoinChars(s[1..]);
      assert Chars(s)[1..] == Chars(s[1..]);
      assert [s[0]] + s[1..] == s;
    }
  }

  /** Joining two non-empty lists is joining each and putting one separator between. */
  lemma {:induction false} JoinAppend(a: seq<string>, b: seq<string>, sep: string)
    requires |a| > 0 && |b| > 0
    ensures Join(a + b, sep) == Join(a, sep) + sep + Join(b, sep)
    decreases |a|
  {
    if |a| == 1 {
      assert (a + b)[1..] == b;
    } else {
      JoinAppend(a[1..], b, sep);
      assert (a + b)[1..] == a[1..] + b;
      var x, y, z := a[0], Join(a[1..], sep), Join(b, sep);
      assert x + sep + (y + sep + z) == (x + sep + y) + sep + z;
    }
  }
}
