/**
 * The Go string operations the provider relies on (`strings.Split`,
 * `strings.Join`, `strings.TrimPrefix`, `strings.TrimSuffix`,
 * `strings.Contains`, `strings.ToLower`, `strings.EqualFold`), over
 * `seq<char>`.  Case mapping covers the ASCII letters only.
 */
module Strings {

  predicate HasPrefix(s: string, p: string)
  {
    |p| <= |s| && s[..|p|] == p
  }

  predicate HasSuffix(s: string, p: string)
  {
    |p| <= |s| && s[|s| - |p|..] == p
  }

  /** `strings.TrimPrefix`: drops one leading copy of `p`, if there is one. */
  function TrimPrefix(s: string, p: string): (r: string)
    ensures HasPrefix(s, p) ==> s == p + r
    ensures !HasPrefix(s, p) ==> r == s
  {
    if HasPrefix(s, p) then s[|p|..] else s
  }

  /** `strings.TrimSuffix`: drops one trailing copy of `p`, if there is one. */
  function TrimSuffix(s: string, p: string): (r: string)
    ensures HasSuffix(s, p) ==> s == r + p
    ensures !HasSuffix(s, p) ==> r == s
  {
    if HasSuffix(s, p) then s[..|s| - |p|] else s
  }

  /** `sep` occurs in `s` starting at index `j`. */
  predicate OccursAt(s: string, sep: string, j: int)
  {
    0 <= j && j + |sep| <= |s| && s[j..j + |sep|] == sep
  }

  /** The index of the first occurrence of `sep` in `s`, or `|s|` when there is none. */
  function Find(s: string, sep: string): (i: nat)
    requires |sep| > 0
    ensures i <= |s|
    ensures i < |s| ==> OccursAt(s, sep, i)
    ensures forall j :: 0 <= j < i ==> !OccursAt(s, sep, j)
    ensures i == |s| ==> forall j :: !OccursAt(s, sep, j)
    decreases |s|
  {
    if |s| < |sep| then |s|
    else if s[..|sep|] == sep then 0
    else
      var k := Find(s[1..], sep);
      forall j | 0 <= j
        ensures OccursAt(s[1..], sep, j) <==> OccursAt(s, sep, j + 1)
      {
        if j + |sep| <= |s| - 1 {
          assert s[1..][j..j + |sep|] == s[j + 1..j + 1 + |sep|];
        }
      }
      assert !OccursAt(s, sep, 0) by {
        assert s[0..|sep|] == s[..|sep|];
      }
      forall j | 1 <= j < 1 + k
        ensures !OccursAt(s, sep, j)
      {
        assert !OccursAt(s[1..], sep, j - 1);
      }
      1 + k
  }

  /** `strings.Contains` for a non-empty needle. */
  function Contains(s: string, sub: string): (r: bool)
    requires |sub| > 0
    ensures r <==> exists j :: OccursAt(s, sub, j)
  {
    Find(s, sub) < |s|
  }

  /** `strings.Split`: the pieces of `s` between the occurrences of `sep`. */
  function Split(s: string, sep: string): (parts: seq<string>)
    requires |sep| > 0
    ensures |parts| >= 1
    decreases |s|
  {
    var i := Find(s, sep);
    if i == |s| then [s] else [s[..i]] + Split(s[i + |sep|..], sep)
  }

  /** `strings.Join`. */
  function Join(parts: seq<string>, sep: string): string
  {
    if |parts| == 0 then ""
    else if |parts| == 1 then parts[0]
    else parts[0] + sep + Join(parts[1..], sep)
  }

  /** Joining the pieces of a split gives back the original string. */
  lemma {:induction false} JoinSplit(s: string, sep: string)
    requires |sep| > 0
    ensures Join(Split(s, sep), sep) == s
    decreases |s|
  {
    var i := Find(s, sep);
    if i < |s| {
      var rest := s[i + |sep|..];
      var tail := Split(rest, sep);
      JoinSplit(rest, sep);
      assert Split(s, sep) == [s[..i]] + tail;
      assert ([s[..i]] + tail)[1..] == tail;
      assert Join(Split(s, sep), sep) == s[..i] + sep + rest;
      assert s == s[..i] + s[i..i + |sep|] + rest;
    }
  }

  /** Joining one more piece adds the separator and that piece at the end. */
  lemma {:induction false} JoinAppend(parts: seq<string>, x: string, sep: string)
    requires |parts| >= 1
    ensures Join(parts + [x], sep) == Join(parts, sep) + sep + x
    decreases |parts|
  {
    var ps := parts + [x];
    assert ps[0] == parts[0];
    if |parts| == 1 {
      assert ps == [parts[0], x];
      assert ps[1..] == [x];
    } else {
      assert ps[1..] == parts[1..] + [x];
      JoinAppend(parts[1..], x, sep);
      var j := Join(parts[1..], sep);
      assert Join(ps, sep) == parts[0] + sep + (j + sep + x);
      assert parts[0] + sep + (j + sep + x) == parts[0] + sep + j + sep + x;
    }
  }

  lemma FindAbsent(p: string, c: char)
    requires c !in p
    ensures Find(p, [c]) == |p|
  {
    forall j | 0 <= j < |p|
      ensures !OccursAt(p, [c], j)
    {
      assert p[j..j + 1] == [p[j]];
    }
  }

  lemma FindBefore(p: string, c: char, r: string)
    requires c !in p
    ensures Find(p + [c] + r, [c]) == |p|
  {
    var s := p + [c] + r;
    assert OccursAt(s, [c], |p|) by {
      assert s[|p|..|p| + 1] == [c];
    }
    forall j | 0 <= j < |p|
      ensures !OccursAt(s, [c], j)
    {
      assert s[j] == p[j];
    }
  }

  /**
   * Splitting on a one-character separator undoes a join of pieces that do
   * not contain that character.
   */
  lemma {:induction false} SplitJoin(parts: seq<string>, c: char)
    requires |parts| >= 1
    requires forall k :: 0 <= k < |parts| ==> c !in parts[k]
    ensures Split(Join(parts, [c]), [c]) == parts
    decreases |parts|
  {
    if |parts| == 1 {
      FindAbsent(parts[0], c);
    } else {
      var rest := Join(parts[1..], [c]);
      var s := parts[0] + [c] + rest;
      assert Join(parts, [c]) == s;
      FindBefore(parts[0], c, rest);
      assert s[..|parts[0]|] == parts[0];
      assert s[|parts[0]| + 1..] == rest;
      SplitJoin(parts[1..], c);
      assert parts == [parts[0]] + parts[1..];
    }
  }

  /** Every piece of a split on a one-character separator is free of that character. */
  lemma {:induction false} SplitPiecesFree(s: string, c: char)
    ensures forall k :: 0 <= k < |Split(s, [c])| ==> c !in Split(s, [c])[k]
    decreases |s|
  {
    var i := Find(s, [c]);
    if i < |s| {
      SplitPiecesFree(s[i + 1..], c);
      forall j | 0 <= j < i ensures s[..i][j] != c {
        if s[j] == c {
          assert s[j..j + 1] == [c];
          assert OccursAt(s, [c], j);
        }
      }
    } else {
      forall j | 0 <= j < |s| ensures s[j] != c {
        if s[j] == c {
          assert s[j..j + 1] == [c];
          assert OccursAt(s, [c], j);
        }
      }
    }
  }

  /** The pieces of a split hold no character that the whole string lacks. */
  lemma {:induction false} SplitPiecesAvoid(s: string, sep: string, x: char)
    requires |sep| > 0 && x !in s
    ensures forall k :: 0 <= k < |Split(s, sep)| ==> x !in Split(s, sep)[k]
    decreases |s|
  {
    var i := Find(s, sep);
    if i < |s| {
      var rest := s[i + |sep|..];
      assert forall j :: 0 <= j < |rest| ==> rest[j] == s[i + |sep| + j];
      SplitPiecesAvoid(rest, sep, x);
      assert forall j :: 0 <= j < i ==> s[..i][j] == s[j];
    }
  }

  /** A split on a one-character separator has a single piece exactly when the separator is absent. */
  lemma SplitSingle(s: string, c: char)
    ensures |Split(s, [c])| == 1 <==> c !in s
  {
    var i := Find(s, [c]);
    if c in s {
      var j :| 0 <= j < |s| && s[j] == c;
      assert s[j..j + 1] == [c];
      assert OccursAt(s, [c], j);
    } else {
      FindAbsent(s, c);
    }
  }

  /** A split has more than one piece exactly when the separator occurs. */
  lemma SplitSeveral(s: string, sep: string)
    requires |sep| > 0
    ensures |Split(s, sep)| >= 2 <==> Contains(s, sep)
  {
  }

  /** The number of bytes UTF-8 uses for one Unicode scalar value. */
  function Utf8Width(c: char): (n: nat)
    ensures 1 <= n <= 4
    ensures n == 1 <==> c as int < 0x80
  {
    if c as int < 0x80 then 1
    else if c as int < 0x800 then 2
    else if c as int < 0x1_0000 then 3
    else 4
  }

  /** Go's `len` of a string: the length of its UTF-8 encoding in bytes. */
  function Utf8Length(s: string): (n: nat)
    ensures |s| <= n <= 4 * |s|
    ensures (forall i :: 0 <= i < |s| ==> s[i] as int < 0x80) ==> n == |s|
    decreases |s|
  {
    if |s| == 0 then 0
    else
      assert forall i :: 0 <= i < |s| - 1 ==> s[1..][i] == s[i + 1];
      Utf8Width(s[0]) + Utf8Length(s[1..])
  }

  /** Every copy of one character takes that character's width. */
  lemma {:induction false} Utf8LengthOfCopies(s: string, c: char)
    requires forall i :: 0 <= i < |s| ==> s[i] == c
    ensures Utf8Length(s) == |s| * Utf8Width(c)
    decreases |s|
  {
    if |s| > 0 {
      Utf8LengthOfCopies(s[1..], c);
    }
  }

  /** ASCII lower-casing of one character. */
  function LowerChar(c: char): char
  {
    if 'A' <= c <= 'Z' then (c as int + 32) as char else c
  }

  /** `strings.ToLower` on ASCII letters. */
  function ToLower(s: string): (r: string)
    ensures |r| == |s|
    ensures forall i :: 0 <= i < |s| ==> r[i] == LowerChar(s[i])
    ensures forall i :: 0 <= i < |s| ==> !('A' <= r[i] <= 'Z')
  {
    seq(|s|, i requires 0 <= i < |s| => LowerChar(s[i]))
  }

  /** `strings.EqualFold`: equal up to ASCII case. */
  predicate EqualFold(a: string, b: string)
  {
    ToLower(a) == ToLower(b)
  }

  /** Strings equal up to case have the same length. */
  lemma EqualFoldLength(a: string, b: string)
    requires EqualFold(a, b)
    ensures |a| == |b|
  {
    assert |ToLower(a)| == |a|;
  }

  /** Lower-casing is idempotent, so a lower-cased key folds to itself. */
  lemma ToLowerIdempotent(s: string)
    ensures ToLower(ToLower(s)) == ToLower(s)
  {
  }
}
