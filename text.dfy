/** The JavaScript string operations the core relies on, stated over Dafny
    strings (sequences of Unicode code points; JavaScript counts UTF-16 code
    units, which differs only for characters outside the Basic Multilingual
    Plane). */
module Text {

  /** The characters `String.prototype.trim` and the regular-expression class
      `\s` treat as white space: WhiteSpace and LineTerminator of ECMAScript. */
  predicate IsSpace(c: char) {
    c == '\t' || c == '\n' || c == '\U{000B}' || c == '\U{000C}' || c == '\r' || c == ' '
    || c == '\U{00A0}' || c == '\U{1680}' || ('\U{2000}' <= c <= '\U{200A}')
    || c == '\U{2028}' || c == '\U{2029}' || c == '\U{202F}' || c == '\U{205F}'
    || c == '\U{3000}' || c == '\U{FEFF}'
  }

  predicate IsDigit(c: char) {
    '0' <= c <= '9'
  }

  /** The first index from `i` on that does not hold white space. */
  function SpaceRunEnd(s: string, i: nat): (j: nat)
    requires i <= |s|
    ensures i <= j <= |s|
    ensures forall k :: i <= k < j ==> IsSpace(s[k])
    ensures j == |s| || !IsSpace(s[j])
    decreases |s| - i
  {
    if i < |s| && IsSpace(s[i]) then SpaceRunEnd(s, i + 1) else i
  }

  /** The start of the run of white space that ends just before `j`. */
  function SpaceRunStart(s: string, j: nat): (i: nat)
    requires j <= |s|
    ensures i <= j
    ensures forall k :: i <= k < j ==> IsSpace(s[k])
    ensures i == 0 || !IsSpace(s[i - 1])
  {
    if j > 0 && IsSpace(s[j - 1]) then SpaceRunStart(s, j - 1) else j
  }

  /** Removes the leading white space. */
  function TrimStart(s: string): (r: string)
    ensures |r| <= |s|
  {
    s[SpaceRunEnd(s, 0)..]
  }

  /** Removes the trailing white space. */
  function TrimEnd(s: string): (r: string)
    ensures |r| <= |s|
  {
    s[..SpaceRunStart(s, |s|)]
  }

  /** `TrimStart` drops exactly the leading run of white space: what is left
      starts with a character that is not white space. */
  lemma TrimStartShape(s: string)
    ensures TrimStart(s) == s[SpaceRunEnd(s, 0)..]
    ensures forall i :: 0 <= i < SpaceRunEnd(s, 0) ==> IsSpace(s[i])
    ensures TrimStart(s) == [] || !IsSpace(TrimStart(s)[0])
  {
    var j := SpaceRunEnd(s, 0);
    assert j < |s| ==> s[j..][0] == s[j];
  }

  /** `TrimEnd` drops exactly the trailing run of white space: what is left
      ends with a character that is not white space. */
  lemma TrimEndShape(s: string)
    ensures TrimEnd(s) == s[..|TrimEnd(s)|]
    ensures forall i :: |TrimEnd(s)| <= i < |s| ==> IsSpace(s[i])
    ensures TrimEnd(s) == [] || !IsSpace(TrimEnd(s)[|TrimEnd(s)| - 1])
  {
    var i := SpaceRunStart(s, |s|);
    assert i > 0 ==> s[..i][i - 1] == s[i - 1];
  }

  /** A run of white space ends exactly at the first character that is not
      white space. */
  lemma {:induction false} SpaceRunEndIs(s: string, i: nat, j: nat)
    requires i <= j <= |s|
    requires forall k :: i <= k < j ==> IsSpace(s[k])
    requires j == |s| || !IsSpace(s[j])
    ensures SpaceRunEnd(s, i) == j
    decreases j - i
  {
    if i < j {
      SpaceRunEndIs(s, i + 1, j);
    }
  }

  /** `s.trim()`. */
  function Trim(s: string): (r: string)
  {
    TrimEnd(TrimStart(s))
  }

  /** How many leading characters `trim` cuts off. */
  function TrimOffset(s: string): (k: nat)
    ensures k + |Trim(s)| <= |s|
  {
    SpaceRunEnd(s, 0)
  }

  /** What `trim` leaves: a contiguous piece of the input whose ends are not
      white space, everything cut off on either side being white space. */
  lemma TrimBounds(s: string)
    ensures Trim(s) == s[TrimOffset(s)..TrimOffset(s) + |Trim(s)|]
    ensures forall i :: 0 <= i < TrimOffset(s) ==> IsSpace(s[i])
    ensures forall i :: TrimOffset(s) + |Trim(s)| <= i < |s| ==> IsSpace(s[i])
    ensures Trim(s) == [] || (!IsSpace(Trim(s)[0]) && !IsSpace(Trim(s)[|Trim(s)| - 1]))
  {
    var t := TrimStart(s);
    TrimStartShape(s);
    TrimEndShape(t);
    PrefixOfSuffix(s, t, TrimEnd(t), SpaceRunEnd(s, 0));
  }

  /** A prefix `r` of the suffix `t` of `s` that starts at `k`, followed in
      `t` by white space only. */
  lemma PrefixOfSuffix(s: string, t: string, r: string, k: nat)
    requires k <= |s| && t == s[k..] && |r| <= |t| && r == t[..|r|]
    requires forall i :: |r| <= i < |t| ==> IsSpace(t[i])
    ensures r == s[k..k + |r|]
    ensures forall i :: k + |r| <= i < |s| ==> IsSpace(s[i])
    ensures r != [] ==> r[0] == t[0]
  {
    assert s[k..][..|r|] == s[k..k + |r|];
    forall i | k + |r| <= i < |s| ensures IsSpace(s[i]) {
      assert s[i] == t[i - k];
    }
  }

  /** A character that is not white space survives `trim`, at its place
      shifted by the offset. */
  lemma TrimKeeps(s: string, i: nat)
    requires i < |s| && !IsSpace(s[i])
    ensures TrimOffset(s) <= i < TrimOffset(s) + |Trim(s)|
    ensures Trim(s)[i - TrimOffset(s)] == s[i]
  {
    TrimBounds(s);
    var k := TrimOffset(s);
    var t := Trim(s);
    var piece := s[k..k + |t|];
    assert piece[i - k] == s[i];
  }

  /** A string without white space at either end is left as it is by `trim`. */
  lemma TrimIdle(s: string)
    requires s == [] || (!IsSpace(s[0]) && !IsSpace(s[|s| - 1]))
    ensures Trim(s) == s
  {
  }

  /** `s.startsWith(p)`. */
  predicate StartsWith(s: string, p: string) {
    |p| <= |s| && s[..|p|] == p
  }

  /** `sub` occurs in `s` starting at index `i`. */
  predicate OccursAt(s: string, sub: string, i: int) {
    0 <= i <= |s| - |sub| && s[i..i + |sub|] == sub
  }

  /** `s.includes(sub)`. */
  function Contains(s: string, sub: string): (b: bool)
    ensures b <==> exists i :: OccursAt(s, sub, i)
    decreases |s|
  {
    if |sub| > |s| then false
    else if s[..|sub|] == sub then assert OccursAt(s, sub, 0); true
    else
      var b := Contains(s[1..], sub);
      assert b ==> exists i :: OccursAt(s, sub, i) by {
        if b {
          var j :| OccursAt(s[1..], sub, j);
          assert OccursAt(s, sub, j + 1);
        }
      }
      assert (exists i :: OccursAt(s, sub, i)) ==> b by {
        if exists i :: OccursAt(s, sub, i) {
          var i :| OccursAt(s, sub, i);
          assert i != 0;
          assert s[1..][i - 1..i - 1 + |sub|] == s[i..i + |sub|];
          assert OccursAt(s[1..], sub, i - 1);
        }
      }
      b
  }

  /** `s.slice(0, n)` / `s.substring(0, n)` for a non-negative `n`. */
  function Take(s: string, n: nat): (r: string)
    ensures |r| == if n < |s| then n else |s|
    ensures r == s[..|r|]
  {
    if n < |s| then s[..n] else s
  }

  /** `s.toLowerCase()` restricted to ASCII letters. */
  function LowerAscii(s: string): (r: string)
    ensures |r| == |s|
    ensures forall i :: 0 <= i < |s| ==>
      r[i] == if 'A' <= s[i] <= 'Z' then (s[i] - 'A' + 'a') as char else s[i]
  {
    seq(|s|, i requires 0 <= i < |s| =>
      if 'A' <= s[i] <= 'Z' then (s[i] as int - 'A' as int + 'a' as int) as char else s[i])
  }

  /** `parts.join(sep)`. */
  function Join(parts: seq<string>, sep: string): string
  {
    if |parts| == 0 then ""
    else if |parts| == 1 then parts[0]
    else parts[0] + sep + Join(parts[1..], sep)
  }

  /** Where part `i` begins in `Join(parts, sep)`: the lengths of the parts
      before it, each followed by a separator. */
  function JoinOffset(parts: seq<string>, sep: string, i: nat): nat
    requires i <= |parts|
  {
    if i == 0 then 0 else |parts[0]| + |sep| + JoinOffset(parts[1..], sep, i - 1)
  }

  /** The joined text holds every part, in order, at its offset. */
  lemma {:induction false} JoinSlice(parts: seq<string>, sep: string, i: nat)
    requires i < |parts|
    ensures JoinOffset(parts, sep, i) + |parts[i]| <= |Join(parts, sep)|
    ensures Join(parts, sep)[JoinOffset(parts, sep, i)..JoinOffset(parts, sep, i) + |parts[i]|] == parts[i]
  {
    if i > 0 {
      JoinCons(parts, sep, i);
      JoinSlice(parts[1..], sep, i - 1);
      var off := JoinOffset(parts[1..], sep, i - 1);
      SliceAfter(parts[0] + sep, Join(parts[1..], sep), off, off + |parts[i]|);
    } else if |parts| > 1 {
      SliceAfter([], Join(parts, sep), 0, |parts[0]|);
      JoinCons(parts, sep, 0);
      SliceBefore(parts[0], sep + Join(parts[1..], sep));
    }
  }

  /** Behind a prefix, part `i` of the joined text sits at its offset
      shifted by the prefix. */
  lemma PrefixedJoinSlice(prefix: string, parts: seq<string>, sep: string, i: nat)
    requires i < |parts|
    ensures var at := |prefix| + JoinOffset(parts, sep, i);
      at + |parts[i]| <= |prefix + Join(parts, sep)|
      && (prefix + Join(parts, sep))[at..at + |parts[i]|] == parts[i]
  {
    JoinSlice(parts, sep, i);
    var off := JoinOffset(parts, sep, i);
    SliceAfter(prefix, Join(parts, sep), off, off + |parts[i]|);
  }

  /** One step of `Join` and of `JoinOffset`. */
  lemma JoinCons(parts: seq<string>, sep: string, i: nat)
    requires |parts| > 1 && i < |parts|
    ensures Join(parts, sep) == (parts[0] + sep) + Join(parts[1..], sep)
    ensures Join(parts, sep) == parts[0] + (sep + Join(parts[1..], sep))
    ensures i > 0 ==> JoinOffset(parts, sep, i) == |parts[0] + sep| + JoinOffset(parts[1..], sep, i - 1)
    ensures i > 0 ==> parts[1..][i - 1] == parts[i]
  {
  }

  /** A slice of the second half of `a + b`. */
  lemma SliceAfter(a: string, b: string, lo: nat, hi: nat)
    requires lo <= hi <= |b|
    ensures (a + b)[|a| + lo..|a| + hi] == b[lo..hi]
  {
  }

  /** The first half of `a + b`. */
  lemma SliceBefore(a: string, b: string)
    ensures (a + b)[..|a|] == a && (a + b)[0..|a|] == a
  {
  }

  /** Joining non-empty parts gives the empty string only when there are
      none. */
  lemma {:induction false} JoinEmpty(parts: seq<string>, sep: string)
    requires forall i :: 0 <= i < |parts| ==> parts[i] != ""
    ensures Join(parts, sep) == "" <==> parts == []
  {
    if |parts| > 1 {
      assert Join(parts, sep) == parts[0] + sep + Join(parts[1..], sep);
      assert |Join(parts, sep)| >= |parts[0]|;
    }
  }

  /** `s.split(sep)` for a one-character separator: the pieces between the
      separators, in order, one more than there are separators. */
  function Split(s: string, sep: char): (parts: seq<string>)
    ensures |parts| >= 1
    ensures forall i :: 0 <= i < |parts| ==> sep !in parts[i]
  {
    if s == [] then [""]
    else if s[0] == sep then [""] + Split(s[1..], sep)
    else
      var rest := Split(s[1..], sep);
      [[s[0]] + rest[0]] + rest[1..]
  }

  /** Splitting and joining back with the same separator gives the input. */
  lemma {:induction false} JoinSplit(s: string, sep: char)
    ensures Join(Split(s, sep), [sep]) == s
  {
    if s == [] {
    } else if s[0] == sep {
      JoinSplit(s[1..], sep);
      var rest := Split(s[1..], sep);
      assert Split(s, sep) == [""] + rest;
      assert Join(Split(s, sep), [sep]) == "" + [sep] + Join(rest, [sep]);
    } else {
      JoinSplit(s[1..], sep);
      var rest := Split(s[1..], sep);
      if |rest| == 1 {
        assert Split(s, sep) == [[s[0]] + rest[0]];
      } else {
        assert Split(s, sep)[1..] == rest[1..];
        assert Join(rest, [sep]) == rest[0] + [sep] + Join(rest[1..], [sep]);
      }
    }
  }

  /** Joining pieces free of the separator and splitting again gives the
      pieces back. */
  lemma {:induction false} SplitJoin(parts: seq<string>, sep: char)
    requires |parts| >= 1
    requires forall i :: 0 <= i < |parts| ==> sep !in parts[i]
    ensures Split(Join(parts, [sep]), sep) == parts
  {
    if |parts| == 1 {
      SplitNoSep(parts[0], sep);
    } else {
      SplitJoin(parts[1..], sep);
      SplitPrefix(parts[0], Join(parts[1..], [sep]), sep);
      assert Join(parts, [sep]) == parts[0] + ([sep] + Join(parts[1..], [sep]));
      assert [parts[0]] + parts[1..] == parts;
    }
  }

  lemma {:induction false} SplitNoSep(s: string, sep: char)
    requires sep !in s
    ensures Split(s, sep) == [s]
  {
    if s != [] {
      assert s[0] != sep && sep !in s[1..];
      SplitNoSep(s[1..], sep);
      assert [s[0]] + s[1..] == s;
    }
  }

  /** A separator-free piece followed by a separator splits off as the first
      part. */
  lemma {:induction false} SplitPrefix(p: string, t: string, sep: char)
    requires sep !in p
    ensures Split(p + [sep] + t, sep) == [p] + Split(t, sep)
  {
    if p == [] {
      assert p + [sep] + t == [sep] + t;
      assert ([sep] + t)[1..] == t;
    } else {
      SplitPrefix(p[1..], t, sep);
      assert (p + [sep] + t)[1..] == p[1..] + [sep] + t;
      assert [p[0]] + p[1..] == p;
    }
  }

  function DigitChar(d: nat): (c: char)
    requires d < 10
    ensures IsDigit(c)
  {
    ('0' as int + d) as char
  }

  /** The decimal digits of a natural number. */
  function NatToString(n: nat): (r: string)
    ensures |r| >= 1
    ensures forall i :: 0 <= i < |r| ==> IsDigit(r[i])
  {
    if n < 10 then [DigitChar(n)] else NatToString(n / 10) + [DigitChar(n % 10)]
  }

  /** `n.toString()` for an integer. */
  function IntToString(n: int): (r: string)
    ensures |r| >= 1
  {
    if n < 0 then "-" + NatToString(-n) else NatToString(n)
  }

  /** The value of a decimal digit (0 for any other character). */
  function DigitValue(c: char): nat
  {
    if IsDigit(c) then c as int - '0' as int else 0
  }

  /** The number a string of decimal digits denotes. */
  function DigitsValue(s: string): nat
  {
    if s == [] then 0 else 10 * DigitsValue(s[..|s| - 1]) + DigitValue(s[|s| - 1])
  }

  /** Reading back the digits of `n` gives `n`. */
  lemma {:induction false} DigitsOfNat(n: nat)
    ensures DigitsValue(NatToString(n)) == n
  {
    if n >= 10 {
      DigitsOfNat(n / 10);
      var r := NatToString(n);
      assert r[..|r| - 1] == NatToString(n / 10);
    }
  }
}
