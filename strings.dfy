/**
  The JavaScript string operations the site's logic relies on, over `seq<char>`:
  `trim`, `split` on one character, `startsWith`, `endsWith`, `includes`,
  `join`, and the code-unit order that `Array.prototype.sort` uses by default.
 */
module Strings {

  /** ECMAScript WhiteSpace and LineTerminator code points: what `String.prototype.trim` strips. */
  predicate IsSpace(c: char) {
    || c == '\t' || c == '\n' || c == '\U{000B}' || c == '\U{000C}' || c == '\r' || c == ' '
    || c == '\U{00A0}' || c == '\U{1680}' || ('\U{2000}' <= c <= '\U{200A}')
    || c == '\U{2028}' || c == '\U{2029}' || c == '\U{202F}' || c == '\U{205F}'
    || c == '\U{3000}' || c == '\U{FEFF}'
  }

  /** The characters a regular-expression `.` does not match (ECMAScript LineTerminator). */
  predicate IsLineTerminator(c: char) {
    c == '\n' || c == '\r' || c == '\U{2028}' || c == '\U{2029}'
  }

  /** Number of leading white-space characters. */
  function Leading(s: string): (n: nat)
    ensures n <= |s|
    ensures forall i :: 0 <= i < n ==> IsSpace(s[i])
    ensures n == |s| || !IsSpace(s[n])
    decreases |s|
  {
    if s == [] || !IsSpace(s[0]) then 0 else 1 + Leading(s[1..])
  }

  /** Number of trailing white-space characters. */
  function Trailing(s: string): (n: nat)
    ensures n <= |s|
    ensures forall i :: |s| - n <= i < |s| ==> IsSpace(s[i])
    ensures n == |s| || !IsSpace(s[|s| - n - 1])
    decreases |s|
  {
    if s == [] || !IsSpace(s[|s| - 1]) then 0 else 1 + Trailing(s[..|s| - 1])
  }

  /** `s.trim()`: the slice of `s` left after removing white space on both sides; what is
      removed is white space only, and what remains neither starts nor ends with it. */
  function Trim(s: string): (r: string)
    ensures Leading(s) + |r| <= |s| && r == s[Leading(s)..Leading(s) + |r|]
    ensures r == [] || (!IsSpace(r[0]) && !IsSpace(r[|r| - 1]))
    ensures forall i :: 0 <= i < Leading(s) ==> IsSpace(s[i])
    ensures forall i :: Leading(s) + |r| <= i < |s| ==> IsSpace(s[i])
  {
    var k := Leading(s);
    var t := s[k..];
    var n := Trailing(t);
    var r := t[..|t| - n];
    assert forall i :: k + |r| <= i < |s| ==> s[i] == t[i - k];
    assert r != [] ==> !IsSpace(r[0]) by {
      if r != [] { assert r[0] == s[k]; }
    }
    r
  }

  /** A trimmed string is empty exactly when the original is all white space. */
  lemma TrimEmpty(s: string)
    ensures Trim(s) == [] <==> forall i :: 0 <= i < |s| ==> IsSpace(s[i])
  {
    if Trim(s) != [] {
      assert !IsSpace(s[Leading(s)]);
    }
  }

  predicate StartsWith(s: string, prefix: string) {
    |prefix| <= |s| && s[..|prefix|] == prefix
  }

  predicate EndsWith(s: string, suffix: string) {
    |suffix| <= |s| && s[|s| - |suffix|..] == suffix
  }

  /** `hay.includes(needle)`; the empty needle is found in every string. */
  predicate Contains(hay: string, needle: string)
    decreases |hay|
  {
    StartsWith(hay, needle) || (hay != [] && Contains(hay[1..], needle))
  }

  /** An occurrence at a known offset is found. */
  lemma {:induction false} ContainsAt(hay: string, needle: string, k: nat)
    requires OccursAt(hay, needle, k)
    ensures Contains(hay, needle)
    decreases k
  {
    if k > 0 {
      assert hay[1..][k - 1..k - 1 + |needle|] == needle;
      ContainsAt(hay[1..], needle, k - 1);
    }
  }

  predicate OccursAt(hay: string, needle: string, k: nat) {
    k + |needle| <= |hay| && hay[k..k + |needle|] == needle
  }

  /** `Contains` finds an occurrence only where the needle really occurs. */
  lemma {:induction false} ContainsOnlyAt(hay: string, needle: string)
    requires Contains(hay, needle)
    ensures exists k: nat :: OccursAt(hay, needle, k)
    decreases |hay|
  {
    if !StartsWith(hay, needle) {
      ContainsOnlyAt(hay[1..], needle);
      var k: nat :| OccursAt(hay[1..], needle, k);
      assert hay[k + 1..k + 1 + |needle|] == hay[1..][k..k + |needle|];
      assert OccursAt(hay, needle, k + 1);
    } else {
      assert OccursAt(hay, needle, 0);
    }
  }

  /** `s.split(sep)` for a one-character separator. */
  function Split(s: string, sep: char): (r: seq<string>)
    ensures |r| >= 1
    ensures forall i :: 0 <= i < |r| ==> sep !in r[i]
    decreases |s|
  {
    if s == [] then [""]
    else
      var rest := Split(s[1..], sep);
      if s[0] == sep then [""] + rest else [[s[0]] + rest[0]] + rest[1..]
  }

  /** `parts.join(sep)`; the empty array joins to the empty string. */
  function Join(parts: seq<string>, sep: string): string
    decreases |parts|
  {
    if parts == [] then ""
    else if |parts| == 1 then parts[0]
    else parts[0] + sep + Join(parts[1..], sep)
  }

  /** Joining the pieces of a split with the separator gives back the string. */
  lemma {:induction false} SplitJoin(s: string, sep: char)
    ensures Join(Split(s, sep), [sep]) == s
    decreases |s|
  {
    if s != [] {
      var rest := Split(s[1..], sep);
      SplitJoin(s[1..], sep);
      if s[0] == sep {
        assert Split(s, sep) == [""] + rest;
        assert s == [sep] + s[1..];
      } else {
        if |rest| == 1 {
          assert s == [s[0]] + rest[0];
        } else {
          assert rest == [rest[0]] + rest[1..];
          assert Join(rest, [sep]) == rest[0] + [sep] + Join(rest[1..], [sep]);
          assert s == [s[0]] + s[1..];
        }
      }
    }
  }

  /** Appending one more part to a join. */
  lemma {:induction false} JoinSnoc(parts: seq<string>, p: string, sep: string)
    requires parts != []
    ensures Join(parts + [p], sep) == Join(parts, sep) + sep + p
    decreases |parts|
  {
    if |parts| > 1 {
      assert (parts + [p])[1..] == parts[1..] + [p];
      JoinSnoc(parts[1..], p, sep);
    }
  }

  /** Length of a join: every part plus one separator between each two neighbours. */
  function TotalLength(parts: seq<string>): nat
    decreases |parts|
  {
    if parts == [] then 0 else |parts[0]| + TotalLength(parts[1..])
  }

  lemma {:induction false} JoinLength(parts: seq<string>, sep: string)
    requires parts != []
    ensures |Join(parts, sep)| == TotalLength(parts) + (|parts| - 1) * |sep|
    decreases |parts|
  {
    if |parts| > 1 {
      JoinLength(parts[1..], sep);
    }
  }

  /** Where part `i` begins in a join: the parts before it and one separator after each. */
  function Offset(parts: seq<string>, sep: string, i: nat): nat
    requires i <= |parts|
  {
    TotalLength(parts[..i]) + i * |sep|
  }

  lemma OffsetShift(parts: seq<string>, sep: string, i: nat)
    requires 1 <= i <= |parts|
    ensures Offset(parts, sep, i) == |parts[0]| + |sep| + Offset(parts[1..], sep, i - 1)
  {
    assert parts[..i][1..] == parts[1..][..i - 1];
  }

  /** An occurrence in `tail` is an occurrence in `head + tail`, `|head|` further on. */
  lemma OccursAfter(head: string, tail: string, needle: string, o: nat)
    requires OccursAt(tail, needle, o)
    ensures OccursAt(head + tail, needle, |head| + o)
  {
    assert (head + tail)[|head| + o..|head| + o + |needle|] == tail[o..o + |needle|];
  }

  /** A join of two or more parts starts with the first part and a separator. */
  lemma JoinHead(parts: seq<string>, sep: string)
    requires |parts| > 1
    ensures OccursAt(Join(parts, sep), parts[0], Offset(parts, sep, 0))
    ensures OccursAt(Join(parts, sep), sep, Offset(parts, sep, 0) + |parts[0]|)
  {
    var whole := Join(parts, sep);
    assert parts[..0] == [];
    assert whole == parts[0] + sep + Join(parts[1..], sep);
    assert whole[..|parts[0]|] == parts[0];
    assert whole[|parts[0]|..|parts[0]| + |sep|] == sep;
  }

  /** Every part of a join sits at its offset. */
  lemma {:induction false} JoinPlacesParts(parts: seq<string>, sep: string)
    ensures forall i :: 0 <= i < |parts| ==> OccursAt(Join(parts, sep), parts[i], Offset(parts, sep, i))
    decreases |parts|
  {
    if |parts| > 1 {
      var rest := parts[1..];
      var head := parts[0] + sep;
      JoinPlacesParts(rest, sep);
      JoinHead(parts, sep);
      assert Join(parts, sep) == head + Join(rest, sep);
      forall i | 1 <= i < |parts|
        ensures OccursAt(Join(parts, sep), parts[i], Offset(parts, sep, i))
      {
        OffsetShift(parts, sep, i);
        OccursAfter(head, Join(rest, sep), rest[i - 1], Offset(rest, sep, i - 1));
      }
    } else if |parts| == 1 {
      assert parts[..0] == [];
      assert Join(parts, sep)[0..|parts[0]|] == parts[0];
    }
  }

  /** A separator follows every part of a join but the last. */
  lemma {:induction false} JoinPlacesSeparators(parts: seq<string>, sep: string)
    ensures forall i :: 0 <= i < |parts| - 1 ==> OccursAt(Join(parts, sep), sep, Offset(parts, sep, i) + |parts[i]|)
    decreases |parts|
  {
    if |parts| > 1 {
      var rest := parts[1..];
      var head := parts[0] + sep;
      JoinPlacesSeparators(rest, sep);
      JoinHead(parts, sep);
      assert Join(parts, sep) == head + Join(rest, sep);
      forall i | 1 <= i < |parts| - 1
        ensures OccursAt(Join(parts, sep), sep, Offset(parts, sep, i) + |parts[i]|)
      {
        OffsetShift(parts, sep, i);
        OccursAfter(head, Join(rest, sep), sep, Offset(rest, sep, i - 1) + |rest[i - 1]|);
      }
    }
  }

  /** The default order of `Array.prototype.sort` on strings: lexicographic by character,
      a proper prefix before its extensions. */
  predicate Below(a: string, b: string)
    decreases |a|
  {
    if a == [] then b != []
    else if b == [] then false
    else if a[0] != b[0] then a[0] < b[0]
    else Below(a[1..], b[1..])
  }

  lemma {:induction false} BelowIrreflexive(a: string)
    ensures !Below(a, a)
    decreases |a|
  {
    if a != [] {
      BelowIrreflexive(a[1..]);
    }
  }

  lemma {:induction false} BelowTransitive(a: string, b: string, c: string)
    requires Below(a, b) && Below(b, c)
    ensures Below(a, c)
    decreases |a|
  {
    if a != [] && b != [] && c != [] && a[0] == b[0] && b[0] == c[0] {
      BelowTransitive(a[1..], b[1..], c[1..]);
    }
  }

  lemma {:induction false} BelowTotal(a: string, b: string)
    requires a != b
    ensures Below(a, b) || Below(b, a)
    decreases |a|
  {
    if a != [] && b != [] && a[0] == b[0] {
      assert a == [a[0]] + a[1..] && b == [b[0]] + b[1..];
      BelowTotal(a[1..], b[1..]);
    }
  }

  lemma BelowAsymmetric(a: string, b: string)
    requires Below(a, b)
    ensures !Below(b, a)
  {
    if Below(b, a) {
      BelowTransitive(a, b, a);
      BelowIrreflexive(a);
    }
  }
}
