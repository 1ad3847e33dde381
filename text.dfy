/** Strings as Python's `str` sees them: whitespace, digits, `strip`, `split`,
    `lower`, the `in` substring test and decimal rendering of naturals. */
module Text {

  /** Python's `str.isspace()`; a `re` pattern over `str` uses the same class for `\s`. */
  predicate IsSpace(c: char)
  {
    || ('\t' <= c <= '\r')
    || ('\U{1C}' <= c <= ' ')
    || c == '\U{85}' || c == '\U{A0}' || c == '\U{1680}'
    || ('\U{2000}' <= c <= '\U{200A}')
    || c == '\U{2028}' || c == '\U{2029}' || c == '\U{202F}' || c == '\U{205F}' || c == '\U{3000}'
  }

  /** `\d`, restricted to the ASCII digits. */
  predicate IsDigit(c: char)
  {
    '0' <= c <= '9'
  }

  /** `[A-Z]`. */
  predicate IsUpper(c: char)
  {
    'A' <= c <= 'Z'
  }

  ghost predicate AllSpace(s: string)
  {
    forall i :: 0 <= i < |s| ==> IsSpace(s[i])
  }

  predicate NotNewline(c: char)
  {
    c != '\n'
  }

  /** Length of the longest prefix of `s` whose characters all satisfy `p`. */
  function Run(p: char -> bool, s: string): (n: nat)
    ensures n <= |s|
    ensures forall i :: 0 <= i < n ==> p(s[i])
    ensures n < |s| ==> !p(s[n])
    decreases |s|
  {
    if s != [] && p(s[0]) then 1 + Run(p, s[1..]) else 0
  }

  /** Length of the leading whitespace of `s`. */
  function SpaceRun(s: string): (n: nat)
    ensures n <= |s|
    ensures AllSpace(s[..n])
    ensures n < |s| ==> !IsSpace(s[n])
  {
    Run(IsSpace, s)
  }

  /** Length of the leading digits of `s`. */
  function DigitRun(s: string): (n: nat)
    ensures n <= |s|
    ensures forall i :: 0 <= i < n ==> IsDigit(s[i])
    ensures n < |s| ==> !IsDigit(s[n])
  {
    Run(IsDigit, s)
  }

  /** Length of the longest prefix of `s` without a newline (what `[^\n]*` matches). */
  function LineRun(s: string): (n: nat)
    ensures n <= |s|
    ensures '\n' !in s[..n]
    ensures n < |s| ==> s[n] == '\n'
  {
    var n := Run(NotNewline, s);
    assert forall i :: 0 <= i < n ==> s[..n][i] != '\n';
    n
  }

  /** Neither begins nor ends with whitespace. */
  predicate IsStripped(s: string)
  {
    s == [] || (!IsSpace(s[0]) && !IsSpace(s[|s| - 1]))
  }

  /** `s.rstrip()`. */
  function TrimEnd(s: string): (r: string)
    ensures r <= s
    ensures r == [] || !IsSpace(r[|r| - 1])
    ensures AllSpace(s[|r|..])
    decreases |s|
  {
    if s != [] && IsSpace(s[|s| - 1]) then
      var r := TrimEnd(s[..|s| - 1]);
      TrimmedSpace(s, r);
      r
    else s
  }

  /** Trailing whitespace before a last whitespace character is still trailing whitespace. */
  lemma TrimmedSpace(s: string, r: string)
    requires s != [] && IsSpace(s[|s| - 1])
    requires |r| <= |s| - 1 && AllSpace(s[..|s| - 1][|r|..])
    ensures AllSpace(s[|r|..])
  {
    var t := s[..|s| - 1][|r|..];
    forall i | 0 <= i < |s| - |r|
      ensures IsSpace(s[|r|..][i])
    {
      if i < |t| {
        assert s[|r|..][i] == t[i];
      }
    }
  }

  /** `s.strip()`: what is left once the leading and the trailing whitespace are removed. */
  function Strip(s: string): (r: string)
    ensures IsStripped(r)
    ensures SpaceRun(s) + |r| <= |s|
    ensures r == s[SpaceRun(s)..SpaceRun(s) + |r|]
    ensures AllSpace(s[SpaceRun(s) + |r|..])
    ensures r == [] <==> AllSpace(s)
  {
    var a := SpaceRun(s);
    var r := TrimEnd(s[a..]);
    StripShape(s, a, r);
    r
  }

  lemma StripShape(s: string, a: nat, r: string)
    requires a == SpaceRun(s) && r == TrimEnd(s[a..])
    ensures IsStripped(r)
    ensures r == s[a..a + |r|]
    ensures AllSpace(s[a + |r|..])
    ensures r == [] <==> AllSpace(s)
  {
    var t := s[a..];
    assert t[|r|..] == s[a + |r|..];
    assert r == t[..|r|];
    if r != [] {
      assert r[0] == s[a];
    }
    StripEmpty(s, a, r);
  }

  /** The stripped text is empty exactly when the whole text is whitespace. */
  lemma StripEmpty(s: string, a: nat, r: string)
    requires a == SpaceRun(s) && r <= s[a..] && AllSpace(s[a + |r|..])
    ensures r == [] <==> AllSpace(s)
  {
    if r == [] {
      assert a == |s|;
      assert s[..a] == s;
    } else {
      assert a < |s| && !IsSpace(s[a]);
    }
  }

  /** `strip` leaves a string that neither begins nor ends with whitespace as it is. */
  lemma StripStripped(s: string)
    requires IsStripped(s)
    ensures Strip(s) == s
  {
    assert SpaceRun(s) == 0;
    assert s[0..] == s;
  }

  /** `s.strip()` does not see the leading whitespace it removes. */
  lemma StripLeading(s: string)
    ensures Strip(s[SpaceRun(s)..]) == Strip(s)
  {
    var a := SpaceRun(s);
    var u := s[a..];
    if a == |s| {
      assert s[..a] == s;
    } else {
      assert u[0] == s[a];
      assert SpaceRun(u) == 0;
      assert u[0..] == u;
    }
  }

  /** The characters of `s` that are not whitespace, in order. */
  function NoSpace(s: string): (r: string)
    decreases |s|
  {
    if s == [] then []
    else (if IsSpace(s[0]) then [] else [s[0]]) + NoSpace(s[1..])
  }

  /** `NoSpace` of every piece, concatenated. */
  function NoSpaceAll(ps: seq<string>): string
    decreases |ps|
  {
    if ps == [] then [] else NoSpace(ps[0]) + NoSpaceAll(ps[1..])
  }

  /** Python's `s.split(sep)` for a one-character separator. */
  function SplitOn(s: string, sep: char): (r: seq<string>)
    ensures |r| >= 1
    ensures forall i :: 0 <= i < |r| ==> sep !in r[i]
    decreases |s|
  {
    if s == [] then [""]
    else
      var rest := SplitOn(s[1..], sep);
      if s[0] == sep then [""] + rest
      else [[s[0]] + rest[0]] + rest[1..]
  }

  /** `sep.join(ps)`. */
  function Join(ps: seq<string>, sep: char): string
    requires |ps| >= 1
    decreases |ps|
  {
    if |ps| == 1 then ps[0] else ps[0] + [sep] + Join(ps[1..], sep)
  }

  /** ASCII `lower()` of one character. */
  function LowerChar(c: char): char
  {
    if 'A' <= c <= 'Z' then (c as int + 32) as char else c
  }

  /** `s.lower()`, on ASCII letters. */
  function Lower(s: string): (r: string)
    ensures |r| == |s|
    ensures forall i :: 0 <= i < |s| ==> r[i] == LowerChar(s[i])
  {
    seq(|s|, i requires 0 <= i < |s| => LowerChar(s[i]))
  }

  /** Python's `p in s` on two strings. */
  predicate IsSubstring(p: string, s: string)
    decreases |s|
  {
    p <= s || (s != [] && IsSubstring(p, s[1..]))
  }

  function DigitChar(d: nat): (c: char)
    requires d < 10
    ensures IsDigit(c)
  {
    ('0' as int + d) as char
  }

  /** `str(n)` for a natural number. */
  function NatToDecimal(n: nat): (r: string)
    ensures |r| >= 1
    ensures forall i :: 0 <= i < |r| ==> IsDigit(r[i])
    decreases n
  {
    if n < 10 then [DigitChar(n)] else NatToDecimal(n / 10) + [DigitChar(n % 10)]
  }

  /** `int(s)` for a string of decimal digits. */
  function DecimalValue(s: string): nat
    requires forall i :: 0 <= i < |s| ==> IsDigit(s[i])
    decreases |s|
  {
    if s == [] then 0
    else
      var last := s[|s| - 1];
      assert IsDigit(last);
      10 * DecimalValue(s[..|s| - 1]) + (last as int - '0' as int)
  }

  /** Regrouping a concatenation; proofs that compare a sequence grown in several
      steps with its specification call it where the solver would not regroup unaided. */
  lemma AppendAssoc<T>(a: seq<T>, b: seq<T>, c: seq<T>)
    ensures a + b + c == a + (b + c)
  {
  }

  /** A non-empty sequence is its front followed by its last element. */
  lemma FrontLast<T>(xs: seq<T>)
    requires xs != []
    ensures xs == xs[..|xs| - 1] + [xs[|xs| - 1]]
  {
  }

  /** A sequence is its three consecutive slices. */
  lemma ThreeSlices<T>(xs: seq<T>, j: nat, k: nat)
    requires j <= k <= |xs|
    ensures xs == xs[..j] + xs[j..k] + xs[k..]
  {
  }

  // ----- lemmas -----

  lemma {:induction false} NoSpaceAppend(a: string, b: string)
    ensures NoSpace(a + b) == NoSpace(a) + NoSpace(b)
    decreases |a|
  {
    if a != [] {
      assert (a + b)[1..] == a[1..] + b;
      NoSpaceAppend(a[1..], b);
    } else {
      assert a + b == b;
    }
  }

  lemma {:induction false} NoSpaceOfSpace(s: string)
    requires AllSpace(s)
    ensures NoSpace(s) == []
    decreases |s|
  {
    if s != [] {
      NoSpaceOfSpace(s[1..]);
    }
  }

  /** Stripping only ever removes whitespace. */
  lemma NoSpaceStrip(s: string)
    ensures NoSpace(Strip(s)) == NoSpace(s)
  {
    var a := SpaceRun(s);
    var r := Strip(s);
    var b := a + |r|;
    assert s == s[..a] + r + s[b..];
    NoSpaceAppend(s[..a] + r, s[b..]);
    NoSpaceAppend(s[..a], r);
    NoSpaceOfSpace(s[..a]);
    NoSpaceOfSpace(s[b..]);
  }

  lemma {:induction false} NoSpaceAllAppend(ps: seq<string>, qs: seq<string>)
    ensures NoSpaceAll(ps + qs) == NoSpaceAll(ps) + NoSpaceAll(qs)
    decreases |ps|
  {
    if ps != [] {
      assert (ps + qs)[1..] == ps[1..] + qs;
      NoSpaceAllAppend(ps[1..], qs);
    } else {
      assert ps + qs == qs;
    }
  }

  /** Splitting and joining with the same separator give back the string. */
  lemma {:induction false} JoinSplit(s: string, sep: char)
    ensures Join(SplitOn(s, sep), sep) == s
    decreases |s|
  {
    if s != [] {
      var rest := SplitOn(s[1..], sep);
      JoinSplit(s[1..], sep);
      if s[0] == sep {
        assert ([""] + rest)[1..] == rest;
      } else {
        var r := [[s[0]] + rest[0]] + rest[1..];
        if |rest| > 1 {
          assert r[1..] == rest[1..];
          assert Join(rest, sep) == rest[0] + [sep] + Join(rest[1..], sep);
        }
      }
    }
  }

  /** Joining pieces that do not contain the separator and splitting again gives back the pieces. */
  lemma {:induction false} SplitJoin(ps: seq<string>, sep: char)
    requires |ps| >= 1
    requires forall i :: 0 <= i < |ps| ==> sep !in ps[i]
    ensures SplitOn(Join(ps, sep), sep) == ps
    decreases |ps|, |ps[0]|
  {
    var j := Join(ps, sep);
    if ps[0] == [] {
      if |ps| > 1 {
        assert j == [sep] + Join(ps[1..], sep);
        assert j[1..] == Join(ps[1..], sep);
        SplitJoin(ps[1..], sep);
      }
    } else {
      var qs := [ps[0][1..]] + ps[1..];
      assert forall i :: 0 <= i < |qs| ==> sep !in qs[i] by {
        forall i | 0 <= i < |qs| ensures sep !in qs[i] {
          if i == 0 {
            assert forall k :: 0 <= k < |qs[0]| ==> qs[0][k] == ps[0][k + 1];
          } else {
            assert qs[i] == ps[i];
          }
        }
      }
      SplitJoin(qs, sep);
      assert ps[0] == [ps[0][0]] + qs[0];
      if |ps| > 1 {
        assert qs[1..] == ps[1..];
        assert j == [ps[0][0]] + Join(qs, sep);
      } else {
        assert j == [ps[0][0]] + Join(qs, sep);
      }
      assert j[1..] == Join(qs, sep);
      assert j[0] == ps[0][0] && j[0] != sep;
      assert [[j[0]] + qs[0]] + qs[1..] == ps;
    }
  }

  /** The first line of `t + "\n" + rest` is `t` when `t` holds no line break. */
  lemma FirstLine(t: string, rest: string)
    requires '\n' !in t
    ensures LineRun(t + "\n" + rest) == |t|
  {
    var s := t + "\n" + rest;
    var n := LineRun(s);
    assert s[|t|] == '\n';
    assert forall k :: 0 <= k < |t| ==> s[k] == t[k];
    assert forall k :: 0 <= k < n ==> s[k] == s[..n][k] != '\n';
    if n < |t| {
      assert false;
    }
    if n > |t| {
      assert false;
    }
  }

  /** A string without the separator is a single piece. */
  lemma {:induction false} SplitOnWhole(s: string, sep: char)
    requires sep !in s
    ensures SplitOn(s, sep) == [s]
    decreases |s|
  {
    if s != [] {
      SplitOnWhole(s[1..], sep);
      assert [s[0]] + s[1..] == s;
    }
  }

  /** The first piece of a split runs up to the first separator, or to the end. */
  lemma {:induction false} SplitOnHead(s: string, sep: char, m: nat)
    requires m <= |s| && sep !in s[..m]
    requires m == |s| || s[m] == sep
    ensures SplitOn(s, sep)[0] == s[..m]
    decreases m
  {
    if m > 0 {
      assert s[0] == s[..m][0];
      assert s[1..][..m - 1] == s[..m][1..];
      SplitOnHead(s[1..], sep, m - 1);
      assert s[..m] == [s[0]] + s[1..][..m - 1];
    }
  }

  /** A piece without the separator, then the separator, splits off as the first piece. */
  lemma {:induction false} SplitOnFirst(p: string, t: string, sep: char)
    requires sep !in p
    ensures SplitOn(p + [sep] + t, sep) == [p] + SplitOn(t, sep)
    decreases |p|
  {
    var s := p + [sep] + t;
    if p == [] {
      assert s[1..] == t;
    } else {
      assert s[1..] == p[1..] + [sep] + t;
      SplitOnFirst(p[1..], t, sep);
      assert [p[0]] + p[1..] == p;
    }
  }

  /** When the separator is whitespace, dropping whitespace from the pieces of a split
      is the same as dropping it from the whole string. */
  lemma {:induction false} NoSpaceSplit(s: string, sep: char)
    requires IsSpace(sep)
    ensures NoSpaceAll(SplitOn(s, sep)) == NoSpace(s)
    decreases |s|
  {
    if s != [] {
      var rest := SplitOn(s[1..], sep);
      NoSpaceSplit(s[1..], sep);
      if s[0] == sep {
        assert ([""] + rest)[1..] == rest;
      } else {
        var r := [[s[0]] + rest[0]] + rest[1..];
        assert r[1..] == rest[1..];
        NoSpaceAppend([s[0]], rest[0]);
        assert NoSpaceAll(rest) == NoSpace(rest[0]) + NoSpaceAll(rest[1..]);
      }
    }
  }

  lemma {:induction false} NoSpaceAllSingle(s: string)
    ensures NoSpaceAll([s]) == NoSpace(s)
  {
    assert [s][1..] == [];
  }

  /** A run only depends on the characters up to the first one that ends it. */
  lemma {:induction false} RunAgree(p: char -> bool, s: string, t: string, n: nat)
    requires Run(p, s) < n <= |s| && n <= |t| && s[..n] == t[..n]
    ensures Run(p, t) == Run(p, s)
    decreases n
  {
    assert s[0] == t[0];
    if Run(p, s) > 0 {
      assert s[1..][..n - 1] == t[1..][..n - 1];
      RunAgree(p, s[1..], t[1..], n - 1);
    }
  }

  /** Two strings that agree past the run starting at `k` have the same run there. */
  lemma RunAgreeFrom(p: char -> bool, s: string, t: string, k: nat, n: nat)
    requires k <= n <= |s| && n <= |t| && s[..n] == t[..n]
    requires Run(p, s[k..]) < n - k
    ensures Run(p, t[k..]) == Run(p, s[k..])
  {
    assert s[k..][..n - k] == t[k..][..n - k] by {
      assert s[k..][..n - k] == s[..n][k..] && t[k..][..n - k] == t[..n][k..];
    }
    RunAgree(p, s[k..], t[k..], n - k);
  }

  /** Cutting `s` anywhere after its leading run leaves the run unchanged. */
  lemma {:induction false} RunPrefix(p: char -> bool, s: string, k: nat)
    requires Run(p, s) <= k <= |s|
    ensures Run(p, s[..k]) == Run(p, s)
    decreases k
  {
    if Run(p, s) > 0 {
      assert s[..k][1..] == s[1..][..k - 1];
      RunPrefix(p, s[1..], k - 1);
    } else if k > 0 {
      assert s[..k][0] == s[0];
    }
  }

  /** Dropping part of a leading run shortens it by as much. */
  lemma {:induction false} RunSuffix(p: char -> bool, s: string, i: nat)
    requires i <= Run(p, s)
    ensures Run(p, s[i..]) == Run(p, s) - i
    decreases i
  {
    if i > 0 {
      assert s[i..] == s[1..][i - 1..];
      RunSuffix(p, s[1..], i - 1);
    }
  }

  /** An all-whitespace tail, read with the indices of the whole string. */
  lemma AllSpaceFrom(s: string, j: nat)
    requires j <= |s| && AllSpace(s[j..])
    ensures forall i :: j <= i < |s| ==> IsSpace(s[i])
  {
    forall i | j <= i < |s| ensures IsSpace(s[i]) {
      assert s[i] == s[j..][i - j];
    }
  }

  /** `int(str(n)) == n`. */
  lemma {:induction false} DecimalRoundTrip(n: nat)
    ensures DecimalValue(NatToDecimal(n)) == n
    decreases n
  {
    if n >= 10 {
      var s := NatToDecimal(n);
      assert s[..|s| - 1] == NatToDecimal(n / 10);
      DecimalRoundTrip(n / 10);
    }
  }

  /** `p` occurs in `s` starting at index `i`. */
  ghost predicate OccursAt(p: string, s: string, i: int)
  {
    0 <= i <= |s| - |p| && s[i..i + |p|] == p
  }

  /** Python's `in`: `p` occurs in `s` at some position. */
  lemma {:induction false} SubstringAt(p: string, s: string)
    ensures IsSubstring(p, s) <==> exists i :: OccursAt(p, s, i)
    decreases |s|
  {
    if s != [] {
      SubstringAt(p, s[1..]);
      if p <= s {
        assert s[0..|p|] == p;
        assert OccursAt(p, s, 0);
      }
      if IsSubstring(p, s[1..]) {
        var i :| OccursAt(p, s[1..], i);
        assert s[i + 1..i + 1 + |p|] == p;
        assert OccursAt(p, s, i + 1);
      }
      if exists i :: OccursAt(p, s, i) {
        var i :| OccursAt(p, s, i);
        if i == 0 {
          assert s[..|p|] == p;
        } else {
          assert s[1..][i - 1..i - 1 + |p|] == p;
          assert OccursAt(p, s[1..], i - 1);
        }
      }
    } else {
      if exists i :: OccursAt(p, s, i) {
        var i :| OccursAt(p, s, i);
        assert p == [];
      }
      if p == [] {
        assert OccursAt(p, s, 0);
      }
    }
  }
}
