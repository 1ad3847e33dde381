/** `LineBreaksPipe`: the display filter that turns every line feed of a message
    into an HTML `<br>`. */
module LineBreaks {
  import opened Wrappers
  import opened Text

  /** `value.replace(/\n/g, '<br>')`. */
  function ReplaceNewlines(s: string): string
    decreases |s|
  {
    if s == [] then []
    else (if s[0] == '\n' then "<br>" else [s[0]]) + ReplaceNewlines(s[1..])
  }

  /** `transform`: a missing or empty value shows as the empty string. */
  function Transform(value: Option<string>): (r: string)
    ensures value.None? || value == Some("") ==> r == ""
  {
    match value
    case None => ""
    case Some(s) => if s == [] then "" else ReplaceNewlines(s)
  }

  /** Number of occurrences of `c` in `s`. */
  function Count(s: string, c: char): nat
    decreases |s|
  {
    if s == [] then 0 else (if s[0] == c then 1 else 0) + Count(s[1..], c)
  }

  /** `ps` joined with `<br>` between consecutive pieces. */
  function JoinBr(ps: seq<string>): string
    requires |ps| >= 1
    decreases |ps|
  {
    if |ps| == 1 then ps[0] else ps[0] + "<br>" + JoinBr(ps[1..])
  }

  /** No line feed survives. */
  lemma {:induction false} NoNewlineLeft(s: string)
    ensures '\n' !in ReplaceNewlines(s)
    decreases |s|
  {
    if s != [] {
      NoNewlineLeft(s[1..]);
    }
  }

  /** Each line feed grows the text by three characters, nothing else changes its length. */
  lemma {:induction false} LengthGrowth(s: string)
    ensures |ReplaceNewlines(s)| == |s| + 3 * Count(s, '\n')
    decreases |s|
  {
    if s != [] {
      LengthGrowth(s[1..]);
    }
  }

  /** Text without a line feed is shown as it is. */
  lemma {:induction false} NoNewlineUnchanged(s: string)
    requires '\n' !in s
    ensures ReplaceNewlines(s) == s
    decreases |s|
  {
    if s != [] {
      assert s[0] != '\n';
      assert '\n' !in s[1..] by {
        assert forall k :: 0 <= k < |s| - 1 ==> s[1..][k] == s[k + 1];
      }
      NoNewlineUnchanged(s[1..]);
      assert [s[0]] + s[1..] == s;
    }
  }

  /** Applying the pipe to its own output changes nothing. */
  lemma TransformIdempotent(value: Option<string>)
    ensures Transform(Some(Transform(value))) == Transform(value)
  {
    if value.Some? && value.value != [] {
      NoNewlineLeft(value.value);
      NoNewlineUnchanged(ReplaceNewlines(value.value));
    }
  }

  /** The rewrite works piece by piece. */
  lemma {:induction false} ReplaceAppend(a: string, b: string)
    ensures ReplaceNewlines(a + b) == ReplaceNewlines(a) + ReplaceNewlines(b)
    decreases |a|
  {
    if a != [] {
      assert (a + b)[1..] == a[1..] + b;
      ReplaceAppend(a[1..], b);
      var h := if a[0] == '\n' then "<br>" else [a[0]];
      assert h + (ReplaceNewlines(a[1..]) + ReplaceNewlines(b))
          == h + ReplaceNewlines(a[1..]) + ReplaceNewlines(b);
    } else {
      assert a + b == b;
    }
  }

  /** A carriage return is kept: a Windows line ending becomes `\r<br>`. */
  lemma CarriageReturnKept()
    ensures Transform(Some("\r\n")) == "\r<br>"
  {
    assert "\r\n"[1..] == "\n";
    assert "\n"[1..] == "";
  }

  /** Replacing is splitting at line feeds and joining the lines with `<br>`: every
      other character stays, in order. */
  lemma {:induction false} ReplaceIsSplitJoin(s: string)
    ensures ReplaceNewlines(s) == JoinBr(SplitOn(s, '\n'))
    decreases |s|
  {
    if s != [] {
      var rest := SplitOn(s[1..], '\n');
      ReplaceIsSplitJoin(s[1..]);
      if s[0] == '\n' {
        assert ([""] + rest)[1..] == rest;
      } else {
        var ps := [[s[0]] + rest[0]] + rest[1..];
        if |rest| > 1 {
          assert ps[1..] == rest[1..];
          var tail := "<br>" + JoinBr(rest[1..]);
          AppendAssoc([s[0]] + rest[0], "<br>", JoinBr(rest[1..]));
          AppendAssoc([s[0]], rest[0], tail);
          AppendAssoc(rest[0], "<br>", JoinBr(rest[1..]));
        }
      }
    }
  }
}
