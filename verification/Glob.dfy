/**
 Artifact patterns, over texts taken as sequences of UTF-8 bytes: `*` stands for any text, every
 other byte for itself.
 */
module Glob {
  const STAR := '*'

  /** The matcher: at a star it first tries to skip the star, then to let it take one more byte. */
  predicate Matches(p: string, v: string)
    decreases |p| + |v|
  {
    if p == "" then v == ""
    else if p[0] == STAR then
      Matches(p[1..], v) || (v != "" && Matches(p, v[1..]))
    else
      v != "" && v[0] == p[0] && Matches(p[1..], v[1..])
  }

  /** The literal texts between the stars: one more than there are stars. */
  function Segments(p: string): (r: seq<string>)
    ensures |r| > 0 && forall s | s in r :: STAR !in s
  {
    if p == "" then [""]
    else
      var r := Segments(p[1..]);
      if p[0] == STAR then [""] + r else [[p[0]] + r[0]] + r[1..]
  }

  /** The segments with one text in each gap. */
  function Weave(segments: seq<string>, gaps: seq<string>): string
    requires |segments| == |gaps| + 1
  {
    if gaps == [] then segments[0] else segments[0] + gaps[0] + Weave(segments[1..], gaps[1..])
  }

  lemma WeaveLetter(c: char, r: seq<string>, gaps: seq<string>)
    requires |r| == |gaps| + 1
    ensures Weave([[c] + r[0]] + r[1..], gaps) == [c] + Weave(r, gaps)
  {
    var s := [[c] + r[0]] + r[1..];
    assert s[1..] == r[1..];
  }

  lemma WeaveStar(r: seq<string>, gap: string, gaps: seq<string>)
    requires |r| == |gaps| + 1
    ensures Weave([""] + r, [gap] + gaps) == gap + Weave(r, gaps)
  {
    var s, g := [""] + r, [gap] + gaps;
    assert s[1..] == r && g[1..] == gaps;
    assert s[0] + g[0] == gap;
  }

  lemma WidenGap(r: seq<string>, gaps: seq<string>, c: char)
    requires |r| == |gaps| > 0
    ensures Weave([""] + r, [[c] + gaps[0]] + gaps[1..]) == [c] + Weave([""] + r, gaps)
  {
    hide Weave;
    var gap, others := gaps[0], gaps[1..];
    assert [gap] + others == gaps;
    WeaveStar(r, gap, others);
    WeaveStar(r, [c] + gap, others);
    var w := Weave(r, others);
    assert ([c] + gap) + w == [c] + (gap + w);
  }

  /** A match tells what each star took. */
  lemma {:induction false} MatchFillsGaps(p: string, v: string) returns (gaps: seq<string>)
    requires Matches(p, v)
    ensures |Segments(p)| == |gaps| + 1 && Weave(Segments(p), gaps) == v
    decreases |p| + |v|
  {
    if p == "" {
      gaps := [];
    } else if p[0] != STAR {
      gaps := MatchFillsGaps(p[1..], v[1..]);
      WeaveLetter(p[0], Segments(p[1..]), gaps);
    } else if Matches(p[1..], v) {
      gaps := MatchFillsGaps(p[1..], v);
      WeaveStar(Segments(p[1..]), "", gaps);
      gaps := [""] + gaps;
    } else {
      gaps := MatchFillsGaps(p, v[1..]);
      WidenGap(Segments(p[1..]), gaps, v[0]);
      gaps := [[v[0]] + gaps[0]] + gaps[1..];
    }
  }

  /** Whatever the gaps hold, the woven text is accepted. */
  lemma {:induction false} WovenMatches(p: string, gaps: seq<string>)
    requires |Segments(p)| == |gaps| + 1
    ensures Matches(p, Weave(Segments(p), gaps))
    decreases |p|, if gaps == [] then 0 else |gaps[0]|
  {
    if p == "" {
    } else {
      var r := Segments(p[1..]);
      if p[0] != STAR {
        WovenMatches(p[1..], gaps);
        WeaveLetter(p[0], r, gaps);
      } else {
        var gap, others := gaps[0], gaps[1..];
        assert gaps == [gap] + others;
        WeaveStar(r, gap, others);
        if gap == "" {
          WovenMatches(p[1..], others);
          assert gap + Weave(r, others) == Weave(r, others);
        } else {
          WovenMatches(p, [gap[1..]] + others);
          WeaveStar(r, gap[1..], others);
          assert Weave(Segments(p), gaps)[1..] == gap[1..] + Weave(r, others);
        }
      }
    }
  }

  /** The accepted texts are exactly the segments with arbitrary gaps. */
  lemma MatchesExactly(p: string, v: string)
    ensures Matches(p, v) <==>
      exists gaps: seq<string> | |Segments(p)| == |gaps| + 1 :: Weave(Segments(p), gaps) == v
  {
    if Matches(p, v) {
      var gaps := MatchFillsGaps(p, v);
    }
    forall gaps: seq<string> | |Segments(p)| == |gaps| + 1 && Weave(Segments(p), gaps) == v
      ensures Matches(p, v)
    {
      WovenMatches(p, gaps);
    }
  }

  // ---- Composition ----

  lemma {:induction false} MatchesCompose(p: string, q: string, v: string, w: string)
    requires Matches(p, v) && Matches(q, w)
    ensures Matches(p + q, v + w)
    decreases |p| + |v|
  {
    if p == "" {
      assert p + q == q && v + w == w;
    } else {
      assert (p + q)[1..] == p[1..] + q;
      if v != "" {
        assert (v + w)[1..] == v[1..] + w;
      }
      if p[0] != STAR {
        MatchesCompose(p[1..], q, v[1..], w);
      } else if Matches(p[1..], v) {
        MatchesCompose(p[1..], q, v, w);
      } else {
        MatchesCompose(p, q, v[1..], w);
      }
    }
  }

  lemma {:induction false} MatchSplits(p: string, q: string, v: string) returns (k: nat)
    requires Matches(p + q, v)
    ensures k <= |v| && Matches(p, v[..k]) && Matches(q, v[k..])
    decreases |p| + |v|
  {
    if p == "" {
      assert p + q == q;
      k := 0;
    } else {
      assert (p + q)[1..] == p[1..] + q;
      if p[0] == STAR && Matches(p[1..] + q, v) {
        k := MatchSplits(p[1..], q, v);
      } else {
        k := MatchSplits(if p[0] == STAR then p else p[1..], q, v[1..]);
        assert v[1..][..k] == v[..k + 1][1..] && v[1..][k..] == v[k + 1..];
        k := k + 1;
      }
    }
  }

  /** Matching a concatenation is splitting the value. */
  lemma MatchesConcatenation(p: string, q: string, v: string)
    ensures Matches(p + q, v) <==> exists k | 0 <= k <= |v| :: Matches(p, v[..k]) && Matches(q, v[k..])
  {
    if Matches(p + q, v) {
      var k := MatchSplits(p, q, v);
    }
    forall k | 0 <= k <= |v| && Matches(p, v[..k]) && Matches(q, v[k..])
      ensures Matches(p + q, v)
    {
      MatchesCompose(p, q, v[..k], v[k..]);
      assert v[..k] + v[k..] == v;
    }
  }

  function Stars(n: nat): string {
    seq(n, _ => STAR)
  }

  lemma {:induction false} StarsMatchAll(n: nat, v: string)
    requires n > 0
    ensures Matches(Stars(n), v)
    decreases n, |v|
  {
    assert Stars(n)[1..] == Stars(n - 1);
    if v != "" {
      StarsMatchAll(n, v[1..]);
    } else if n > 1 {
      StarsMatchAll(n - 1, v);
    }
  }

  /** Anywhere in a pattern a run of stars means what one star means; in particular `**` is `*`. */
  lemma StarRunIsOneStar(a: string, n: nat, m: nat, b: string, v: string)
    requires n > 0 && m > 0 && Matches(a + Stars(n) + b, v)
    ensures Matches(a + Stars(m) + b, v)
  {
    var k := MatchSplits(a + Stars(n), b, v);
    var j := MatchSplits(a, Stars(n), v[..k]);
    StarsMatchAll(m, v[..k][j..]);
    MatchesCompose(a, Stars(m), v[..k][..j], v[..k][j..]);
    assert v[..k][..j] + v[..k][j..] == v[..k];
    MatchesCompose(a + Stars(m), b, v[..k], v[k..]);
    assert v[..k] + v[k..] == v;
  }

  lemma {:induction false} LiteralMatchesItself(p: string, v: string)
    requires STAR !in p
    ensures Matches(p, v) <==> p == v
  {
    if p == "" || v == "" {
    } else {
      LiteralMatchesItself(p[1..], v[1..]);
      assert p == [p[0]] + p[1..] && v == [v[0]] + v[1..];
    }
  }
}
