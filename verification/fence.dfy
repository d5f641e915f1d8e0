/** The code-fence protocol of the REPL: the fixed pattern
    ```python-execute(.+?)``` applied with DOTALL and `findall`, written as a
    hand-made scanner. A match starts at an opener "```python-execute",
    captures at least one character (any character, newlines included) and
    ends at the FIRST closer "```" that starts after that character; the scan
    resumes right after the closer, and a position where no match starts is
    skipped one character at a time. */
module Fence {
  import opened Wrappers

  const Opener: string := "```python-execute"
  const Closer: string := "```"

  /** `pat` occurs in `s` starting at index `i`. */
  predicate At(s: string, i: nat, pat: string)
  {
    i + |pat| <= |s| && s[i..i + |pat|] == pat
  }

  /** The first occurrence of `pat` that starts at or after `from`. */
  function FindFrom(s: string, pat: string, from: nat): (r: Option<nat>)
    decreases |s| - from
    ensures r.Some? ==> from <= r.value && At(s, r.value, pat)
    ensures r.Some? ==> forall k: nat :: from <= k < r.value ==> !At(s, k, pat)
    ensures r.None? ==> forall k: nat :: from <= k ==> !At(s, k, pat)
  {
    if from + |pat| > |s| then None
    else if At(s, from, pat) then Some(from)
    else FindFrom(s, pat, from + 1)
  }

  /** One match: the opener starts at `open`, the closer at `close`. */
  datatype Span = Span(open: nat, close: nat)

  /** Index just past the closer, where the scan resumes. */
  function End(sp: Span): nat
  {
    sp.close + |Closer|
  }

  /** `sp` is the match the pattern makes at `sp.open`: the opener is there,
      at least one character is captured, and `sp.close` is the first closer
      after that character. */
  predicate IsMatch(s: string, sp: Span)
  {
    && At(s, sp.open, Opener)
    && sp.open + |Opener| < sp.close
    && At(s, sp.close, Closer)
    && forall k: nat :: sp.open + |Opener| < k < sp.close ==> !At(s, k, Closer)
  }

  /** The pattern can match at `p`: the opener is there and some closer
      starts after at least one further character. Stated without the
      scanner, as an independent reading of the pattern. */
  ghost predicate MatchStartsAt(s: string, p: nat)
  {
    At(s, p, Opener) && exists k: nat :: p + |Opener| < k && At(s, k, Closer)
  }

  /** The pattern matches somewhere in `s`. */
  ghost predicate HasMatch(s: string)
  {
    exists p: nat :: MatchStartsAt(s, p)
  }

  /** No match can start at any position in [a, b). */
  ghost predicate NoMatchBetween(s: string, a: nat, b: nat)
  {
    forall p: nat :: a <= p < b ==> !MatchStartsAt(s, p)
  }

  /** The match at `p`, if the pattern matches there. */
  function MatchAt(s: string, p: nat): (r: Option<Span>)
    ensures r.Some? <==> MatchStartsAt(s, p)
    ensures r.Some? ==> r.value.open == p && IsMatch(s, r.value)
  {
    if !At(s, p, Opener) then None
    else match FindFrom(s, Closer, p + |Opener| + 1)
      case None => None
      case Some(k) => Some(Span(p, k))
  }

  /** The matches `findall` reports when it scans from `from`: each is a
      match at or after `from`, and they come in source order without
      overlapping. That no match is skipped is SpansSkipNoMatch. */
  function Spans(s: string, from: nat): (r: seq<Span>)
    decreases |s| - from
    ensures forall i :: 0 <= i < |r| ==> IsMatch(s, r[i]) && from <= r[i].open
    ensures forall i, j :: 0 <= i < j < |r| ==> End(r[i]) <= r[j].open
  {
    if from >= |s| then []
    else match MatchAt(s, from)
      case Some(sp) => [sp] + Spans(s, End(sp))
      case None => Spans(s, from + 1)
  }

  /** Where the gap after the i-th reported match starts; the gap before
      the first match (i = -1) starts where the scan did. */
  function GapStart(from: nat, r: seq<Span>, i: int): nat
    requires -1 <= i < |r|
  {
    if i < 0 then from else End(r[i])
  }

  /** Where the gap after the i-th reported match ends: at the next match,
      or at the end of the text. */
  function GapEnd(s: string, r: seq<Span>, i: int): nat
    requires -1 <= i < |r|
  {
    if i + 1 < |r| then r[i + 1].open else |s|
  }

  /** The scan is leftmost: in every stretch of text it skipped, before
      the first match, between two matches or after the last one, no match
      could start. */
  lemma {:induction false} SpansSkipNoMatch(s: string, from: nat, i: int)
    requires -1 <= i < |Spans(s, from)|
    ensures NoMatchBetween(s, GapStart(from, Spans(s, from), i), GapEnd(s, Spans(s, from), i))
    decreases |s| - from, 1
  {
    if from < |s| {
      match MatchAt(s, from)
      case Some(sp) =>
        if i >= 0 {
          SkipAfterMatch(s, from, sp, i);
        } else {
          assert Spans(s, from)[0] == sp;
        }
      case None => SkipPastNoMatch(s, from, i);
    }
  }

  /** SpansSkipNoMatch when a match starts where the scan is. */
  lemma {:induction false} SkipAfterMatch(s: string, from: nat, sp: Span, i: int)
    requires from < |s| && MatchAt(s, from) == Some(sp)
    requires 0 <= i < |Spans(s, from)|
    ensures NoMatchBetween(s, GapStart(from, Spans(s, from), i), GapEnd(s, Spans(s, from), i))
    decreases |s| - from, 0
  {
    var r := Spans(s, from);
    var rest := Spans(s, End(sp));
    assert r == [sp] + rest;
    SpansSkipNoMatch(s, End(sp), i - 1);
    assert GapStart(from, r, i) == GapStart(End(sp), rest, i - 1);
    assert GapEnd(s, r, i) == GapEnd(s, rest, i - 1);
  }

  /** SpansSkipNoMatch when no match starts where the scan is. */
  lemma {:induction false} SkipPastNoMatch(s: string, from: nat, i: int)
    requires from < |s| && MatchAt(s, from).None?
    requires -1 <= i < |Spans(s, from)|
    ensures NoMatchBetween(s, GapStart(from, Spans(s, from), i), GapEnd(s, Spans(s, from), i))
    decreases |s| - from, 0
  {
    var r := Spans(s, from);
    assert r == Spans(s, from + 1);
    SpansSkipNoMatch(s, from + 1, i);
    if i < 0 {
      NoMatchExtend(s, from, GapEnd(s, r, i));
    }
  }

  /** A position without a match in front of a stretch without one. */
  lemma NoMatchExtend(s: string, a: nat, b: nat)
    requires !MatchStartsAt(s, a) && NoMatchBetween(s, a + 1, b)
    ensures NoMatchBetween(s, a, b)
  {
  }

  /** The text a match captures: everything between opener and closer. */
  function Capture(s: string, sp: Span): string
    requires IsMatch(s, sp)
  {
    s[sp.open + |Opener|..sp.close]
  }

  /** The texts the matches `sps` capture, in order. */
  function Captures(s: string, sps: seq<Span>): (r: seq<string>)
    requires forall i :: 0 <= i < |sps| ==> IsMatch(s, sps[i])
    ensures |r| == |sps|
  {
    if sps == [] then [] else [Capture(s, sps[0])] + Captures(s, sps[1..])
  }

  lemma {:induction false} CapturesAt(s: string, sps: seq<Span>, i: nat)
    requires forall i :: 0 <= i < |sps| ==> IsMatch(s, sps[i])
    requires i < |sps|
    ensures Captures(s, sps)[i] == Capture(s, sps[i])
  {
    if i > 0 {
      CapturesAt(s, sps[1..], i - 1);
    }
  }

  /** `re.findall(PYTHON_REGEX, s, re.DOTALL | re.MULTILINE)`: the captured
      code blocks of `s`, in source order. */
  function Blocks(s: string): seq<string>
  {
    Captures(s, Spans(s, 0))
  }

  /** An occurrence inside a slice is an occurrence in the whole text. */
  lemma AtInSlice(s: string, lo: nat, hi: nat, k: nat, pat: string)
    requires lo <= hi <= |s| && At(s[lo..hi], k, pat)
    ensures At(s, lo + k, pat)
  {
    var a, b := s[lo..hi][k..k + |pat|], s[lo + k..lo + k + |pat|];
    forall m | 0 <= m < |pat| ensures a[m] == b[m] {
      assert a[m] == s[lo..hi][k + m];
    }
    assert a == b;
  }

  /** What one match captures is non-empty and closer-free after its first
      character. */
  lemma CaptureUnclosed(s: string, sp: Span)
    requires IsMatch(s, sp)
    ensures |Capture(s, sp)| > 0
    ensures forall k: nat :: 0 < k ==> !At(Capture(s, sp), k, Closer)
  {
    var base := sp.open + |Opener|;
    forall k: nat | 0 < k && At(Capture(s, sp), k, Closer)
      ensures false
    {
      AtInSlice(s, base, sp.close, k, Closer);
    }
  }

  /** Every captured block is non-empty and holds no closer except possibly
      one that starts at its very first character. */
  lemma BlocksAreNonEmptyAndUnclosed(s: string)
    ensures forall i :: 0 <= i < |Blocks(s)| ==> |Blocks(s)[i]| > 0
    ensures forall i, k: nat :: 0 <= i < |Blocks(s)| && 0 < k ==> !At(Blocks(s)[i], k, Closer)
  {
    var sps := Spans(s, 0);
    var bs := Blocks(s);
    forall i | 0 <= i < |bs|
      ensures |bs[i]| > 0 && forall k: nat :: 0 < k ==> !At(bs[i], k, Closer)
    {
      CapturesAt(s, sps, i);
      CaptureUnclosed(s, sps[i]);
    }
  }

  /** `s` holds at least one block exactly when the pattern can match
      somewhere in it. */
  lemma HasBlocksIff(s: string)
    ensures |Blocks(s)| > 0 <==> HasMatch(s)
  {
    var sps := Spans(s, 0);
    if |sps| > 0 {
      assert At(s, sps[0].close, Closer);
      assert MatchStartsAt(s, sps[0].open);
    } else {
      SpansSkipNoMatch(s, 0, -1);
      forall p: nat ensures !MatchStartsAt(s, p) {
        if p >= |s| {
          assert !At(s, p, Opener);
        }
      }
    }
  }

  /** A single closed fence yields its body. */
  lemma ExampleOneBlock()
    ensures Blocks("```python-executeA```") == ["A"]
  {
    var s := "```python-executeA```";
    assert s[0..17] == Opener;
    assert s[18..21] == Closer;
    assert FindFrom(s, Closer, 18) == Some(18);
    assert MatchAt(s, 0) == Some(Span(0, 18));
    assert Spans(s, 0) == [Span(0, 18)];
    assert Capture(s, Span(0, 18)) == "A";
  }

  /** `.+?` needs at least one character: an empty fence is no block. */
  lemma ExampleEmpty()
    ensures Blocks("```python-execute```") == []
  {
  }
}
