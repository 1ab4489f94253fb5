/**
 The scrubbing of terminal control sequences that every build log passes through on its way
 into the database (`Build::ANSI_ESCAPE` and the `gsub` in `Build#mark!`).

 The two alternatives of the pattern are CSI sequences, section 5.4 of ECMA-48 restricted to
 the parameter bytes `0-9 : ; ?`, and OSC strings, closed by BEL, by ST, or by nothing at all.
 Each run in the pattern is followed by something outside its own character class, so matching
 greedily never has to give a character back and the match is a function of the text.
 */
module AnsiLog {

  const ESC: char := '\U{1B}'
  const BEL: char := '\U{7}'

  predicate IsParameter(c: char) { '0' <= c <= '9' || c == ';' || c == ':' || c == '?' }

  predicate IsIntermediate(c: char) { ' ' <= c <= '/' }

  predicate IsFinal(c: char) { '@' <= c <= '~' }

  predicate IsOscText(c: char) { c != BEL && c != ESC }

  /** How many leading characters of `s` satisfy `p`. */
  function Span(s: string, p: char -> bool): (n: nat)
    ensures n <= |s|
    ensures forall i :: 0 <= i < n ==> p(s[i])
    ensures n < |s| ==> !p(s[n])
  {
    if s == "" || !p(s[0]) then 0 else 1 + Span(s[1..], p)
  }

  /** Length of the CSI sequence `s` starts with, given its two-character introducer; 0 if none. */
  function CsiLength(s: string): (n: nat)
    requires |s| >= 2
    ensures n <= |s|
  {
    var i := 2 + Span(s[2..], IsParameter);
    var j := i + Span(s[i..], IsIntermediate);
    if j < |s| && IsFinal(s[j]) then j + 1 else 0
  }

  /** Length of the OSC string `s` starts with; an unterminated one runs as far as it can. */
  function OscLength(s: string): (n: nat)
    requires |s| >= 2
    ensures 2 <= n <= |s|
  {
    var i := 2 + Span(s[2..], IsOscText);
    if i < |s| && s[i] == BEL then i + 1
    else if i + 1 < |s| && s[i] == ESC && s[i + 1] == '\\' then i + 2
    else i
  }

  /** Length of the match of the pattern at the very start of `s`; 0 when there is none. */
  function MatchLength(s: string): (n: nat)
    ensures n <= |s|
  {
    if |s| < 2 || s[0] != ESC then 0
    else if s[1] == '[' then CsiLength(s)
    else if s[1] == ']' then OscLength(s)
    else 0
  }

  /** Every match deleted, scanning from the left, as `gsub(ANSI_ESCAPE, "")` does. */
  function Scrub(s: string): string
    decreases |s|
  {
    if s == "" then ""
    else if MatchLength(s) == 0 then [s[0]] + Scrub(s[1..])
    else Scrub(s[MatchLength(s)..])
  }

  // ---- What a program writes to its log ----

  /** One piece of program output: visible text, or a control sequence written around it. */
  datatype Piece =
    | Text(text: string)
    | Csi(parameters: string, intermediates: string, final: char)
    | Osc(body: string, closedByBel: bool)

  predicate WellFormedPiece(p: Piece) {
    match p
    case Text(t) => ESC !in t
    case Csi(ps, ms, f) =>
      && (forall i :: 0 <= i < |ps| ==> ps[i] in "0123456789:;?")
      && (forall i :: 0 <= i < |ms| ==> ' ' <= ms[i] <= '/')
      && '@' <= f <= '~'
    case Osc(b, _) => forall i :: 0 <= i < |b| ==> b[i] != '\U{7}' && b[i] != '\U{1B}'
  }

  /** What the pattern describes: a CSI sequence, or an OSC string with its terminator or without. */
  predicate InPattern(t: string) {
    && |t| >= 2 && t[0] == '\U{1B}'
    && ((t[1] == '[' && exists i :: 2 <= i < |t| && CsiUpTo(t, i)) || (t[1] == ']' && OscWhole(t)))
  }

  /** Parameters up to `i`, intermediates from there, and a final character. */
  predicate CsiUpTo(t: string, i: nat)
    requires 2 <= i < |t|
  {
    && (forall k :: 2 <= k < i ==> t[k] in "0123456789:;?")
    && (forall k :: i <= k < |t| - 1 ==> ' ' <= t[k] <= '/')
    && '@' <= t[|t| - 1] <= '~'
  }

  predicate OscWhole(t: string)
    requires |t| >= 2
  {
    || OscUpTo(t, |t|)
    || (|t| > 2 && t[|t| - 1] == '\U{7}' && OscUpTo(t, |t| - 1))
    || (|t| > 3 && t[|t| - 2..] == "\U{1B}\\" && OscUpTo(t, |t| - 2))
  }

  predicate OscUpTo(t: string, e: nat)
    requires e <= |t|
  {
    forall k :: 2 <= k < e ==> t[k] != '\U{7}' && t[k] != '\U{1B}'
  }

  function RenderPiece(p: Piece): string {
    match p
    case Text(t) => t
    case Csi(ps, ms, f) => [ESC, '['] + (ps + (ms + [f]))
    case Osc(b, bel) => [ESC, ']'] + (b + (if bel then [BEL] else [ESC, '\\']))
  }

  function Render(ps: seq<Piece>): string {
    if ps == [] then "" else RenderPiece(ps[0]) + Render(ps[1..])
  }

  /** The characters a reader is meant to see. */
  function TextOf(ps: seq<Piece>): string {
    if ps == [] then "" else (if ps[0].Text? then ps[0].text else "") + TextOf(ps[1..])
  }

  lemma {:induction false} SpanOfRun(run: string, rest: string, p: char -> bool)
    requires forall i :: 0 <= i < |run| ==> p(run[i])
    requires rest != "" ==> !p(rest[0])
    ensures Span(run + rest, p) == |run|
  {
    if run == "" {
      assert run + rest == rest;
    } else {
      assert (run + rest)[1..] == run[1..] + rest;
      SpanOfRun(run[1..], rest, p);
    }
  }

  lemma SpanStopsAt(s: string, from: nat, to: nat, p: char -> bool)
    requires from <= to < |s| && (forall k :: from <= k < to ==> p(s[k])) && !p(s[to])
    ensures from + Span(s[from..], p) == to
  {
    SpanOfRun(s[from..to], s[to..], p);
    assert s[from..] == s[from..to] + s[to..];
  }

  lemma CsiMatchEnds(s: string, n: nat, i: nat)
    requires n <= |s| && 2 <= i < n && s[0] == ESC && s[1] == '[' && CsiUpTo(s[..n], i)
    ensures MatchLength(s) == n
  {
    SpanStopsAt(s, 2, i, IsParameter);
    SpanStopsAt(s, i, n - 1, IsIntermediate);
  }

  lemma OscMatchReaches(s: string, n: nat)
    requires 2 <= n <= |s| && s[0] == ESC && s[1] == ']' && OscWhole(s[..n])
    ensures n <= MatchLength(s)
  {
    var i := 2 + Span(s[2..], IsOscText);
    assert i < |s| ==> !IsOscText(s[i]);
  }

  /** A match is the longest text in front that the pattern describes, and there is one if any is. */
  lemma MatchIsTheLongest(s: string, n: nat)
    requires n <= |s| && InPattern(s[..n])
    ensures n <= MatchLength(s)
  {
    hide MatchLength, CsiUpTo, OscWhole;
    if s[1] == '[' {
      var i :| 2 <= i < n && CsiUpTo(s[..n], i);
      CsiMatchEnds(s, n, i);
    } else {
      OscMatchReaches(s, n);
    }
  }

  lemma MatchIsInPattern(s: string)
    requires MatchLength(s) > 0
    ensures InPattern(s[..MatchLength(s)])
  {
    var t := s[..MatchLength(s)];
    if s[1] == '[' {
      var i := 2 + Span(s[2..], IsParameter);
      assert CsiUpTo(t, i);
    } else {
      var i := 2 + Span(s[2..], IsOscText);
      assert OscUpTo(t, i);
    }
  }

  lemma CsiMatchedWhole(ps: string, ms: string, f: char, rest: string)
    requires WellFormedPiece(Csi(ps, ms, f))
    ensures MatchLength(RenderPiece(Csi(ps, ms, f)) + rest) == |RenderPiece(Csi(ps, ms, f))|
  {
    var s := RenderPiece(Csi(ps, ms, f)) + rest;
    var tail := ms + ([f] + rest);
    assert s[2..] == ps + tail;
    SpanOfRun(ps, tail, IsParameter);
    assert s[2 + |ps|..] == tail;
    SpanOfRun(ms, [f] + rest, IsIntermediate);
    assert s[2 + |ps| + |ms|] == f;
  }

  lemma OscMatchedWhole(b: string, bel: bool, rest: string)
    requires WellFormedPiece(Osc(b, bel))
    ensures MatchLength(RenderPiece(Osc(b, bel)) + rest) == |RenderPiece(Osc(b, bel))|
  {
    var s := RenderPiece(Osc(b, bel)) + rest;
    var tail := (if bel then [BEL] else [ESC, '\\']) + rest;
    assert s[2..] == b + tail;
    SpanOfRun(b, tail, IsOscText);
    assert s[2 + |b|] == tail[0];
  }

  lemma {:induction false} ScrubKeepsPlainPrefix(t: string, rest: string)
    requires ESC !in t
    ensures Scrub(t + rest) == t + Scrub(rest)
  {
    if t == "" {
      assert t + rest == rest;
    } else {
      assert (t + rest)[1..] == t[1..] + rest;
      ScrubKeepsPlainPrefix(t[1..], rest);
    }
  }

  lemma ScrubDropsMatch(sequence: string, rest: string)
    requires sequence != "" && MatchLength(sequence + rest) == |sequence|
    ensures Scrub(sequence + rest) == Scrub(rest)
  {
    assert (sequence + rest)[|sequence|..] == rest;
  }

  lemma ScrubDropsPiece(p: Piece, rest: string)
    requires WellFormedPiece(p)
    ensures Scrub(RenderPiece(p) + rest) == (if p.Text? then p.text else "") + Scrub(rest)
  {
    match p {
      case Text(t) => ScrubKeepsPlainPrefix(t, rest);
      case Csi(ps, ms, f) => CsiMatchedWhole(ps, ms, f, rest); ScrubDropsMatch(RenderPiece(p), rest);
      case Osc(b, bel) => OscMatchedWhole(b, bel, rest); ScrubDropsMatch(RenderPiece(p), rest);
    }
  }

  /** Scrubbing any interleaving of text and control sequences gives back exactly the text. */
  lemma {:induction false} ScrubRecoversText(ps: seq<Piece>)
    requires forall i :: 0 <= i < |ps| ==> WellFormedPiece(ps[i])
    ensures Scrub(Render(ps)) == TextOf(ps)
  {
    if ps != [] {
      ScrubRecoversText(ps[1..]);
      ScrubDropsPiece(ps[0], Render(ps[1..]));
    }
  }

  // ---- Arbitrary logs ----

  /** `t` is `s` with some characters removed and the order of the others kept. */
  predicate Subsequence(t: string, s: string)
    decreases |s|
  {
    if t == "" then true
    else if s == "" then false
    else if t[0] == s[0] then Subsequence(t[1..], s[1..])
    else Subsequence(t, s[1..])
  }

  lemma {:induction false} DroppingPrefixKeepsSubsequence(t: string, s: string, n: nat)
    requires n <= |s| && Subsequence(t, s[n..])
    ensures Subsequence(t, s)
    decreases n
  {
    if n == 0 {
      assert s[0..] == s;
    } else {
      assert s[1..][n - 1..] == s[n..];
      DroppingPrefixKeepsSubsequence(t, s[1..], n - 1);
      PrependKeepsSubsequence(t, s[0], s[1..]);
      assert [s[0]] + s[1..] == s;
    }
  }

  lemma {:induction false} PrependKeepsSubsequence(t: string, c: char, s: string)
    requires Subsequence(t, s)
    ensures Subsequence(t, [c] + s)
    decreases |s|, 1
  {
    assert ([c] + s)[1..] == s;
    if t != "" && t[0] == c {
      TailKeepsSubsequence(t, s);
    }
  }

  lemma {:induction false} TailKeepsSubsequence(t: string, s: string)
    requires t != "" && Subsequence(t, s)
    ensures Subsequence(t[1..], s)
    decreases |s|, 0
  {
    if t[0] == s[0] {
      PrependKeepsSubsequence(t[1..], s[0], s[1..]);
      assert [s[0]] + s[1..] == s;
    } else {
      TailKeepsSubsequence(t, s[1..]);
      PrependKeepsSubsequence(t[1..], s[0], s[1..]);
      assert [s[0]] + s[1..] == s;
    }
  }

  /** Scrubbing invents and reorders nothing, whatever the log. */
  lemma {:induction false} ScrubIsSubsequence(s: string)
    ensures Subsequence(Scrub(s), s)
    decreases |s|
  {
    if s == "" {
    } else if MatchLength(s) == 0 {
      ScrubIsSubsequence(s[1..]);
      assert ([s[0]] + Scrub(s[1..]))[1..] == Scrub(s[1..]);
    } else {
      ScrubIsSubsequence(s[MatchLength(s)..]);
      DroppingPrefixKeepsSubsequence(Scrub(s), s, MatchLength(s));
    }
  }

  lemma {:induction false} ScrubNeverGrows(s: string)
    ensures |Scrub(s)| <= |s|
    decreases |s|
  {
    if s == "" {
    } else if MatchLength(s) == 0 {
      ScrubNeverGrows(s[1..]);
    } else {
      ScrubNeverGrows(s[MatchLength(s)..]);
    }
  }

  /** A log is left exactly as it was if and only if no control sequence starts anywhere in it. */
  lemma {:induction false} ScrubFixesExactlyCleanLogs(s: string)
    ensures Scrub(s) == s <==> forall i :: 0 <= i < |s| ==> MatchLength(s[i..]) == 0
    decreases |s|
  {
    if s != "" {
      assert s[0..] == s;
      if MatchLength(s) == 0 {
        ScrubFixesExactlyCleanLogs(s[1..]);
        assert forall i :: 0 <= i < |s| - 1 ==> s[1..][i..] == s[i + 1..];
        assert forall i :: 1 <= i < |s| ==> s[i..] == s[1..][i - 1..];
        assert ([s[0]] + Scrub(s[1..]) == s) <==> Scrub(s[1..]) == s[1..] by {
          assert [s[0]] + s[1..] == s;
          assert ([s[0]] + Scrub(s[1..]))[1..] == Scrub(s[1..]);
        }
      } else {
        ScrubNeverGrows(s[MatchLength(s)..]);
      }
    }
  }

  /**
   Scrubbing twice is not always scrubbing once: deleting a sequence can bring the two halves
   of another one together.
   */
  lemma ScrubIsNotIdempotent()
    ensures var s := [ESC, ESC, '[', 'm', '[', 'm']; Scrub(Scrub(s)) != Scrub(s)
  {
    var s := [ESC, ESC, '[', 'm', '[', 'm'];
    assert MatchLength(s) == 0;
    var t := s[1..];
    assert t == [ESC, '[', 'm', '[', 'm'];
    assert t[2..] == ['m', '[', 'm'];
    assert MatchLength(t) == 3;
    assert t[3..] == ['[', 'm'];
    ScrubKeepsPlainPrefix(t[3..], "");
    assert t[3..] + "" == t[3..];
    var once := [ESC, '[', 'm'];
    assert Scrub(s) == once;
    assert once[2..] == ['m'];
    assert MatchLength(once) == 3;
    assert once[3..] == "";
  }

  // ---- When scrubbing again changes nothing ----

  /** Every ESC the scan comes to begins a sequence that is deleted. */
  predicate AllWhole(s: string)
    decreases |s|
  {
    if s == "" then true
    else if MatchLength(s) == 0 then s[0] != ESC && AllWhole(s[1..])
    else AllWhole(s[MatchLength(s)..])
  }

  lemma {:induction false} NothingLeftOfWhole(s: string)
    requires AllWhole(s)
    ensures ESC !in Scrub(s)
    decreases |s|
  {
    if s != "" { NothingLeftOfWhole(if MatchLength(s) == 0 then s[1..] else s[MatchLength(s)..]); }
  }

  /** A log without stray or broken sequences is scrubbed once and for all. */
  lemma WholeLogsAreScrubbedOnce(s: string)
    requires AllWhole(s)
    ensures Scrub(Scrub(s)) == Scrub(s)
  {
    NothingLeftOfWhole(s);
    ScrubKeepsPlainPrefix(Scrub(s), "");
    assert Scrub(s) + "" == Scrub(s);
  }

  /** No character that is kept comes to begin a sequence with what is kept after it. */
  predicate NoneCompleted(s: string)
    decreases |s|
  {
    if s == "" then true
    else if MatchLength(s) == 0 then MatchLength([s[0]] + Scrub(s[1..])) == 0 && NoneCompleted(s[1..])
    else NoneCompleted(s[MatchLength(s)..])
  }

  predicate Clean(s: string) { forall i :: 0 <= i < |s| ==> MatchLength(s[i..]) == 0 }

  lemma CleanSplits(c: char, s: string)
    ensures Clean([c] + s) <==> MatchLength([c] + s) == 0 && Clean(s)
  {
    var t := [c] + s;
    assert t[0..] == t;
    assert forall i :: 0 <= i < |s| ==> t[i + 1..] == s[i..];
    if Clean(t) {
      forall i | 0 <= i < |s| ensures MatchLength(s[i..]) == 0 { assert MatchLength(t[i + 1..]) == 0; }
    } else if Clean(s) && MatchLength(t) == 0 {
      forall i | 0 <= i < |t| ensures MatchLength(t[i..]) == 0 { assert i > 0 ==> t[i..] == s[i - 1..]; }
    }
  }

  lemma {:induction false} CleanAfterScrubbing(s: string)
    ensures Clean(Scrub(s)) <==> NoneCompleted(s)
    decreases |s|
  {
    if s != "" {
      if MatchLength(s) == 0 {
        CleanAfterScrubbing(s[1..]);
        CleanSplits(s[0], Scrub(s[1..]));
      } else {
        CleanAfterScrubbing(s[MatchLength(s)..]);
      }
    }
  }

  /** Scrubbing twice is scrubbing once exactly when no deletion completes a sequence. */
  lemma ScrubbedOnceExactlyWhen(s: string)
    ensures Scrub(Scrub(s)) == Scrub(s) <==> NoneCompleted(s)
  {
    ScrubFixesExactlyCleanLogs(Scrub(s));
    CleanAfterScrubbing(s);
  }
}
