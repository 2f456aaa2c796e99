/** Speaker-turn grouping of a WhisperX result (app/whisperx_transcription.py,
    `_process_whisperx_result`), as specification functions.

    The loop visits, in input order, every word of a segment that has a word
    list, and every segment without one as a whole. Each such visit is a
    `Piece`: its speaker label, its text, where a turn it opens starts, the end
    of its segment, and what is put in front of its text when it extends the
    current turn. `Feed` replays the loop's state changes piece by piece;
    `RunTurns` says independently what comes out: one turn per maximal run of
    pieces with the same label, blank runs dropped. */
module SpeakerTurns {
  import opened Wrappers
  import opened Strings

  /** The label given to words without a `speaker` and to segments without words. */
  const DefaultSpeaker: string := "SPEAKER_00"

  /** One entry of a segment's `words` list. An absent `word` is "", an absent
      `end` or `score` is 0; `start` and `speaker` stay optional because the
      code falls back to different values for them in different places. */
  datatype Word = Word(text: string, start: Option<real>, end: real, score: real, speaker: Option<string>)

  /** One entry of the result's `segments` list (absent `text` is "", absent
      `start`/`end` are 0, absent `words` is the empty list). `speaker` is read
      only by the command-line variant. */
  datatype Segment = Segment(text: string, start: real, end: real, words: seq<Word>, speaker: Option<string>)

  /** An entry of `speaker_segments`. */
  datatype SpeakerTurn = SpeakerTurn(speaker: string, text: string, start: real, end: real)

  /** One visit of the grouping loop. */
  datatype Piece = Piece(speaker: string, text: string, start: real, segmentEnd: real, joiner: string)

  /** A word: labelled by its speaker or SPEAKER_00, starting at its own start
      or else the segment's, appended with no separator. */
  function WordPiece(seg: Segment, w: Word): Piece {
    Piece(w.speaker.GetOr(DefaultSpeaker), w.text, w.start.GetOr(seg.start), seg.end, "")
  }

  /** A segment without words: grouped under SPEAKER_00, its stripped text
      appended after a single space. */
  function FallbackPiece(seg: Segment): Piece {
    Piece(DefaultSpeaker, Strip(seg.text), seg.start, seg.end, " ")
  }

  function WordPieces(seg: Segment): (ps: seq<Piece>)
    ensures |ps| == |seg.words|
  {
    seq(|seg.words|, k requires 0 <= k < |seg.words| => WordPiece(seg, seg.words[k]))
  }

  function SegmentPieces(seg: Segment): seq<Piece> {
    if |seg.words| > 0 then WordPieces(seg) else [FallbackPiece(seg)]
  }

  /** All visits of the loop, in input order. */
  function Pieces(segs: seq<Segment>): seq<Piece>
    decreases |segs|
  {
    if |segs| == 0 then [] else SegmentPieces(segs[0]) + Pieces(segs[1..])
  }

  /** `segments[-1].get("end", 0) if segments else 0`. */
  function LastEnd(segs: seq<Segment>): real {
    if |segs| == 0 then 0.0 else segs[|segs| - 1].end
  }

  // ---------------------------------------------------------------------
  // The loop's state machine

  /** `current_speaker` (None before the first piece), `current_text`,
      `current_start` and the `speaker_segments` emitted so far. */
  datatype Grouping = Grouping(speaker: Option<string>, text: string, start: real, turns: seq<SpeakerTurn>)

  const Initial: Grouping := Grouping(None, "", 0.0, [])

  /** The turns after closing the current one at `end`: it is emitted only if
      there is a current speaker and its text is not blank. */
  function Closed(g: Grouping, end: real): seq<SpeakerTurn> {
    if g.speaker.Some? && Strip(g.text) != [] then
      g.turns + [SpeakerTurn(g.speaker.value, Strip(g.text), g.start, end)]
    else g.turns
  }

  /** One visit: a new label closes the current turn at the end of the segment
      being processed and opens a new one; the same label extends the text. */
  function Step(g: Grouping, p: Piece): Grouping {
    if g.speaker != Some(p.speaker) then Grouping(Some(p.speaker), p.text, p.start, Closed(g, p.segmentEnd))
    else g.(text := g.text + p.joiner + p.text)
  }

  function Feed(g: Grouping, ps: seq<Piece>): Grouping
    decreases |ps|
  {
    if |ps| == 0 then g else Feed(Step(g, ps[0]), ps[1..])
  }

  // ---------------------------------------------------------------------
  // Reference: one turn per maximal run of equal labels

  /** The length of the run of equal labels that `ps` starts with. */
  function RunLength(ps: seq<Piece>): (k: nat)
    requires |ps| > 0
    ensures 1 <= k <= |ps|
    decreases |ps|
  {
    if |ps| == 1 || ps[1].speaker != ps[0].speaker then 1 else 1 + RunLength(ps[1..])
  }

  /** The run is maximal: all its pieces share the first label, and the piece
      after it, if any, does not. */
  lemma {:induction false} RunLengthMaximal(ps: seq<Piece>)
    requires |ps| > 0
    ensures forall i :: 0 <= i < RunLength(ps) ==> ps[i].speaker == ps[0].speaker
    ensures RunLength(ps) < |ps| ==> ps[RunLength(ps)].speaker != ps[0].speaker
    decreases |ps|
  {
    if |ps| > 1 && ps[1].speaker == ps[0].speaker {
      RunLengthMaximal(ps[1..]);
      forall i | 0 <= i < RunLength(ps)
        ensures ps[i].speaker == ps[0].speaker
      {
        if i > 0 {
          assert ps[i] == ps[1..][i - 1];
        }
      }
    }
  }

  /** The texts of `ps`, each preceded by its joiner. */
  function JoinedTail(ps: seq<Piece>): string
    decreases |ps|
  {
    if |ps| == 0 then [] else ps[0].joiner + ps[0].text + JoinedTail(ps[1..])
  }

  /** The text of the run `ps[..k]`: the first text, then each further text after its joiner. */
  function RunText(ps: seq<Piece>, k: nat): string
    requires 1 <= k <= |ps|
  {
    ps[0].text + JoinedTail(ps[1..k])
  }

  /** Each maximal run of equal labels gives one turn, unless its text is blank:
      the run's label, its stripped text, the start of its first piece, and as
      end the end of the segment of the next run's first piece, or `lastEnd`
      for the final run. */
  function RunTurns(ps: seq<Piece>, lastEnd: real): seq<SpeakerTurn>
    decreases |ps|
  {
    if |ps| == 0 then []
    else
      var k := RunLength(ps);
      var text := RunText(ps, k);
      var end := if k < |ps| then ps[k].segmentEnd else lastEnd;
      (if Strip(text) == [] then [] else [SpeakerTurn(ps[0].speaker, Strip(text), ps[0].start, end)])
      + RunTurns(ps[k..], lastEnd)
  }

  /** The speaker turns of a whole result, by the reference. */
  function TurnsOf(segs: seq<Segment>): seq<SpeakerTurn> {
    RunTurns(Pieces(segs), LastEnd(segs))
  }

  // ---------------------------------------------------------------------
  // The loop computes the reference

  /** The open turn of a state, seen as one piece. */
  function OpenPiece(g: Grouping): Piece
    requires g.speaker.Some?
  {
    Piece(g.speaker.value, g.text, g.start, 0.0, "")
  }

  lemma RunLengthHead(x: Piece, y: Piece, rest: seq<Piece>)
    requires x.speaker == y.speaker
    ensures RunLength([x] + rest) == RunLength([y] + rest)
  {
    assert ([x] + rest)[1..] == rest == ([y] + rest)[1..];
  }

  /** Only the label, text and start of a run's first piece matter. */
  lemma HeadIrrelevant(x: Piece, y: Piece, rest: seq<Piece>, lastEnd: real)
    requires x.speaker == y.speaker && x.text == y.text && x.start == y.start
    ensures RunTurns([x] + rest, lastEnd) == RunTurns([y] + rest, lastEnd)
  {
    var xs, ys := [x] + rest, [y] + rest;
    RunLengthHead(x, y, rest);
    var k := RunLength(xs);
    assert xs[1..k] == ys[1..k];
    assert xs[k..] == ys[k..];
  }

  /** A piece with the same label as the one before it merges into it. */
  lemma Absorb(x: Piece, p: Piece, rest: seq<Piece>, lastEnd: real)
    requires x.speaker == p.speaker
    ensures RunTurns([x, p] + rest, lastEnd)
         == RunTurns([x.(text := x.text + p.joiner + p.text)] + rest, lastEnd)
  {
    var a := [x, p] + rest;
    var x' := x.(text := x.text + p.joiner + p.text);
    var b := [x'] + rest;
    assert a[1..] == [p] + rest;
    RunLengthHead(p, x', rest);
    var k := RunLength(b);
    assert RunLength(a) == k + 1;
    assert a[1..k + 1] == [p] + rest[..k - 1];
    assert b[1..k] == rest[..k - 1];
    assert ([p] + rest[..k - 1])[1..] == rest[..k - 1];
    assert RunText(a, k + 1) == RunText(b, k);
    assert a[k + 1..] == b[k..];
  }

  /** The turn a run gives when `o` carries its label, its whole text and its
      start: none if the text is blank, else one ending at `end`. */
  function TurnOf(o: Piece, end: real): seq<SpeakerTurn> {
    if Strip(o.text) == [] then [] else [SpeakerTurn(o.speaker, Strip(o.text), o.start, end)]
  }

  /** The first turn `RunTurns` gives, if any, and the turns of the runs after it. */
  lemma RunTurnsUnfold(ps: seq<Piece>, lastEnd: real)
    requires |ps| > 0
    ensures var k := RunLength(ps);
      RunTurns(ps, lastEnd)
      == TurnOf(Piece(ps[0].speaker, RunText(ps, k), ps[0].start, 0.0, ""), if k < |ps| then ps[k].segmentEnd else lastEnd)
         + RunTurns(ps[k..], lastEnd)
  {
  }

  lemma LastRun(o: Piece, lastEnd: real)
    ensures RunTurns([o], lastEnd) == TurnOf(o, lastEnd)
  {
    assert RunLength([o]) == 1;
    assert [o][1..1] == [];
    assert RunText([o], 1) == o.text;
    assert [o][1..] == [];
    assert RunTurns([], lastEnd) == [];
  }

  /** A change of label closes the run at the end of the new piece's segment. */
  lemma ChangeCloses(o: Piece, p: Piece, rest: seq<Piece>, lastEnd: real)
    requires o.speaker != p.speaker
    ensures RunTurns([o, p] + rest, lastEnd) == TurnOf(o, p.segmentEnd) + RunTurns([p] + rest, lastEnd)
  {
    var a := [o, p] + rest;
    assert RunLength(a) == 1;
    assert a[1..1] == [];
    assert RunText(a, 1) == o.text;
    assert a[1] == p;
    assert a[1..] == [p] + rest;
    RunTurnsUnfold(a, lastEnd);
  }

  lemma AppendAssoc<X>(a: seq<X>, b: seq<X>, c: seq<X>)
    ensures a + (b + c) == (a + b) + c
  {
  }

  /** A change of label: the open turn is closed at the new piece's segment end. */
  lemma StepCloses(g: Grouping, p: Piece)
    requires g.speaker.Some? && g.speaker != Some(p.speaker)
    ensures Step(g, p).turns == g.turns + TurnOf(OpenPiece(g), p.segmentEnd)
  {
  }

  lemma CloseAndReopen(o: Piece, o': Piece, p: Piece, rest: seq<Piece>, lastEnd: real)
    requires o.speaker != p.speaker && o'.speaker == p.speaker && o'.text == p.text && o'.start == p.start
    ensures RunTurns([o, p] + rest, lastEnd) == TurnOf(o, p.segmentEnd) + RunTurns([o'] + rest, lastEnd)
  {
    ChangeCloses(o, p, rest, lastEnd);
    HeadIrrelevant(o', p, rest, lastEnd);
  }

  /** One step of the loop keeps "emitted turns followed by the reference
      turns of the open turn and the rest" unchanged. */
  lemma StepFollowsRuns(g: Grouping, p: Piece, rest: seq<Piece>, lastEnd: real)
    requires g.speaker.Some?
    ensures Step(g, p).speaker.Some?
    ensures g.turns + RunTurns([OpenPiece(g), p] + rest, lastEnd)
         == Step(g, p).turns + RunTurns([OpenPiece(Step(g, p))] + rest, lastEnd)
  {
    var o := OpenPiece(g);
    var g' := Step(g, p);
    if g.speaker == Some(p.speaker) {
      Absorb(o, p, rest, lastEnd);
      assert OpenPiece(g') == o.(text := o.text + p.joiner + p.text);
    } else {
      StepCloses(g, p);
      CloseAndReopen(o, OpenPiece(g'), p, rest, lastEnd);
      AppendAssoc(g.turns, TurnOf(o, p.segmentEnd), RunTurns([OpenPiece(g')] + rest, lastEnd));
    }
  }

  /** From any state with an open turn, the loop ends with the turns emitted
      so far followed by the reference turns of the open turn and the rest. */
  lemma {:induction false} FeedFollowsRuns(g: Grouping, ps: seq<Piece>, lastEnd: real)
    requires g.speaker.Some?
    ensures Closed(Feed(g, ps), lastEnd) == g.turns + RunTurns([OpenPiece(g)] + ps, lastEnd)
    decreases |ps|
  {
    var o := OpenPiece(g);
    if |ps| == 0 {
      LastRun(o, lastEnd);
      assert [o] + ps == [o];
    } else {
      var p, rest := ps[0], ps[1..];
      assert Feed(g, ps) == Feed(Step(g, p), rest);
      assert [o] + ps == [o, p] + rest;
      FeedFollowsRuns(Step(g, p), rest, lastEnd);
      StepFollowsRuns(g, p, rest, lastEnd);
    }
  }

  /** The loop's turns, closed at the last segment's end, are the reference turns. */
  lemma GroupingMatchesRuns(ps: seq<Piece>, lastEnd: real)
    ensures Closed(Feed(Initial, ps), lastEnd) == RunTurns(ps, lastEnd)
  {
    if |ps| > 0 {
      var g := Step(Initial, ps[0]);
      FeedFollowsRuns(g, ps[1..], lastEnd);
      HeadIrrelevant(OpenPiece(g), ps[0], ps[1..], lastEnd);
      assert [ps[0]] + ps[1..] == ps;
    }
  }

  // ---------------------------------------------------------------------
  // Properties of the turns

  /** Emitted text is stripped and not blank. */
  predicate WellFormed(t: SpeakerTurn) {
    t.text != [] && Strip(t.text) == t.text && !IsBlank(t.text)
  }

  lemma StrippedWellFormed(s: string)
    requires Strip(s) != []
    ensures Strip(Strip(s)) == Strip(s) && !IsBlank(Strip(s))
  {
    StripIdempotent(s);
    StripEmptyIffBlank(Strip(s));
  }

  /** The labels of some pieces. */
  function Labels(ps: seq<Piece>): set<string> {
    set p | p in ps :: p.speaker
  }

  /** Every turn has stripped, non-blank text (blank runs are dropped), and
      its speaker is the label of some piece. */
  lemma {:induction false} RunTurnsWellFormed(ps: seq<Piece>, lastEnd: real)
    ensures forall t :: t in RunTurns(ps, lastEnd) ==> WellFormed(t) && t.speaker in Labels(ps)
    decreases |ps|
  {
    if |ps| > 0 {
      var k := RunLength(ps);
      var text := RunText(ps, k);
      RunTurnsWellFormed(ps[k..], lastEnd);
      RunTurnsUnfold(ps, lastEnd);
      if Strip(text) != [] {
        StrippedWellFormed(text);
      }
      assert ps[0] in ps;
      assert Labels(ps[k..]) <= Labels(ps) by {
        forall p | p in ps[k..] ensures p in ps {
        }
      }
    }
  }

  /** Every piece has visible text. */
  predicate VisiblePieces(ps: seq<Piece>) {
    forall i :: 0 <= i < |ps| ==> !IsBlank(ps[i].text)
  }

  /** With visible pieces, no run is dropped: the first turn is the first run's. */
  lemma FirstRunKept(ps: seq<Piece>, lastEnd: real)
    requires |ps| > 0 && !IsBlank(ps[0].text)
    ensures |RunTurns(ps, lastEnd)| > 0
    ensures RunTurns(ps, lastEnd)[0].speaker == ps[0].speaker
    ensures RunTurns(ps, lastEnd)[0].start == ps[0].start
  {
    var k := RunLength(ps);
    NonBlankPrefix(ps[0].text, JoinedTail(ps[1..k]));
    StripEmptyIffBlank(RunText(ps, k));
  }

  /** When every piece has visible text, neighbouring turns have different
      speakers: a turn closes only on a change of label. */
  lemma {:induction false} AdjacentTurnsDiffer(ps: seq<Piece>, lastEnd: real)
    requires VisiblePieces(ps)
    ensures forall i :: 0 <= i < |RunTurns(ps, lastEnd)| - 1 ==>
              RunTurns(ps, lastEnd)[i].speaker != RunTurns(ps, lastEnd)[i + 1].speaker
    decreases |ps|
  {
    if |ps| > 0 {
      var k := RunLength(ps);
      var tail := RunTurns(ps[k..], lastEnd);
      AdjacentTurnsDiffer(ps[k..], lastEnd);
      RunLengthMaximal(ps);
      FirstRunKept(ps, lastEnd);
      if k < |ps| {
        FirstRunKept(ps[k..], lastEnd);
      }
      var ts := RunTurns(ps, lastEnd);
      assert ts == [ts[0]] + tail;
    }
  }

  /** Pieces that all carry one label give at most one turn. */
  lemma OneLabelOneTurn(ps: seq<Piece>, lastEnd: real)
    requires forall i :: 0 <= i < |ps| ==> ps[i].speaker == ps[0].speaker
    ensures |RunTurns(ps, lastEnd)| <= 1
    ensures forall i :: 0 <= i < |RunTurns(ps, lastEnd)| ==>
              RunTurns(ps, lastEnd)[i] == SpeakerTurn(ps[0].speaker, Strip(RunText(ps, |ps|)), ps[0].start, lastEnd)
  {
    if |ps| > 0 {
      var k := RunLength(ps);
      RunLengthMaximal(ps);
      assert k == |ps|;
      assert ps[k..] == [];
    }
  }

  // ---------------------------------------------------------------------
  // The same properties in terms of segments

  /** Every word has visible text and every segment without words has visible text. */
  predicate VisibleSegments(segs: seq<Segment>) {
    forall i :: 0 <= i < |segs| ==>
      (|segs[i].words| == 0 ==> !IsBlank(segs[i].text)) &&
      (forall j :: 0 <= j < |segs[i].words| ==> !IsBlank(segs[i].words[j].text))
  }

  lemma {:induction false} VisibleSegmentsGiveVisiblePieces(segs: seq<Segment>)
    requires VisibleSegments(segs)
    ensures VisiblePieces(Pieces(segs))
    decreases |segs|
  {
    if |segs| > 0 {
      VisibleSegmentsGiveVisiblePieces(segs[1..]);
      var seg := segs[0];
      if |seg.words| == 0 {
        StripEmptyIffBlank(seg.text);
        StrippedWellFormed(seg.text);
      }
      var head := SegmentPieces(seg);
      assert VisiblePieces(head);
      assert Pieces(segs) == head + Pieces(segs[1..]);
    }
  }

  /** If every word and every word-less segment has visible text, consecutive
      speaker turns have different speakers. */
  lemma VisibleInputAlternatesSpeakers(segs: seq<Segment>)
    requires VisibleSegments(segs)
    ensures forall i :: 0 <= i < |TurnsOf(segs)| - 1 ==> TurnsOf(segs)[i].speaker != TurnsOf(segs)[i + 1].speaker
  {
    VisibleSegmentsGiveVisiblePieces(segs);
    AdjacentTurnsDiffer(Pieces(segs), LastEnd(segs));
  }

  lemma {:induction false} NoWordsAllDefault(segs: seq<Segment>)
    requires forall i :: 0 <= i < |segs| ==> |segs[i].words| == 0
    ensures forall i :: 0 <= i < |Pieces(segs)| ==> Pieces(segs)[i].speaker == DefaultSpeaker
    decreases |segs|
  {
    if |segs| > 0 {
      NoWordsAllDefault(segs[1..]);
    }
  }

  /** Without word-level data everything is grouped under SPEAKER_00, into at
      most one turn that ends at the last segment's end. */
  lemma WithoutWordsOneDefaultTurn(segs: seq<Segment>)
    requires forall i :: 0 <= i < |segs| ==> |segs[i].words| == 0
    ensures |TurnsOf(segs)| <= 1
    ensures forall i :: 0 <= i < |TurnsOf(segs)| ==>
              TurnsOf(segs)[i].speaker == DefaultSpeaker && TurnsOf(segs)[i].end == LastEnd(segs)
  {
    NoWordsAllDefault(segs);
    var ps := Pieces(segs);
    if |ps| > 0 {
      OneLabelOneTurn(ps, LastEnd(segs));
    }
  }

  /** With no segments there are no turns. */
  lemma NoSegmentsNoTurns()
    ensures TurnsOf([]) == []
  {
  }

  /** Two words of one speaker followed by a word of another, all in one
      segment: the first turn's text is the two word texts concatenated with
      no separator, and both turns end at the segment's end, not at their
      last word's end (each turn is dropped if its text is blank). */
  lemma OneSegmentTwoSpeakers(seg: Segment, x: string, y: string)
    requires |seg.words| == 3 && x != y
    requires seg.words[0].speaker == Some(x) && seg.words[1].speaker == Some(x) && seg.words[2].speaker == Some(y)
    ensures TurnsOf([seg])
         == TurnOf(Piece(x, seg.words[0].text + seg.words[1].text, seg.words[0].start.GetOr(seg.start), 0.0, ""), seg.end)
          + TurnOf(Piece(y, seg.words[2].text, seg.words[2].start.GetOr(seg.start), 0.0, ""), seg.end)
  {
    var a1 := WordPiece(seg, seg.words[0]);
    var a2 := WordPiece(seg, seg.words[1]);
    var b := WordPiece(seg, seg.words[2]);
    var a := a1.(text := a1.text + a2.joiner + a2.text);
    var ps := [a1, a2, b];
    assert a2.joiner == [];
    assert a1.text + a2.joiner == a1.text;
    assert a.text == seg.words[0].text + seg.words[1].text;
    assert ps == [a1, a2] + [b];
    assert [a, b] + [] == [a] + [b];
    assert Pieces([seg]) == ps by {
      assert [seg][1..] == [];
      assert WordPieces(seg) == ps;
    }
    assert LastEnd([seg]) == seg.end;
    assert RunTurns(ps, seg.end) == RunTurns([a] + [b], seg.end) by {
      Absorb(a1, a2, [b], seg.end);
    }
    assert RunTurns([a] + [b], seg.end) == TurnOf(a, seg.end) + RunTurns([b], seg.end) by {
      ChangeCloses(a, b, [], seg.end);
    }
    assert RunTurns([b], seg.end) == TurnOf(b, seg.end) by {
      LastRun(b, seg.end);
    }
    assert TurnsOf([seg]) == RunTurns(ps, seg.end);
    assert TurnsOf([seg]) == TurnOf(a, seg.end) + TurnOf(b, seg.end);
    assert TurnOf(a, seg.end) == TurnOf(Piece(x, seg.words[0].text + seg.words[1].text, seg.words[0].start.GetOr(seg.start), 0.0, ""), seg.end);
  }
}
