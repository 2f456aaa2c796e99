/** Turning a WhisperX result into the SpeakInsights transcription record
    (app/whisperx_transcription.py): `_process_whisperx_result` for results
    with word-level speaker labels, `_process_cli_result` for results of the
    command-line tool, whose segments carry the speaker. */
module WhisperX {
  import opened Wrappers
  import opened Strings
  import opened Sorting
  import opened SpeakerTurns

  /** The language reported when the result has none. */
  const DefaultLanguage: string := "en"

  /** An entry of `word_level_data`. */
  datatype WordData = WordData(word: string, start: real, end: real, score: real, speaker: string)

  datatype ProcessingInfo = ProcessingInfo(totalSegments: nat, totalWords: nat, totalSpeakers: nat, duration: real)

  /** The record `_process_whisperx_result` returns. */
  datatype Transcription = Transcription(
    transcript: string,
    formattedTranscript: string,
    segments: seq<Segment>,
    speakerSegments: seq<SpeakerTurn>,
    wordLevelData: seq<WordData>,
    speakers: seq<string>,
    language: string,
    hasSpeakers: bool,
    info: ProcessingInfo)

  datatype CliInfo = CliInfo(totalSegments: nat, totalSpeakers: nat, methodName: string)

  /** The record `_process_cli_result` returns. */
  datatype CliTranscription = CliTranscription(
    transcript: string,
    formattedTranscript: string,
    segments: seq<Segment>,
    speakers: seq<string>,
    language: string,
    hasSpeakers: bool,
    info: CliInfo)

  /** A word as recorded in `word_level_data`: absent start is 0, absent
      speaker is SPEAKER_00. */
  function ToWordData(w: Word): WordData {
    WordData(w.text, w.start.GetOr(0.0), w.end, w.score, w.speaker.GetOr(DefaultSpeaker))
  }

  /** The words of one segment as word-level data, in order. */
  function WordsData(ws: seq<Word>): seq<WordData> {
    if |ws| == 0 then [] else WordsData(ws[..|ws| - 1]) + [ToWordData(ws[|ws| - 1])]
  }

  /** Every word of every segment, in input order. */
  function WordDataOf(segs: seq<Segment>): seq<WordData> {
    if |segs| == 0 then [] else WordDataOf(segs[..|segs| - 1]) + WordsData(segs[|segs| - 1].words)
  }

  function SpeakerLabels(data: seq<WordData>): set<string> {
    set d | d in data :: d.speaker
  }

  /** The stripped text of each segment. */
  function SegmentTexts(segs: seq<Segment>): (r: seq<string>)
    ensures |r| == |segs|
  {
    seq(|segs|, k requires 0 <= k < |segs| => Strip(segs[k].text))
  }

  /** `[speaker]: text`. */
  function RenderTurn(t: SpeakerTurn): string {
    "[" + t.speaker + "]: " + t.text
  }

  function RenderTurns(ts: seq<SpeakerTurn>): (r: seq<string>)
    ensures |r| == |ts|
  {
    seq(|ts|, k requires 0 <= k < |ts| => RenderTurn(ts[k]))
  }

  /** The segment loop of `_process_whisperx_result` and its final turn:
      the transcript built with a trailing space after each stripped segment
      text, the speaker turns (equal to the reference turns of the input) and
      the word-level data. */
  method GroupSegments(segments: seq<Segment>)
    returns (fullTranscript: string, speakerSegments: seq<SpeakerTurn>, wordLevelData: seq<WordData>)
    ensures fullTranscript == Terminated(SegmentTexts(segments), " ")
    ensures speakerSegments == TurnsOf(segments)
    ensures wordLevelData == WordDataOf(segments)
  {
    fullTranscript := "";
    speakerSegments := [];
    wordLevelData := [];
    var currentSpeaker: Option<string> := None;
    var currentText := "";
    var currentStart := 0.0;
    ghost var texts := SegmentTexts(segments);
    var i := 0;
    assert segments[i..] == segments && segments[..i] == [] && texts[..i] == [];
    assert wordLevelData == WordDataOf(segments[..i]);
    while i < |segments|
      invariant 0 <= i <= |segments|
      invariant Feed(Initial, Pieces(segments))
             == Feed(Grouping(currentSpeaker, currentText, currentStart, speakerSegments), Pieces(segments[i..]))
      invariant wordLevelData == WordDataOf(segments[..i])
      invariant fullTranscript == Terminated(texts[..i], " ")
    {
      var segment := segments[i];
      var segmentText := Strip(segment.text);
      ghost var g := Grouping(currentSpeaker, currentText, currentStart, speakerSegments);
      PiecesFrom(segments, i);
      FeedAppend(g, SegmentPieces(segment), Pieces(segments[i + 1..]));
      WordDataOfSnoc(segments, i);
      currentSpeaker, currentText, currentStart, speakerSegments, wordLevelData :=
        GroupSegment(segment, currentSpeaker, currentText, currentStart, speakerSegments, wordLevelData);
      TerminatedSnoc(texts, i, " ");
      fullTranscript := fullTranscript + segmentText + " ";
      i := i + 1;
    }
    assert segments[..i] == segments;
    assert texts[..i] == texts;

    // the last open turn ends where the last segment ends
    var lastEnd := if |segments| > 0 then segments[|segments| - 1].end else 0.0;
    if currentSpeaker.Some? && Strip(currentText) != [] {
      speakerSegments := speakerSegments + [SpeakerTurn(currentSpeaker.value, Strip(currentText), currentStart, lastEnd)];
    }
    GroupingMatchesRuns(Pieces(segments), lastEnd);
  }

  /** One visit of the segment loop: its words, or the whole segment when it
      has none. */
  method GroupSegment(segment: Segment, speakerIn: Option<string>, textIn: string, startIn: real,
                      turnsIn: seq<SpeakerTurn>, dataIn: seq<WordData>)
    returns (currentSpeaker: Option<string>, currentText: string, currentStart: real,
             speakerSegments: seq<SpeakerTurn>, wordLevelData: seq<WordData>)
    ensures Grouping(currentSpeaker, currentText, currentStart, speakerSegments)
         == Feed(Grouping(speakerIn, textIn, startIn, turnsIn), SegmentPieces(segment))
    ensures wordLevelData == dataIn + WordsData(segment.words)
  {
    if |segment.words| > 0 {
      currentSpeaker, currentText, currentStart, speakerSegments, wordLevelData :=
        GroupWords(segment, speakerIn, textIn, startIn, turnsIn, dataIn);
    } else {
      currentSpeaker, currentText, currentStart, speakerSegments :=
        GroupWithoutWords(segment, speakerIn, textIn, startIn, turnsIn);
      wordLevelData := dataIn;
      assert WordsData(segment.words) == [];
    }
  }

  /** The word loop of `_process_whisperx_result` for one segment: the
      grouping state after its words, and their word-level data appended. */
  method GroupWords(segment: Segment, speakerIn: Option<string>, textIn: string, startIn: real,
                    turnsIn: seq<SpeakerTurn>, dataIn: seq<WordData>)
    returns (currentSpeaker: Option<string>, currentText: string, currentStart: real,
             speakerSegments: seq<SpeakerTurn>, wordLevelData: seq<WordData>)
    requires |segment.words| > 0
    ensures Grouping(currentSpeaker, currentText, currentStart, speakerSegments)
         == Feed(Grouping(speakerIn, textIn, startIn, turnsIn), SegmentPieces(segment))
    ensures wordLevelData == dataIn + WordsData(segment.words)
  {
    currentSpeaker, currentText, currentStart, speakerSegments, wordLevelData :=
      speakerIn, textIn, startIn, turnsIn, dataIn;
    var words := segment.words;
    var j := 0;
    assert WordPieces(segment)[j..] == WordPieces(segment) && words[..j] == [];
    while j < |words|
      invariant 0 <= j <= |words|
      invariant Feed(Grouping(speakerIn, textIn, startIn, turnsIn), WordPieces(segment))
             == Feed(Grouping(currentSpeaker, currentText, currentStart, speakerSegments), WordPieces(segment)[j..])
      invariant wordLevelData == dataIn + WordsData(words[..j])
    {
      var wordInfo := words[j];
      WordsDataSnoc(words, j);
      wordLevelData := wordLevelData + [WordData(wordInfo.text, wordInfo.start.GetOr(0.0), wordInfo.end, wordInfo.score, wordInfo.speaker.GetOr(DefaultSpeaker))];
      var speaker := wordInfo.speaker.GetOr(DefaultSpeaker);
      ghost var g := Grouping(currentSpeaker, currentText, currentStart, speakerSegments);
      WordPiecesStep(segment, j);
      FeedCons(g, WordPiece(segment, wordInfo), WordPieces(segment)[j + 1..]);
      if currentSpeaker != Some(speaker) {
        if currentSpeaker.Some? && Strip(currentText) != [] {
          speakerSegments := speakerSegments + [SpeakerTurn(currentSpeaker.value, Strip(currentText), currentStart, segment.end)];
        }
        currentSpeaker := Some(speaker);
        currentText := wordInfo.text;
        currentStart := wordInfo.start.GetOr(segment.start);
      } else {
        assert currentText + "" == currentText;
        currentText := currentText + wordInfo.text;
      }
      assert Grouping(currentSpeaker, currentText, currentStart, speakerSegments) == Step(g, WordPiece(segment, wordInfo));
      j := j + 1;
    }
    assert WordPieces(segment)[j..] == [];
    assert words[..j] == segment.words;
  }

  /** A segment without words is grouped under SPEAKER_00 as a whole. */
  method GroupWithoutWords(segment: Segment, speakerIn: Option<string>, textIn: string, startIn: real,
                           turnsIn: seq<SpeakerTurn>)
    returns (currentSpeaker: Option<string>, currentText: string, currentStart: real, speakerSegments: seq<SpeakerTurn>)
    requires |segment.words| == 0
    ensures Grouping(currentSpeaker, currentText, currentStart, speakerSegments)
         == Feed(Grouping(speakerIn, textIn, startIn, turnsIn), SegmentPieces(segment))
  {
    currentSpeaker, currentText, currentStart, speakerSegments := speakerIn, textIn, startIn, turnsIn;
    var segmentText := Strip(segment.text);
    var speaker := DefaultSpeaker;
    if currentSpeaker != Some(speaker) {
      if currentSpeaker.Some? && Strip(currentText) != [] {
        speakerSegments := speakerSegments + [SpeakerTurn(currentSpeaker.value, Strip(currentText), currentStart, segment.end)];
      }
      currentSpeaker := Some(speaker);
      currentText := segmentText;
      currentStart := segment.start;
    } else {
      currentText := currentText + " " + segmentText;
    }
    assert [FallbackPiece(segment)][1..] == [];
  }

  lemma PiecesFrom(segments: seq<Segment>, i: nat)
    requires i < |segments|
    ensures Pieces(segments[i..]) == SegmentPieces(segments[i]) + Pieces(segments[i + 1..])
  {
    assert segments[i..][1..] == segments[i + 1..];
  }

  lemma WordDataOfSnoc(segments: seq<Segment>, i: nat)
    requires i < |segments|
    ensures WordDataOf(segments[..i + 1]) == WordDataOf(segments[..i]) + WordsData(segments[i].words)
  {
    assert segments[..i + 1][..i] == segments[..i];
  }

  lemma TerminatedSnoc(parts: seq<string>, i: nat, sep: string)
    requires i < |parts|
    ensures Terminated(parts[..i + 1], sep) == Terminated(parts[..i], sep) + parts[i] + sep
  {
    assert parts[..i + 1][..i] == parts[..i];
  }

  lemma WordsDataSnoc(ws: seq<Word>, j: nat)
    requires j < |ws|
    ensures WordsData(ws[..j + 1]) == WordsData(ws[..j]) + [ToWordData(ws[j])]
  {
    assert ws[..j + 1][..j] == ws[..j];
  }

  lemma WordPiecesStep(seg: Segment, j: nat)
    requires j < |seg.words|
    ensures WordPieces(seg)[j..] == [WordPiece(seg, seg.words[j])] + WordPieces(seg)[j + 1..]
  {
  }

  /** One visit of the loop. */
  lemma FeedCons(g: Grouping, p: Piece, rest: seq<Piece>)
    ensures Feed(g, [p] + rest) == Feed(Step(g, p), rest)
  {
    assert ([p] + rest)[1..] == rest;
  }

  /** Visiting two lists of pieces one after the other. */
  lemma {:induction false} FeedAppend(g: Grouping, ps: seq<Piece>, qs: seq<Piece>)
    ensures Feed(g, ps + qs) == Feed(Feed(g, ps), qs)
    decreases |ps|
  {
    if |ps| == 0 {
      assert ps + qs == qs;
    } else {
      FeedAppend(Step(g, ps[0]), ps[1..], qs);
      assert (ps + qs)[1..] == ps[1..] + qs;
    }
  }

  /** The formatting loop: each turn rendered and followed by a blank line. */
  method FormatTurns(speakerSegments: seq<SpeakerTurn>) returns (formattedTranscript: string)
    ensures formattedTranscript == Terminated(RenderTurns(speakerSegments), "\n\n")
  {
    formattedTranscript := "";
    ghost var lines := RenderTurns(speakerSegments);
    var k := 0;
    while k < |speakerSegments|
      invariant 0 <= k <= |speakerSegments|
      invariant formattedTranscript == Terminated(lines[..k], "\n\n")
    {
      var seg := speakerSegments[k];
      formattedTranscript := formattedTranscript + "[" + seg.speaker + "]: " + seg.text + "\n\n";
      assert lines[..k + 1][..k] == lines[..k];
      k := k + 1;
    }
    assert lines[..k] == lines;
  }

  /** `set(word["speaker"] for word in word_level_data)`. */
  method SpeakerSet(wordLevelData: seq<WordData>) returns (speakerSet: set<string>)
    ensures speakerSet == SpeakerLabels(wordLevelData)
  {
    speakerSet := {};
    var m := 0;
    while m < |wordLevelData|
      invariant 0 <= m <= |wordLevelData|
      invariant speakerSet == SpeakerLabels(wordLevelData[..m])
    {
      speakerSet := speakerSet + {wordLevelData[m].speaker};
      assert wordLevelData[..m + 1] == wordLevelData[..m] + [wordLevelData[m]];
      m := m + 1;
    }
    assert wordLevelData[..m] == wordLevelData;
  }

  /** `_process_whisperx_result`: the turns are the reference speaker turns of
      the input; the transcript is the segments' stripped texts joined by
      spaces; the formatted transcript is the turns rendered and separated by
      blank lines, exactly (nothing is lost to the final strip); the speakers
      are the distinct word-level labels, sorted. */
  method ProcessWhisperXResult(segments: seq<Segment>, language: Option<string>) returns (r: Transcription)
    ensures r.speakerSegments == TurnsOf(segments)
    ensures r.transcript == Strip(Join(SegmentTexts(segments), " "))
    ensures r.formattedTranscript == Join(RenderTurns(r.speakerSegments), "\n\n")
    ensures r.wordLevelData == WordDataOf(segments)
    ensures StrictlySorted(r.speakers)
    ensures forall s :: s in r.speakers <==> s in SpeakerLabels(r.wordLevelData)
    ensures r.hasSpeakers <==> |r.speakers| > 1
    ensures r.info == ProcessingInfo(|segments|, |r.wordLevelData|, |r.speakers|, LastEnd(segments))
    ensures r.segments == segments && r.language == language.GetOr(DefaultLanguage)
  {
    var fullTranscript, speakerSegments, wordLevelData := GroupSegments(segments);
    var formattedTranscript := FormatTurns(speakerSegments);
    var speakerSet := SpeakerSet(wordLevelData);
    var speakers := SortedSet(speakerSet);
    var duration := if |segments| > 0 then segments[|segments| - 1].end else 0.0;
    StripTerminated(SegmentTexts(segments), " ");
    StripTerminated(RenderTurns(speakerSegments), "\n\n");
    RunTurnsWellFormed(Pieces(segments), LastEnd(segments));
    FormattedIsExact(speakerSegments);
    r := Transcription(
      Strip(fullTranscript), Strip(formattedTranscript), segments, speakerSegments, wordLevelData,
      speakers, language.GetOr(DefaultLanguage), |speakers| > 1,
      ProcessingInfo(|segments|, |wordLevelData|, |speakers|, duration));
  }

  /** Whether the input has more than one speaker: exactly when two
      different labels occur. */
  lemma MoreThanOneSpeaker(speakers: seq<string>, labels: set<string>)
    requires StrictlySorted(speakers)
    requires forall s :: s in speakers <==> s in labels
    ensures |speakers| > 1 <==> exists a, b :: a in labels && b in labels && a != b
  {
    StrictlySortedHasNoDuplicates(speakers);
    if |speakers| > 1 {
      assert speakers[0] in labels && speakers[1] in labels;
    }
    if exists a, b :: a in labels && b in labels && a != b {
      var a, b :| a in labels && b in labels && a != b;
      var i :| 0 <= i < |speakers| && speakers[i] == a;
      var j :| 0 <= j < |speakers| && speakers[j] == b;
      assert i != j;
    }
  }

  /** The speakers list is empty exactly when no segment has words: segments
      without words do not contribute their SPEAKER_00. */
  lemma {:induction false} SpeakersOnlyFromWords(segs: seq<Segment>)
    ensures SpeakerLabels(WordDataOf(segs)) == {} <==> forall k :: 0 <= k < |segs| ==> |segs[k].words| == 0
    decreases |segs|
  {
    if |segs| > 0 {
      var init := segs[..|segs| - 1];
      var ws := segs[|segs| - 1].words;
      SpeakersOnlyFromWords(init);
      WordsDataLength(ws);
      assert SpeakerLabels(WordDataOf(segs)) == SpeakerLabels(WordDataOf(init)) + SpeakerLabels(WordsData(ws));
      if |ws| > 0 {
        assert WordsData(ws)[0].speaker in SpeakerLabels(WordsData(ws));
      }
      forall k | 0 <= k < |segs| - 1
        ensures segs[k] == init[k]
      {
      }
    }
  }

  lemma {:induction false} WordsDataLength(ws: seq<Word>)
    ensures |WordsData(ws)| == |ws|
    decreases |ws|
  {
    if |ws| > 0 {
      WordsDataLength(ws[..|ws| - 1]);
    }
  }

  // ---------------------------------------------------------------------
  // The command-line variant

  /** The speaker the command-line tool put on a segment, or SPEAKER_00. */
  function CliSpeaker(seg: Segment): string {
    seg.speaker.GetOr(DefaultSpeaker)
  }

  /** `[speaker]: text` for each segment. */
  function CliLines(segs: seq<Segment>): (r: seq<string>)
    ensures |r| == |segs|
  {
    seq(|segs|, k requires 0 <= k < |segs| => "[" + CliSpeaker(segs[k]) + "]: " + Strip(segs[k].text))
  }

  function CliSpeakers(segs: seq<Segment>): set<string> {
    set seg | seg in segs :: CliSpeaker(seg)
  }

  lemma CliSpeakersSnoc(segs: seq<Segment>, i: nat)
    requires i < |segs|
    ensures CliSpeakers(segs[..i + 1]) == CliSpeakers(segs[..i]) + {CliSpeaker(segs[i])}
  {
    assert segs[..i + 1] == segs[..i] + [segs[i]];
  }

  /** The loop of `_process_cli_result`: the plain and the labelled text
      accumulated segment by segment, and the set of speakers seen. */
  method CollectCliLines(segments: seq<Segment>) returns (fullTranscript: string, formattedTranscript: string, speakers: set<string>)
    ensures fullTranscript == Terminated(SegmentTexts(segments), " ")
    ensures formattedTranscript == Terminated(CliLines(segments), "\n\n")
    ensures speakers == CliSpeakers(segments)
  {
    fullTranscript := "";
    formattedTranscript := "";
    speakers := {};
    ghost var texts := SegmentTexts(segments);
    ghost var lines := CliLines(segments);
    assert texts[..0] == [] && lines[..0] == [] && segments[..0] == [];
    for i := 0 to |segments|
      invariant fullTranscript == Terminated(texts[..i], " ")
      invariant formattedTranscript == Terminated(lines[..i], "\n\n")
      invariant speakers == CliSpeakers(segments[..i])
    {
      var text := Strip(segments[i].text);
      var speaker := segments[i].speaker.GetOr(DefaultSpeaker);
      var line := "[" + speaker + "]: " + text;
      assert line == lines[i];
      TerminatedSnoc(texts, i, " ");
      TerminatedSnoc(lines, i, "\n\n");
      CliSpeakersSnoc(segments, i);
      fullTranscript := fullTranscript + text + " ";
      formattedTranscript := formattedTranscript + line + "\n\n";
      speakers := speakers + {speaker};
    }
    assert texts[..|segments|] == texts && lines[..|segments|] == lines && segments[..|segments|] == segments;
  }

  /** `_process_cli_result`: one line per segment, speakers taken from the
      segments, sorted and without repetition. */
  method ProcessCliResult(segments: seq<Segment>, language: Option<string>) returns (r: CliTranscription)
    ensures r.transcript == Strip(Join(SegmentTexts(segments), " "))
    ensures r.formattedTranscript == Strip(Join(CliLines(segments), "\n\n"))
    ensures StrictlySorted(r.speakers)
    ensures forall s :: s in r.speakers <==> s in CliSpeakers(segments)
    ensures r.hasSpeakers <==> |r.speakers| > 1
    ensures r.info == CliInfo(|segments|, |r.speakers|, "cli")
    ensures r.segments == segments && r.language == language.GetOr(DefaultLanguage)
  {
    var fullTranscript, formattedTranscript, speakers := CollectCliLines(segments);
    var sortedSpeakers := SortedSet(speakers);
    StripTerminated(SegmentTexts(segments), " ");
    StripTerminated(CliLines(segments), "\n\n");
    r := CliTranscription(
      Strip(fullTranscript), Strip(formattedTranscript), segments, sortedSpeakers,
      language.GetOr(DefaultLanguage), |speakers| > 1, CliInfo(|segments|, |speakers|, "cli"));
  }

  /** Segments without a speaker are all SPEAKER_00, so a non-empty result
      without diarization lists exactly that one speaker. */
  lemma CliWithoutSpeakers(segs: seq<Segment>, speakers: seq<string>)
    requires |segs| > 0 && forall k :: 0 <= k < |segs| ==> segs[k].speaker.None?
    requires StrictlySorted(speakers) && forall s :: s in speakers <==> s in CliSpeakers(segs)
    ensures speakers == [DefaultSpeaker]
  {
    assert CliSpeaker(segs[0]) in CliSpeakers(segs);
    forall y ensures y in speakers <==> y in [DefaultSpeaker] {
      if y in CliSpeakers(segs) {
        var seg :| seg in segs && CliSpeaker(seg) == y;
      }
    }
    StrictlySortedUnique(speakers, [DefaultSpeaker]);
  }

  /** Rendering well-formed turns leaves nothing for the final strip to remove. */
  lemma FormattedIsExact(turns: seq<SpeakerTurn>)
    requires forall t :: t in turns ==> WellFormed(t)
    ensures Strip(Join(RenderTurns(turns), "\n\n")) == Join(RenderTurns(turns), "\n\n")
  {
    var lines := RenderTurns(turns);
    if |lines| > 0 {
      var first, last := turns[0], turns[|turns| - 1];
      assert first in turns && last in turns;
      var head := "[" + last.speaker + "]: ";
      assert lines[|lines| - 1] == head + last.text;
      assert Strip(last.text) == last.text && |last.text| > 0;
      StripSpec(last.text);
      assert (head + last.text)[|head| + |last.text| - 1] == last.text[|last.text| - 1];
      assert lines[0] == "[" + (first.speaker + "]: " + first.text);
      StripJoinTrimmed(lines, "\n\n");
    }
  }
}
