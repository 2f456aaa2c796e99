/** The string and index arithmetic of the MCP server's tools: the
    case-insensitive occurrence search and its context windows, the chunking
    of a full transcript, the truncated and numbered detail view, and the
    dispatch of tool calls with their default arguments.  The database rows
    the tools read are parameters. */
module McpServer {
  import opened Wrappers
  import opened Strings

  const MaxShownMatches := 3
  const DefaultMeetingsLimit := 10
  const DefaultSearchLimit := 5
  const DefaultContextChars := 300
  const DefaultChunkSize := 2000
  const DefaultExportFormat := "json"
  /** Transcripts longer than this are truncated in the detail view. */
  const TruncateAbove := 2000
  const KeepHead := 1000
  const KeepTail := 500

  /** `c * n`. */
  function Repeat(c: char, n: nat): (r: string)
    ensures |r| == n && forall k :: 0 <= k < n ==> r[k] == c
  {
    seq(n, _ => c)
  }

  /** `"".join(parts)`. */
  function Concat(parts: seq<string>): string {
    Terminated(parts, "")
  }

  /** Appending the next part to a string that ends with the first `i`
      parts concatenated. */
  lemma ConcatStep(prefix: string, xs: seq<string>, i: nat)
    requires i < |xs|
    ensures prefix + Concat(xs[..i + 1]) == prefix + Concat(xs[..i]) + xs[i]
  {
    assert xs[..i + 1][..i] == xs[..i];
    assert Concat(xs[..i + 1]) == Concat(xs[..i]) + xs[i] + "";
    assert Concat(xs[..i]) + xs[i] + "" == Concat(xs[..i]) + xs[i];
    assert prefix + (Concat(xs[..i]) + xs[i]) == prefix + Concat(xs[..i]) + xs[i];
  }

  function Min(a: int, b: int): int {
    if a <= b then a else b
  }

  function Max(a: int, b: int): int {
    if a >= b then a else b
  }

  // ---------------------------------------------------------------------
  // search_transcripts

  /** The `while True` loop of `search_transcripts`: every index where the
      lower-cased query occurs in the lower-cased transcript, ascending,
      overlapping occurrences included. */
  method FindOccurrences(transcript: string, query: string) returns (matches: seq<int>)
    ensures forall k :: 0 <= k < |matches| ==> OccursAt(Lower(transcript), Lower(query), matches[k])
    ensures forall k, l :: 0 <= k < l < |matches| ==> matches[k] < matches[l]
    ensures forall p :: OccursAt(Lower(transcript), Lower(query), p) ==> p in matches
  {
    var queryLower := Lower(query);
    var transcriptLower := Lower(transcript);
    matches := [];
    var start := 0;
    while true
      invariant 0 <= start <= |transcriptLower| + 1
      invariant forall k :: 0 <= k < |matches| ==> OccursAt(transcriptLower, queryLower, matches[k]) && matches[k] < start
      invariant forall k, l :: 0 <= k < l < |matches| ==> matches[k] < matches[l]
      invariant forall p :: 0 <= p < start && OccursAt(transcriptLower, queryLower, p) ==> p in matches
      decreases |transcriptLower| + 1 - start
    {
      var pos := Find(transcriptLower, queryLower, start);
      if pos == -1 {
        break;
      }
      FoundNext(transcriptLower, queryLower, matches, start, pos);
      matches := matches + [pos];
      start := pos + 1;
    }
  }

  /** The occurrence `find` returns is the next one: together with the
      earlier matches it accounts for every occurrence before it. */
  lemma FoundNext(s: string, sub: string, matches: seq<int>, start: nat, pos: int)
    requires forall p :: 0 <= p < start && OccursAt(s, sub, p) ==> p in matches
    requires start <= pos && forall p :: start <= p < pos ==> !OccursAt(s, sub, p)
    ensures forall p :: 0 <= p < pos + 1 && OccursAt(s, sub, p) ==> p in matches + [pos]
  {
  }

  /** `[max(0, pos - c // 2), min(len, pos + len(query) + c // 2))`, the text
      shown around a match. */
  function ContextWindow(pos: int, queryLength: nat, contextChars: int, n: nat): (w: (int, int))
    ensures 0 <= w.0 && w.1 <= n
    ensures contextChars >= 0 && 0 <= pos ==> w.0 <= pos
    ensures contextChars >= 0 && pos + queryLength <= n ==> pos + queryLength <= w.1
    ensures contextChars >= 0 ==> w.1 - w.0 <= queryLength + contextChars
  {
    (Max(0, pos - contextChars / 2), Min(n, pos + queryLength + contextChars / 2))
  }

  /** One rendered match: its context with the matched text in bold. */
  function MatchLine(transcript: string, query: string, contextChars: int, i: nat, pos: int): string {
    var w := ContextWindow(pos, |query|, contextChars, |transcript|);
    var context := PySlice(transcript, w.0, w.1);
    var found := PySlice(transcript, pos, pos + |query|);
    "  Match " + NatToString(i + 1) + ": ..." + ReplaceAll(context, found, "**" + found + "**") + "...\n\n"
  }

  /** The lines of the matches shown: the first three at most, numbered from 1. */
  function ShownMatches(transcript: string, query: string, contextChars: int, matches: seq<int>): (r: seq<string>)
    ensures |r| == Min(|matches|, MaxShownMatches)
    ensures forall i :: 0 <= i < |r| ==> r[i] == MatchLine(transcript, query, contextChars, i, matches[i])
  {
    var shown := Take(matches, MaxShownMatches);
    seq(|shown|, i requires 0 <= i < |shown| => MatchLine(transcript, query, contextChars, i, shown[i]))
  }

  /** The count of matches not shown, when there are any. */
  function MoreMatches(count: nat): string {
    if count > MaxShownMatches then "  ... and " + NatToString(count - MaxShownMatches) + " more matches\n\n" else ""
  }

  /** The occurrence part of one meeting's search result. */
  method RenderOccurrences(transcript: string, query: string, matches: seq<int>, contextChars: int) returns (out: string)
    ensures |matches| == 0 ==> out == ""
    ensures |matches| > 0 ==>
      out == "\U{1F50D} Found " + NatToString(|matches|) + " occurrence(s):\n"
        + Concat(ShownMatches(transcript, query, contextChars, matches)) + MoreMatches(|matches|)
  {
    out := "";
    if |matches| > 0 {
      out := "\U{1F50D} Found " + NatToString(|matches|) + " occurrence(s):\n";
      out := AppendMatchLines(out, transcript, query, matches, contextChars);
      if |matches| > MaxShownMatches {
        out := out + ("  ... and " + NatToString(|matches| - MaxShownMatches) + " more matches\n\n");
      } else {
        assert out + MoreMatches(|matches|) == out;
      }
    }
  }

  /** The `for i, pos in enumerate(matches[:3])` loop: each shown match's
      line appended to `out`. */
  method AppendMatchLines(out0: string, transcript: string, query: string, matches: seq<int>, contextChars: int) returns (out: string)
    ensures out == out0 + Concat(ShownMatches(transcript, query, contextChars, matches))
  {
    out := out0;
    var shown := Take(matches, MaxShownMatches);
    ghost var lines := ShownMatches(transcript, query, contextChars, matches);
    assert lines[..0] == [];
    for i := 0 to |shown|
      invariant out == out0 + Concat(lines[..i])
    {
      ConcatStep(out0, lines, i);
      out := out + MatchLine(transcript, query, contextChars, i, shown[i]);
    }
    assert lines[..|shown|] == lines;
  }

  /** The trailer appears exactly when more than three matches were found,
      and the number it prints, read back, is the count of matches not
      shown: the shown lines and the counted ones add up to all matches. */
  lemma TrailerCountsHidden(transcript: string, query: string, contextChars: int, matches: seq<int>)
    ensures |matches| <= MaxShownMatches ==> MoreMatches(|matches|) == ""
    ensures |matches| > MaxShownMatches ==>
      var t := MoreMatches(|matches|);
      25 < |t| && t[..10] == "  ... and " && t[|t| - 15..] == " more matches\n\n" &&
      |ShownMatches(transcript, query, contextChars, matches)| + DigitsValue(t[10..|t| - 15]) == |matches|
  {
    if |matches| > MaxShownMatches {
      var d := NatToString(|matches| - MaxShownMatches);
      var t := MoreMatches(|matches|);
      assert t == "  ... and " + d + " more matches\n\n";
      assert t[10..|t| - 15] == d;
      DigitsValueOfNatToString(|matches| - MaxShownMatches);
    }
  }

  // ---------------------------------------------------------------------
  // get_full_transcript

  /** A slice of the transcript and where it starts. */
  datatype Chunk = Chunk(number: nat, offset: nat, text: string)

  function Texts(chunks: seq<Chunk>): (r: seq<string>)
    ensures |r| == |chunks| && forall k :: 0 <= k < |chunks| ==> r[k] == chunks[k].text
  {
    seq(|chunks|, k requires 0 <= k < |chunks| => chunks[k].text)
  }

  /** `ceil(n / size)`, as `(n + size - 1) // size`. */
  function ChunkCount(n: nat, size: nat): nat
    requires size > 0
  {
    (n + size - 1) / size
  }

  lemma MulMonotonic(a: nat, b: nat, c: nat)
    requires a <= b
    ensures a * c <= b * c
  {
  }

  lemma MulSucc(n: nat, size: nat)
    ensures (n + 1) * size == n * size + size
  {
  }

  lemma DivUnique(x: nat, size: nat, k: nat)
    requires size > 0 && k * size <= x < k * size + size
    ensures x / size == k
  {
    var q := x / size;
    assert x == q * size + x % size;
    if q < k {
      MulMonotonic(q + 1, k, size);
    } else if q > k {
      MulMonotonic(k + 1, q, size);
    }
  }

  /** `k` chunks of `size` cover `n` characters exactly when `k` is the
      ceiling of `n / size`. */
  lemma CeilingCount(n: nat, size: nat, k: nat)
    requires size > 0
    requires n <= k * size && (k == 0 || (k - 1) * size < n)
    ensures k == ChunkCount(n, size)
  {
    if k == 0 {
      DivUnique(n + size - 1, size, 0);
    } else {
      assert (k - 1) * size == k * size - size;
      DivUnique(n + size - 1, size, k);
    }
  }

  /** Chunk `k`: numbered `k + 1`, the slice of up to `size` characters of
      `t` at offset `k * size`. */
  function ChunkAt(t: string, size: nat, k: nat): Chunk {
    Chunk(k + 1, k * size, PySlice(t, k * size, k * size + size))
  }

  /** A chunk that starts inside the transcript is non-empty, at most `size`
      long, and full unless it reaches the end. */
  lemma ChunkAtText(t: string, size: nat, k: nat)
    requires size > 0 && k * size < |t|
    ensures ChunkAt(t, size, k).text == t[k * size..Min(k * size + size, |t|)]
    ensures 0 < |ChunkAt(t, size, k).text| <= size
    ensures k * size + size <= |t| ==> |ChunkAt(t, size, k).text| == size
  {
  }

  /** The chunks are chunk 0, chunk 1, ... in order. */
  predicate Consecutive(t: string, size: nat, chunks: seq<Chunk>) {
    forall k :: 0 <= k < |chunks| ==> chunks[k] == ChunkAt(t, size, k)
  }

  /** The first `|chunks|` chunks, ending at offset `i`, are consecutive
      non-empty slices, all full but the last. */
  predicate ChunkedUpTo(t: string, size: nat, chunks: seq<Chunk>, i: nat) {
    && Consecutive(t, size, chunks)
    && i == |chunks| * size
    && (|chunks| > 0 ==> i - size < |t|)
    && (forall k :: 0 <= k < |chunks| ==> 0 < |chunks[k].text| <= size)
    && (forall k :: 0 <= k < |chunks| - 1 ==> |chunks[k].text| == size)
  }

  lemma ConsecutiveStep(t: string, size: nat, chunks: seq<Chunk>)
    requires Consecutive(t, size, chunks)
    ensures Consecutive(t, size, chunks + [ChunkAt(t, size, |chunks|)])
  {
    var chunks' := chunks + [ChunkAt(t, size, |chunks|)];
    forall k | 0 <= k < |chunks'|
      ensures chunks'[k] == ChunkAt(t, size, k)
    {
      if k < |chunks| {
        assert chunks'[k] == chunks[k];
      }
    }
  }

  /** Appending a non-empty chunk of at most `size` after full chunks keeps
      every chunk but the last full. */
  lemma LengthsStep(size: nat, chunks: seq<Chunk>, c: Chunk)
    requires forall k :: 0 <= k < |chunks| ==> 0 < |chunks[k].text| <= size
    requires forall k :: 0 <= k < |chunks| - 1 ==> |chunks[k].text| == size
    requires |chunks| > 0 ==> |chunks[|chunks| - 1].text| == size
    requires 0 < |c.text| <= size
    ensures forall k :: 0 <= k < |chunks| + 1 ==> 0 < |(chunks + [c])[k].text| <= size
    ensures forall k :: 0 <= k < |chunks| ==> |(chunks + [c])[k].text| == size
  {
  }

  lemma ChunkStep(t: string, size: nat, chunks: seq<Chunk>, i: nat)
    requires size > 0 && i < |t| && ChunkedUpTo(t, size, chunks, i)
    ensures ChunkedUpTo(t, size, chunks + [ChunkAt(t, size, |chunks|)], i + size)
  {
    var n := |chunks|;
    ChunkAtText(t, size, n);
    MulSucc(n, size);
    if n > 0 {
      MulSucc(n - 1, size);
      ChunkAtText(t, size, n - 1);
      assert chunks[n - 1] == ChunkAt(t, size, n - 1);
    }
    ConsecutiveStep(t, size, chunks);
    LengthsStep(size, chunks, ChunkAt(t, size, n));
  }

  /** Each new chunk extends the covered prefix of the transcript by its text. */
  lemma CoverStep(t: string, size: nat, chunks: seq<Chunk>, i: nat)
    requires size > 0 && i < |t| && i == |chunks| * size && Concat(Texts(chunks)) == t[..i]
    ensures Concat(Texts(chunks + [ChunkAt(t, size, |chunks|)])) == t[..Min(i + size, |t|)]
  {
    var n := |chunks|;
    ChunkAtText(t, size, n);
    var text := ChunkAt(t, size, n).text;
    var end := Min(i + size, |t|);
    var chunks' := chunks + [ChunkAt(t, size, n)];
    assert Texts(chunks') == Texts(chunks) + [text];
    assert t[..end] == t[..i] + t[i..end];
    ConcatStep([], Texts(chunks'), n);
    assert Texts(chunks')[..n] == Texts(chunks);
    assert Texts(chunks') == Texts(chunks')[..n + 1];
  }

  /** The `for i in range(0, len, size)` loop: consecutive slices of `size`
      characters, the last possibly shorter, that put together give the
      transcript back; there are `ceil(len / size)` of them. */
  method SplitChunks(transcript: string, size: nat) returns (chunks: seq<Chunk>)
    requires size > 0
    ensures |chunks| == ChunkCount(|transcript|, size)
    ensures Consecutive(transcript, size, chunks)
    ensures forall k :: 0 <= k < |chunks| ==> 0 < |chunks[k].text| <= size
    ensures forall k :: 0 <= k < |chunks| - 1 ==> |chunks[k].text| == size
    ensures Concat(Texts(chunks)) == transcript
  {
    chunks := [];
    var i := 0;
    assert Texts(chunks) == [];
    while i < |transcript|
      invariant ChunkedUpTo(transcript, size, chunks, i)
      invariant Concat(Texts(chunks)) == transcript[..Min(i, |transcript|)]
      decreases |transcript| - i
    {
      SplitStep(transcript, size, chunks, i);
      var chunkNumber := i / size + 1;
      var chunkText := PySlice(transcript, i, i + size);
      chunks := chunks + [Chunk(chunkNumber, i, chunkText)];
      i := i + size;
    }
    SplitDone(transcript, size, chunks, i);
  }

  /** One visit of the loop: chunk number `i / size + 1` is the next chunk. */
  lemma SplitStep(t: string, size: nat, chunks: seq<Chunk>, i: nat)
    requires size > 0 && i < |t| && ChunkedUpTo(t, size, chunks, i)
    requires Concat(Texts(chunks)) == t[..i]
    ensures i / size == |chunks|
    ensures Chunk(|chunks| + 1, i, PySlice(t, i, i + size)) == ChunkAt(t, size, |chunks|)
    ensures ChunkedUpTo(t, size, chunks + [ChunkAt(t, size, |chunks|)], i + size)
    ensures Concat(Texts(chunks + [ChunkAt(t, size, |chunks|)])) == t[..Min(i + size, |t|)]
  {
    DivUnique(i, size, |chunks|);
    ChunkStep(t, size, chunks, i);
    CoverStep(t, size, chunks, i);
  }

  /** When the loop ends the chunks cover the transcript. */
  lemma SplitDone(t: string, size: nat, chunks: seq<Chunk>, i: nat)
    requires size > 0 && i >= |t| && ChunkedUpTo(t, size, chunks, i)
    requires Concat(Texts(chunks)) == t[..Min(i, |t|)]
    ensures |chunks| == ChunkCount(|t|, size)
    ensures Concat(Texts(chunks)) == t
  {
    CeilingCount(|t|, size, |chunks|);
    assert t[..|t|] == t;
  }

  /** What `get_full_transcript` reads from the meetings table. */
  datatype TranscriptRow = TranscriptRow(title: string, transcript: Option<string>, createdAt: string, audioFilename: Option<string>)

  function FullHeader(meetingId: string, row: TranscriptRow, transcript: string): string {
    var audio := if row.audioFilename.Some? && row.audioFilename.value != "" then row.audioFilename.value else "N/A";
    "\U{1F4CB} Full Transcript - Meeting ID: " + meetingId + "\n"
      + "\U{1F4DD} Title: " + row.title + "\n"
      + "\U{1F4C5} Date: " + row.createdAt + "\n"
      + "\U{1F3B5} Audio File: " + audio + "\n"
      + "\U{1F4CA} Length: " + NatToString(|transcript|) + " characters\n"
      + Repeat('=', 60) + "\n\n"
  }

  /** A chunk with its header; the character range is 1-based and inclusive. */
  function RenderChunk(meetingId: string, title: string, total: nat, length: nat, c: Chunk): string {
    "\U{1F4CB} Transcript Chunk " + NatToString(c.number) + "/" + NatToString(total) + " - Meeting ID: " + meetingId + "\n"
      + "\U{1F4DD} Title: " + title + "\n"
      + "Characters: " + NatToString(c.offset + 1) + "-" + NatToString(Min(c.offset + |c.text|, length)) + " of " + NatToString(length) + "\n"
      + Repeat('-', 40) + "\n\n"
      + c.text
  }

  /** `get_full_transcript` after its query: a message when there is no row
      or no transcript, the whole transcript when it fits in one chunk, and
      otherwise one text per chunk.  A zero chunk size divides by zero, which
      the handler reports; a negative one makes an empty range. */
  method GetFullTranscript(meetingId: string, row: Option<TranscriptRow>, chunkSize: int) returns (texts: seq<string>)
    ensures row.None? ==> texts == ["Meeting " + meetingId + " not found"]
    ensures row.Some? && row.value.transcript.GetOr("") == "" ==>
      texts == ["No transcript available for meeting " + meetingId]
    ensures row.Some? && row.value.transcript.GetOr("") != "" ==>
      var t := row.value.transcript.value;
      && (|t| <= chunkSize ==> texts == [FullHeader(meetingId, row.value, t) + t])
      && (chunkSize == 0 ==> texts == ["Error fetching transcript: integer division or modulo by zero"])
      && (chunkSize < 0 ==> texts == [])
      && (0 < chunkSize < |t| ==>
        && |texts| == ChunkCount(|t|, chunkSize)
        && forall k :: 0 <= k < |texts| ==>
          texts[k] == RenderChunk(meetingId, row.value.title, |texts|, |t|, ChunkAt(t, chunkSize, k)))
  {
    if row.None? {
      return ["Meeting " + meetingId + " not found"];
    }
    var r := row.value;
    if r.transcript.None? || r.transcript.value == "" {
      return ["No transcript available for meeting " + meetingId];
    }
    var t := r.transcript.value;
    if |t| <= chunkSize {
      return [FullHeader(meetingId, r, t) + t];
    }
    if chunkSize == 0 {
      return ["Error fetching transcript: integer division or modulo by zero"];
    }
    if chunkSize < 0 {
      return [];
    }
    var chunks := SplitChunks(t, chunkSize);
    var total := ChunkCount(|t|, chunkSize);
    texts := seq(|chunks|, k requires 0 <= k < |chunks| => RenderChunk(meetingId, r.title, total, |t|, chunks[k]));
  }

  // ---------------------------------------------------------------------
  // get_meeting_details

  /** The part of a transcript the detail view shows: all of it, or the
      first 1000 and the last 500 characters when it is over 2000 long. */
  function ShownTranscript(t: string): (r: string)
    ensures |r| <= TruncateAbove
    ensures |t| <= TruncateAbove ==> r == t
    ensures |t| > TruncateAbove ==> |r| == KeepHead + KeepTail < |t|
    ensures |t| > TruncateAbove ==> r[..KeepHead] == t[..KeepHead] && r[KeepHead..] == t[|t| - KeepTail..]
  {
    if |t| > TruncateAbove then t[..KeepHead] + t[|t| - KeepTail..] else t
  }

  /** The transcript entry of the detail view. */
  function TranscriptEntry(column: string, t: string): string {
    if |t| > TruncateAbove then
      column + ": " + t[..KeepHead] + "...\n[TRANSCRIPT TRUNCATED - " + NatToString(|t|)
        + " total characters]\n.." + t[|t| - KeepTail..] + "\n\n"
    else column + ": " + t + "\n\n"
  }

  /** The entry always shows exactly the characters `ShownTranscript` keeps,
      the head and the tail separated by the truncation notice. */
  lemma TranscriptEntryShows(column: string, t: string)
    ensures var s := ShownTranscript(t);
      |t| > TruncateAbove ==>
        TranscriptEntry(column, t) == column + ": " + s[..KeepHead] + "...\n[TRANSCRIPT TRUNCATED - "
          + NatToString(|t|) + " total characters]\n.." + s[KeepHead..] + "\n\n"
    ensures |t| <= TruncateAbove ==> TranscriptEntry(column, t) == column + ": " + ShownTranscript(t) + "\n\n"
  {
  }

  function NumberedLine(idx: nat, item: string): string {
    "  " + NatToString(idx) + ". " + item + "\n"
  }

  /** One line per item, numbered from 1 in list order. */
  function NumberedLines(items: seq<string>): (r: seq<string>)
    ensures |r| == |items|
    ensures forall k :: 0 <= k < |items| ==> r[k] == NumberedLine(k + 1, items[k])
  {
    seq(|items|, k requires 0 <= k < |items| => NumberedLine(k + 1, items[k]))
  }

  /** The action-item list of the detail view, built by `enumerate(items, 1)`. */
  method NumberedItems(column: string, items: seq<string>) returns (out: string)
    ensures out == column + ":\n" + Concat(NumberedLines(items)) + "\n"
  {
    var header := column + ":\n";
    out := header;
    ghost var lines := NumberedLines(items);
    assert lines[..0] == [];
    for k := 0 to |items|
      invariant out == header + Concat(lines[..k])
    {
      ConcatStep(header, lines, k);
      out := out + ("  " + NatToString(k + 1) + ". " + items[k] + "\n");
    }
    assert lines[..|items|] == lines;
    out := out + "\n";
  }

  /** A column value of a meeting row; other SQLite types are shown by
      their text. */
  datatype Cell = Null | Text(s: string)

  function CellText(v: Cell): string {
    if v.Null? then "None" else v.s
  }

  /** One column of the detail view.  `parseList` is `json.loads` giving a
      list of items, or `None` when the text is not a JSON list or does not
      parse. */
  method FormatColumn(column: string, value: Cell, parseList: string -> Option<seq<string>>) returns (out: string)
    ensures column == "transcript" && value.Text? && value.s != "" ==> out == TranscriptEntry(column, value.s)
    ensures column == "action_items" && value.Text? && value.s != "" && parseList(value.s).Some? ==>
      out == column + ":\n" + Concat(NumberedLines(parseList(value.s).value)) + "\n"
    ensures ((column != "transcript" || value.Null? || value.s == "")
      && (column != "action_items" || value.Null? || value.s == "" || parseList(value.s).None?)) ==>
      out == column + ": " + CellText(value) + "\n\n"
  {
    if column == "transcript" && value.Text? && value.s != "" {
      out := TranscriptEntry(column, value.s);
    } else if column == "action_items" && value.Text? && value.s != "" {
      var parsed := parseList(value.s);
      if parsed.Some? {
        out := NumberedItems(column, parsed.value);
      } else {
        out := column + ": " + value.s + "\n\n";
      }
    } else {
      out := column + ": " + CellText(value) + "\n\n";
    }
  }

  // ---------------------------------------------------------------------
  // call_tool

  /** A value in a tool call's `arguments`. */
  datatype Arg = IntArg(i: int) | StrArg(s: string) | NullArg

  type Arguments = map<string, Arg>

  /** `arguments.get(key)`. */
  function Lookup(args: Arguments, key: string): Option<Arg> {
    if key in args then Some(args[key]) else None
  }

  /** `arguments.get(key, default)`. */
  function LookupOr(args: Arguments, key: string, default: Arg): Arg {
    if key in args then args[key] else default
  }

  /** The handler a call reaches and the arguments it passes on. */
  datatype ToolCall =
    | Meetings(limit: Arg)
    | MeetingDetails(meetingId: Option<Arg>)
    | Search(query: Option<Arg>, limit: Arg, contextChars: Arg)
    | FullTranscript(meetingId: Option<Arg>, chunkSize: Arg)
    | SentimentAnalysis(meetingId: Option<Arg>)
    | ExportMeeting(meetingId: Option<Arg>, format: Arg)
    | ContainerStatus
    | NotFound(text: string)

  const ToolNames: set<string> := {"get_meetings", "get_meeting_details", "search_transcripts",
    "get_full_transcript", "get_sentiment_analysis", "export_meeting_data", "get_container_status"}

  /** The text returned for an unknown tool. */
  const ToolNotFoundText := "Tool not found"

  /** `call_tool`'s dispatch: a known name reaches its handler with the
      given arguments or their defaults; any other name is "Tool not found". */
  function Dispatch(name: string, args: Arguments): (r: ToolCall)
    ensures r.NotFound? <==> name !in ToolNames
    ensures r.NotFound? ==> r.text == "Tool not found"
  {
    if name == "get_meetings" then Meetings(LookupOr(args, "limit", IntArg(DefaultMeetingsLimit)))
    else if name == "get_meeting_details" then MeetingDetails(Lookup(args, "meeting_id"))
    else if name == "search_transcripts" then
      Search(Lookup(args, "query"), LookupOr(args, "limit", IntArg(DefaultSearchLimit)),
        LookupOr(args, "context_chars", IntArg(DefaultContextChars)))
    else if name == "get_full_transcript" then
      FullTranscript(Lookup(args, "meeting_id"), LookupOr(args, "chunk_size", IntArg(DefaultChunkSize)))
    else if name == "get_sentiment_analysis" then SentimentAnalysis(Lookup(args, "meeting_id"))
    else if name == "export_meeting_data" then
      ExportMeeting(Lookup(args, "meeting_id"), LookupOr(args, "format", StrArg(DefaultExportFormat)))
    else if name == "get_container_status" then ContainerStatus
    else NotFound(ToolNotFoundText)
  }

  /** Without arguments every tool gets its defaults: 10 meetings, 5 search
      results with 300 characters of context, chunks of 2000, JSON export. */
  lemma DispatchDefaults()
    ensures Dispatch("get_meetings", map[]) == Meetings(IntArg(10))
    ensures Dispatch("search_transcripts", map[]) == Search(None, IntArg(5), IntArg(300))
    ensures Dispatch("get_full_transcript", map[]) == FullTranscript(None, IntArg(2000))
    ensures Dispatch("export_meeting_data", map[]) == ExportMeeting(None, StrArg("json"))
  {
  }

  /** A given argument always overrides the default. */
  lemma DispatchUsesGivenArguments(args: Arguments, limit: int, chunkSize: int)
    requires Lookup(args, "limit") == Some(IntArg(limit)) && Lookup(args, "chunk_size") == Some(IntArg(chunkSize))
    ensures Dispatch("get_meetings", args).limit == IntArg(limit)
    ensures Dispatch("search_transcripts", args).limit == IntArg(limit)
    ensures Dispatch("get_full_transcript", args).chunkSize == IntArg(chunkSize)
  {
  }
}
