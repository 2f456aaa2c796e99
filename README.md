# SpeakInsights core, modelled in Dafny

SpeakInsights turns meeting audio into transcripts, summaries and action
items. It shows them through an MCP server and pushes them to an n8n
webhook. This project models the deterministic core of that pipeline and
proves what it promises:

- **Speaker-turn reconstruction** (`app/whisperx_transcription.py`).
  `_process_whisperx_result` walks the WhisperX segments and their
  speaker-tagged words. It groups consecutive words of one speaker into
  turns and builds the plain transcript, the `[SPEAKER]: text` transcript,
  the word-level data and the sorted speaker list. `_process_cli_result`
  builds the two transcripts and the sorted speaker list from the
  command-line tool's segments, one line per segment, without grouping and
  without word-level data. Both are methods with loops. The turns are proved equal to an independent reference: one turn
  per maximal run of equal labels, blank runs dropped (`speaker_turns.dfy`,
  `whisperx.dfy`).
- **The n8n webhook dispatcher** (`app/webhook.py`). `WebhookManager` is a
  class whose fields are read from the configuration. It has the three
  notification gates, the payloads, their flattening into GET query
  parameters, and the bounded retry loop with a 2-second pause between
  attempts. The HTTP transport is an oracle that gives the reply to every
  attempt, and each pause is a recorded event (`webhook.dfy`).
- **The MCP server's transcript tools** (`mcp_server.py`):
  - the case-insensitive, overlapping occurrence search and its context
    windows;
  - the chunking of a full transcript into `ceil(len / size)` slices;
  - the truncated and numbered detail view;
  - the default arguments of `call_tool` (`mcp_server.dfy`).
- **Rule-based action-item extraction**. The `app/nlp_module.py` version
  uses five regular expressions, a length filter, capitalisation and
  case-insensitive de-duplication. The regex engine is a parameter. The
  `app/nlp_pipeline.py` version uses eight keywords (`nlp_module.dfy`,
  `nlp_pipeline.dfy`).
- **Task export** (`app/mcp_integration.py`): one pending task per action
  item, with ids `task_1`, `task_2`, ... (`mcp_integration.dfy`).

Python's string built-ins are modelled once, at ASCII level, in
`strings.dfy`: `strip`, `lower`, `capitalize`, `split`, `join`, `find`,
slicing with Python's bounds rules, `replace`, and `str` of a natural number with its read-back. `sorting.dfy`
holds Python's string ordering and `sorted(set)`, and `wrappers.dfy` holds
an `Option` type.

Behaviour of the code as written that a reader might not expect:

- A closed turn ends at the end of the segment in which the speaker change
  is seen, not at the previous word's end.
- Words are concatenated with no separator.
- The speaker list comes only from word-level data, so it is empty when no
  segment has words.
- Segment order is never checked.
- The webhook timestamp is taken once per notification, so every retry
  sends identical parameters.

## Model

| member | source | states |
|---|---|---|
| SpeakerTurns.GroupingMatchesRuns | app/whisperx_transcription.py:282-339 | The grouping loop plus the final-turn step yields exactly the reference turns. There is one turn per maximal run of equal labels, whose text is the run's texts joined by their joiners and then stripped. Blank runs are dropped. Each turn ends at the end of the segment where the label changes; the last ends at the last segment's end. |
| SpeakerTurns.ChangeCloses | app/whisperx_transcription.py:295-308 | When the label changes, the open turn closes at the end of the segment that holds the new piece, and a new turn starts with that piece. |
| SpeakerTurns.Absorb | app/whisperx_transcription.py:309-310 | A piece with the same label as the open turn is appended to its text after the piece's joiner. The joiner is empty for a word and a single space for a segment without words. |
| SpeakerTurns.RunTurnsWellFormed | app/whisperx_transcription.py:297-303 | Every emitted turn has stripped, non-blank text, and its label is one of the input labels. |
| SpeakerTurns.AdjacentTurnsDiffer | app/whisperx_transcription.py:295-310 | When every piece has visible text, neighbouring turns have different speakers. |
| SpeakerTurns.VisibleInputAlternatesSpeakers | app/whisperx_transcription.py:295-328 | If every word and every word-less segment has visible text, consecutive speaker segments of the result have different speakers. |
| SpeakerTurns.WithoutWordsOneDefaultTurn | app/whisperx_transcription.py:311-328 | Segments without word lists are all grouped under SPEAKER_00. This gives at most one turn, which ends at the last segment's end. |
| SpeakerTurns.NoSegmentsNoTurns | app/whisperx_transcription.py:333-339 | An empty segment list yields no speaker segments. |
| SpeakerTurns.OneSegmentTwoSpeakers | app/whisperx_transcription.py:295-310 | Two words of speaker x followed by one of speaker y in one segment give two turns. The first turn's text is the two words concatenated with no separator, and both turns end at the segment's end. |
| WhisperX.ProcessWhisperXResult | app/whisperx_transcription.py:258-364 | Its results are: the turns equal the reference turns; the transcript is the stripped segment texts joined by single spaces, then stripped; the formatted transcript is the turns rendered as `[speaker]: text` and separated by blank lines, with nothing lost to the final strip; the word-level data is every word in input order; the speakers are sorted, have no duplicates and are exactly the labels in that data; `has_speakers` holds iff there are more than one; the counts and duration are as stated; the language defaults to "en". |
| WhisperX.GroupSegments | app/whisperx_transcription.py:272-339 | The segment loop accumulates the space-terminated segment texts, the reference turns and all word-level data. |
| WhisperX.GroupSegment | app/whisperx_transcription.py:280-328 | One visit: the grouping state advances over the segment's pieces, and its words' data is appended. |
| WhisperX.GroupWords | app/whisperx_transcription.py:282-310 | The word loop advances the grouping state over the segment's words. It appends each word's data, with start defaulting to 0 and speaker to SPEAKER_00. |
| WhisperX.GroupWithoutWords | app/whisperx_transcription.py:311-328 | A segment without words is one SPEAKER_00 piece whose stripped text is appended after a space. |
| WhisperX.FormatTurns | app/whisperx_transcription.py:342-344 | Each turn is rendered as `[speaker]: text` and followed by a blank line, in order. |
| WhisperX.SpeakerSet | app/whisperx_transcription.py:347 | The set built is the set of word-level speaker labels. |
| WhisperX.FormattedIsExact | app/whisperx_transcription.py:342-351 | Rendered well-formed turns neither start nor end with whitespace, so the final strip removes nothing. |
| WhisperX.MoreThanOneSpeaker | app/whisperx_transcription.py:347-356 | `has_speakers` holds iff two different labels occur. |
| WhisperX.SpeakersOnlyFromWords | app/whisperx_transcription.py:347 | The speaker set is empty iff no segment has words. |
| WhisperX.ProcessCliResult | app/whisperx_transcription.py:487-517 | It returns one `[speaker]: text` line per segment, with the speaker defaulting to SPEAKER_00, joined by blank lines and stripped. The transcript is the stripped texts joined by spaces and stripped. The speakers are the sorted, duplicate-free set of segment speakers, `has_speakers` holds iff there are more than one, and the counts and "cli" method are as stated. |
| WhisperX.CollectCliLines | app/whisperx_transcription.py:497-503 | The loop accumulates both texts line by line and the set of segment speakers. |
| WhisperX.CliWithoutSpeakers | app/whisperx_transcription.py:497-510 | Without diarization, a non-empty result lists exactly `["SPEAKER_00"]`. |
| Sorting.SortedSet | app/whisperx_transcription.py:355 | `sorted(set)`: the result is strictly increasing in Python's string order, has the set's elements and no others, and has the set's size. |
| Sorting.LexLessIsStrictTotalOrder | app/whisperx_transcription.py:355 | Python's string comparison is irreflexive, transitive and total on distinct strings. |
| Sorting.StrictlySortedUnique | app/whisperx_transcription.py:355 | Two strictly sorted lists with the same elements are equal, so the sorted speaker list is determined by the set. |
| Strings.StripTerminated | app/whisperx_transcription.py:330-350 | Stripping parts that each end in a blank separator gives the same result as stripping their join. |
| Strings.JoinSplit | app/nlp_pipeline.py:33 | Joining the pieces of `text.split(c)` with `c` gives the text back. |
| Strings.SplitJoin | app/webhook.py:82 | Splitting a `c`-join of parts that do not contain `c` gives the parts back. |
| Strings.Find | mcp_server.py:329 | `find(sub, start)` returns the least index at or after `start` where `sub` occurs, or -1 when there is none. |
| Strings.PySlice | mcp_server.py:341 | A slice with in-range bounds is the ordinary subsequence, and every slice is no longer than the string. |
| Webhook.WebhookManager.constructor | app/webhook.py:10-18 | Each field is the setting from `webhook_settings`, or its default: disabled, empty URL, timeout 30, 3 attempts, action items on, summaries off, metadata on. |
| Webhook.WebhookManager.SendWebhook | app/webhook.py:66-119 | It sends the same request, built from the payload's query parameters, at each attempt. It stops at the first 200 reply with True; otherwise it uses up all attempts and returns False. It pauses 2 seconds between attempts and never after the last. |
| Webhook.WebhookManager.SendsBounds | app/webhook.py:68-119 | A send makes at most `retry_attempts` identical requests and one pause fewer. It succeeds iff some allowed attempt gets a 200, in which case only the last attempt got it. On failure every allowed attempt was made, which is zero when `retry_attempts <= 0`. |
| Webhook.WebhookManager.SendActionItems | app/webhook.py:20-42 | Nothing is sent and False is returned unless the webhook is enabled, has a URL and sends action items. Otherwise it sends the action-item payload, whose metadata is attached only with `include_metadata` and non-empty meeting data, with summary null unless summaries are sent. |
| Webhook.WebhookManager.SendSummary | app/webhook.py:44-64 | The same gates keyed on `send_summaries`. The metadata has no summary. |
| Webhook.WebhookManager.TestWebhook | app/webhook.py:121-133 | It is skipped only when the URL is empty; `enabled` is not consulted. |
| Webhook.AttemptsMadeSpec | app/webhook.py:68-104 | The attempts stop right after the first accepted one. The last attempt is accepted iff some allowed attempt is, and otherwise all attempts are made. |
| Webhook.ScheduleShape | app/webhook.py:113-116 | A run of m attempts makes m identical requests and m - 1 pauses, and never ends on a pause. |
| Webhook.FailedRoundsCounts | app/webhook.py:113-116 | Each failed attempt that is not the last is followed by exactly one 2-second pause. |
| Webhook.ActionItemsRoundTrip | app/webhook.py:26-82 | The `action_items` parameter splits back on `\|` into the items when there is at least one item and none contains `\|`, and `count` is the number of items. |
| Webhook.CountDefaults | app/webhook.py:73-86 | Summary and test notifications send `count=0`. The test sends an empty meeting id and no summary, items or metadata. |
| Webhook.TwoItemsExample | app/webhook.py:26-82 | `["Call client", "Send invoice"]` travel as `action_items=Call client\|Send invoice` with `count=2`. |
| Webhook.SendActionItemsShadowed | app/webhook.py:16-20 | As written, the instance attribute `send_action_items` hides the method of that name, while `send_summary` and `test_webhook` stay callable. |
| McpServer.FindOccurrences | mcp_server.py:322-333 | The `while True` loop returns exactly the indices where the lower-cased query occurs in the lower-cased transcript, strictly increasing and including overlapping occurrences. |
| McpServer.ContextWindow | mcp_server.py:338-339 | The window lies within the transcript and contains the match. Its length is at most the query length plus `context_chars`. |
| McpServer.ShownMatches | mcp_server.py:337-349 | Only the first min(n, 3) matches are rendered, numbered from 1, in order. |
| McpServer.RenderOccurrences | mcp_server.py:335-352 | There is no output without matches. Otherwise the output is the count header, the shown matches, and a trailer when more than 3 were found. |
| McpServer.AppendMatchLines | mcp_server.py:337-349 | The loop appends the shown match lines in order. |
| McpServer.TrailerCountsHidden | mcp_server.py:337-352 | The trailer appears only when more than 3 matches were found. The number it prints, read back as digits, plus the number of shown lines equals the number of matches. |
| McpServer.SplitChunks | mcp_server.py:397-402 | The chunking loop gives `ceil(len / size)` consecutive slices. Each is non-empty and at most `size` long, all but the last are full, and together they are the transcript. |
| McpServer.CeilingCount | mcp_server.py:398 | k chunks of `size` cover n characters exactly when k is `(n + size - 1) // size`. |
| McpServer.ChunkAtText | mcp_server.py:400-402 | A chunk starting inside the transcript is non-empty, at most `size` long, and full unless it reaches the end. |
| McpServer.GetFullTranscript | mcp_server.py:375-411 | It covers the not-found message, the "No transcript available" message for an empty or missing transcript, the header plus the whole transcript when it fits in one chunk, the division-by-zero error for chunk size 0, no output for a negative size, and otherwise one text per chunk. Each chunk text carries its number, the total, and the 1-based character range. |
| McpServer.ShownTranscript | mcp_server.py:264-270 | A transcript over 2000 characters is shown as its first 1000 and last 500 characters; a shorter one is shown whole. |
| McpServer.TranscriptEntryShows | mcp_server.py:264-270 | The transcript entry shows exactly the kept head and tail around the truncation notice that gives the total length. |
| McpServer.NumberedLines | mcp_server.py:278-279 | One line per item, numbered from 1 in list order. |
| McpServer.NumberedItems | mcp_server.py:276-280 | The action-item block is the column header, the numbered lines and a blank line. |
| McpServer.FormatColumn | mcp_server.py:262-286 | A non-empty transcript gets the truncated entry. Action items that parse as a list are numbered, and any other value is shown as `name: value`. |
| McpServer.Dispatch | mcp_server.py:155-189 | A name reaches a handler iff it is one of the seven tools; any other name gets the reply "Tool not found". |
| McpServer.DispatchDefaults | mcp_server.py:159-184 | Missing arguments default to limit 10 for meetings, limit 5 and 300 context characters for search, chunk size 2000, and format "json". |
| McpServer.DispatchUsesGivenArguments | mcp_server.py:159-175 | A given limit or chunk size overrides the default. |
| NlpModule.ExtractActionItems | app/nlp_module.py:54-89 | It returns the first five items of the case-insensitively de-duplicated candidates of the '.'-separated sentences. So there are at most 5 items, each stripped, capitalised and strictly between 10 and 200 characters long, and no two are equal ignoring case. |
| NlpModule.CollectCandidates | app/nlp_module.py:67-79 | Candidates are ordered by sentence, then by pattern, then by match. |
| NlpModule.SentenceItems | app/nlp_module.py:70-79 | The five patterns are tried on a sentence in their order. |
| NlpModule.KeepMatches | app/nlp_module.py:71-79 | Each match's second group is stripped and kept, capitalised, when its length is strictly between 10 and 200. |
| NlpModule.RemoveDuplicates | app/nlp_module.py:82-87 | The `seen` loop computes the first-occurrence de-duplication by lower-case form. |
| NlpModule.CandidatesWellFormed | app/nlp_module.py:74-79 | Whatever the regex engine returns, every candidate is stripped, capitalised and strictly between 10 and 200 characters long. |
| NlpModule.DedupDistinct | app/nlp_module.py:82-87 | No two kept items are equal ignoring case. |
| NlpModule.DedupKeepsFirst | app/nlp_module.py:82-87 | An item whose lower-case form has not appeared before is kept. |
| NlpModule.DedupOnlyFirsts | app/nlp_module.py:82-87 | Every kept item is the first of its lower-case form. |
| NlpModule.SeenDedup | app/nlp_module.py:82-87 | De-duplication loses no lower-case form and adds no item. |
| NlpPipeline.ExtractActionItems | app/nlp_pipeline.py:30-41 | It returns the first five selected fragments: the stripped '.'-separated fragments whose lower-cased, stripped form contains one of the eight keywords. |
| NlpPipeline.SelectedFromSentences | app/nlp_pipeline.py:33-39 | Every item is a stripped fragment that is an action sentence, and there are no more items than fragments. |
| NlpPipeline.SelectedAppend | app/nlp_pipeline.py:36-39 | Selection goes fragment by fragment, so the input order is kept. |
| NlpPipeline.RepeatsKept | app/nlp_pipeline.py:36-39 | A repeated action sentence gives a repeated item: duplicates are not removed. |
| NlpPipeline.ActionSentenceInText | app/nlp_pipeline.py:33-38 | A keyword found in a fragment occurs in the lower-cased text. |
| NlpPipeline.NoKeywordNoItems | app/nlp_pipeline.py:32-41 | Text whose lower-cased form contains no keyword yields an empty list. |
| McpIntegration.CreateTaskExport | app/mcp_integration.py:30-42 | It returns one task per action item, in the same order, with id `task_<k+1>`, the item as title, "Meeting: " + title as source, status "pending", and as timestamp the clock read made for that item, one read per item. The ids are pairwise different, and an empty list gives no tasks. |
| McpIntegration.ExportIdsUnique | app/mcp_integration.py:33-35 | The task ids of any export are pairwise different. |
| McpIntegration.TaskIdsDistinct | app/mcp_integration.py:35 | Different positions give different ids. |
| Strings.DigitsValueOfNatToString | app/mcp_integration.py:35 | Reading back the decimal text of a number gives the number. |
| McpIntegration.CreateTaskExportAsWritten | app/mcp_integration.py:30-42 | The loop as written, run with a given set of bound global names. When `datetime` is bound, the result is the export that `CreateTaskExport` computes, with one clock read per item. When it is not bound, the first item's `created_at` raises NameError: the outcome is NameError for every non-empty list and the empty task list otherwise. |
| McpIntegration.ModuleLacksDatetime | app/mcp_integration.py:2-3 | The module's global names (`json`, `os` and its two functions) do not include `datetime`. |

## Left out

- Model and ML calls (WhisperX loading, alignment, diarization, the CLI subprocess, `summarize_text`, `analyze_sentiment`) are foreign calls into ML libraries. The model starts from the result dictionaries they return.
- SQLite access in the MCP server is persistence I/O. Database rows, and the list parse of `json.loads`, are parameters. The search's `LIKE` query, its result limit and the per-meeting headers and separators of `search_transcripts` are not modelled.
- The detail view's database row, column-name query and environment header are I/O. Only the per-column formatting is modelled, and a cell is either null or text, so SQLite numbers and blobs are not modelled.
- HTTP, `time.sleep`, logging and `datetime.now()` are I/O and clock reads. The transport is an oracle and a pause is an event. The webhook timestamp is a parameter. The task export's clock is a function that gives the value of each successive read, so tasks may carry different timestamps.
- The JSON text of `meeting_metadata` in the query string is not modelled; the metadata travels as a structured value.
- Meeting-data values are strings, numbers or null. Configuration values are assumed to have their intended types, so Python truthiness of other values is not modelled.
- The only exceptions modelled are division by zero in `get_full_transcript` and `NameError` in `create_task_export`. The other handlers' `except Exception` messages are not modelled. Those handlers raise on a failing database or transport, and also on arguments of the wrong type.
- McpServer.Dispatch: it passes arguments on as given. A missing `query` (None), or a `limit` or `chunk_size` that is a string or null, raises inside the handler and comes back through its `except` message; for example `chunk_size="100"` fails the comparison at mcp_server.py:392. That path is not modelled, and `GetFullTranscript` takes an integer chunk size.
- Times (`start`, `end`, `score`) are copied as reals and never formatted. An absent turn start that is `None` rather than 0 cannot arise, because a turn always starts from a word or segment start.
- `lower`, `capitalize` and `strip` are ASCII-level. Unicode case mapping and Unicode whitespace are not modelled.
- The regex engine of `app/nlp_module.py` is a parameter giving the two groups of each match. The five patterns are kept as text only.
- `export_to_mcp_format`, `get_sentiment_analysis`, `export_meeting_data`, `get_container_status` and `get_meetings` are file, database or process I/O. Only their dispatch is modelled.
- Webhook.WebhookManager.SendWebhook: an exception raised while building the parameters, which the source does not catch, is not modelled. Building the parameters cannot fail in the model.

## Findings

| source | as written | input that shows it | evidently intended | confidence | as-written member | corrected member |
|---|---|---|---|---|---|---|
| app/webhook.py:16 | `__init__` stores the `send_action_items` flag under the name of the method `send_action_items`, so the instance attribute hides the method and `manager.send_action_items(...)` calls a boolean | any configuration, then `manager.send_action_items("1", ["Call the client today"])` | the flag under a name of its own, so that the method stays callable and reads the flag | not executed | Webhook.SendActionItemsShadowed | Webhook.WebhookManager.SendActionItems |
| app/mcp_integration.py:39 | `create_task_export` calls `datetime.now()`, but the module never imports `datetime` | `create_task_export(["Send report"], "Weekly")` | one task per item, each stamped with its own clock read | not executed | McpIntegration.CreateTaskExportAsWritten | McpIntegration.CreateTaskExport |
