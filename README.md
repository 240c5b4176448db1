# holo-subs-search: a Dafny model of its core

holo-subs-search keeps an archive of Hololive videos:
- their channels and their Holodex and YouTube information;
- their subtitles, audio and speaker diarizations, stored as content items;
- a search over the transcriptions.

This project models, in Dafny, the parts of it that decide what the program does, and proves the properties those parts promise.

## What is modelled

- **Voice-activity chunker** (`voice_activity.dfy`). It turns diarization segments into transcription chunks in four steps:
  - sort the segments and merge overlapping ones;
  - greedily merge close neighbours, smallest gap first, under a gap limit and a span limit;
  - drop chunks that are too short;
  - pad each chunk up to the midpoint of the gap to its neighbours.

  Each step is a method with the loop of the source, proved against a specification function. The proved properties are sortedness, disjointness, coverage, the gap table kept aligned with the chunks, and the padding bounds.
- **Search index** (`searchable_transcription.dfy`). The index joins line texts into one string, each line owning a span of it; the spans tile the string.
  - A match is mapped back to line indexes by binary search, and the result is exactly the lines the match overlaps.
  - The exact and regular-expression searches are loops proved against greedy specification functions. The regular-expression engine is a parameter.
  - The backward and forward time-delta walks are modelled.
- **Subtitle de-duplication** (`sub_parser.dfy`). This is the queue machine of `parse_srt_file` over an already-parsed subtitle sequence. A line that continues the oldest pending line extends it. The yielded lines are counted exactly.
- **Record store** (`storage.dfy`, `record.dfy`, the mixin modules, the content-item modules, `channel.dfy`, `video.dfy`). The file system is a value, a map from paths to directories and text files (`disk.dfy`). JSON documents are a datatype (`json_value.dfy`).
  - The per-object file cache is a class with two map fields. Storage and records are classes whose methods take the file system and return the new one.
  - The `build_metadata` keyword chain is modelled across the mixins and item classes.
  - The `name:op:value` filter builder is modelled over a static per-class attribute table. That table reproduces what reflection sees.
  - The identity map of `get_record` is modelled.
  - The id, title and date fallbacks are modelled.
  - `from_holodex` is modelled for channels and videos, together with `update_gitignore` and the error-to-flag path of the YouTube fetch.
- **Migrations** (`migration_steps.dfy`, `m_0_1_0.dfy` … `m_0_6_0.dfy`, `video_walk.dfy`).
  - Every step is version-gated.
  - The `Storage.migrate` loop detects cycles.
  - The 0.1.0 step converts records and moves subtitle files into content items.
  - The content-ID sanitiser is modelled.
  - The 0.4.0 and 0.5.0 steps rewrite each item's metadata and diarization through a shared walk over the video table. The walk is proved to give the same result in any listing order.
- **Downloader and tool rules**:
  - file classification and selection for archive.ragtag.moe (`ragtag_tools.dfy`) and streams.rubyruby.net (`rubyruby_tools.dfy`);
  - the yt-dlp parameters, the subtitle rename and preference passes, the HTTP 429 retry counter and the yielded names (`ydl_tools.dfy`);
  - the Whisper model-name table (`whisper_models.dfy`);
  - the pyannote diarization JSON round trip (`pyannote_tools.dfy`).

Python exceptions are `Err` values of `Wrappers.Result`, named by their exception class.

Where the program calls code that is not part of this model, that code is a parameter of the model:
- the JSON codec;
- `get_checksum`;
- `datetime.fromisoformat` and the current time;
- the yt-dlp download;
- the regular-expression matcher;
- the order `os.scandir` lists a directory in.

`__version__` (the current storage version) is the parameter `current`.

Where two generations of the code disagree, the model follows the code as written and proves what that does. A corrected variant appears only where listed under "## Findings". Examples of such disagreements:
- `create(metadata)` is called positionally against a keyword-only signature;
- `item_type` is declared as a `ClassVar`, which makes every content-item filter fail.

`Storage.migrate` runs only its own inline 0.1.0 and 0.2.0 steps (storage/storage.py:54-55). The steps of the migrations package are modelled as written, each on its own. The lemmas about running them in ascending order are stated about those functions, not about a caller.

## Model

| member | source | states |
|---|---|---|
| VoiceActivity.NewChunk | holo_subs_search/transcription/voice_activity.py:29-33 | a chunk is built exactly when start < end, and then holds the given start and end; otherwise ValueError |
| VoiceActivity.ToChunks | holo_subs_search/transcription/voice_activity.py:63 | one chunk per segment, in order, when every segment has start < end; a single segment with start >= end makes the whole list fail |
| VoiceActivity.InsertByStartSpec | holo_subs_search/transcription/voice_activity.py:89 | the insertion step of the sort adds exactly the one chunk and keeps a start-sorted list sorted |
| VoiceActivity.SortByStartSpec | holo_subs_search/transcription/voice_activity.py:89 | sorting by start yields a permutation of the input that is ordered by start |
| VoiceActivity.SortKeepsMembers | holo_subs_search/transcription/voice_activity.py:89 | the sorted list has the same chunks and the same length as the input, ordered by start |
| VoiceActivity.SeparatedOrdered | holo_subs_search/transcription/voice_activity.py:80-103 | in a separated list every earlier chunk ends strictly before every later one starts |
| VoiceActivity.AbsorbRunning | holo_subs_search/transcription/voice_activity.py:90-98 | a chunk starting within the running chunk only extends the running end to the larger end; any other chunk closes the running chunk and starts a new one |
| VoiceActivity.SweepShape | holo_subs_search/transcription/voice_activity.py:84-103 | the sweep over sorted valid chunks gives separated chunks (each start strictly after the previous end), no more than it read, empty exactly for empty input, starting at the first start |
| VoiceActivity.SweepCovers | holo_subs_search/transcription/voice_activity.py:84-103 | the sweep covers exactly the instants its input covers |
| VoiceActivity.MergeOverlapping | holo_subs_search/transcription/voice_activity.py:80-103 | the loop returns the sweep of the sorted input |
| VoiceActivity.MergeOverlappingProperties | holo_subs_search/transcription/voice_activity.py:80-103 | the result is separated, covers exactly the time of the input, and is empty exactly when the input is |
| VoiceActivity.GapTable | holo_subs_search/transcription/voice_activity.py:124-130 | one entry per adjacent pair, entry i holding the gap (next start minus end) and the combined duration (next end minus start) |
| VoiceActivity.UsableGapsMembers | holo_subs_search/transcription/voice_activity.py:132 | the usable entries are exactly those with gap <= max_gap and duration <= max_duration |
| VoiceActivity.MinByGapIsLeast | holo_subs_search/transcription/voice_activity.py:133 | the minimum by gap is an entry of the list and no entry has a smaller gap |
| VoiceActivity.IndexOfFirst | holo_subs_search/transcription/voice_activity.py:134 | `gaps.index` returns the first position holding the entry |
| VoiceActivity.PickGapIsSmallest | holo_subs_search/transcription/voice_activity.py:132-136 | no pair is picked exactly when no entry is usable; a picked pair is usable and has the smallest usable gap |
| VoiceActivity.PickGapIsEarliest | holo_subs_search/transcription/voice_activity.py:132-134 | among usable pairs with the smallest gap the earliest is picked |
| VoiceActivity.MergeAt | holo_subs_search/transcription/voice_activity.py:138-140 | replacing the pair by one chunk shortens the list by exactly one |
| VoiceActivity.GreedyMergeStep | holo_subs_search/transcription/voice_activity.py:131-140 | when a pair is picked it is a valid pair index, and merging goes on from the list with that pair merged |
| VoiceActivity.GreedyMergeStop | holo_subs_search/transcription/voice_activity.py:118-136 | with fewer than two chunks, or no usable pair, the list is returned as it is |
| VoiceActivity.GapTableAfterMerge | holo_subs_search/transcription/voice_activity.py:142-148 | the two in-place edits of the gap table (entry m - 1 recomputed, entries m and m + 1 replaced by one recomputed entry, or dropped at the end) give exactly the gap table of the merged list |
| VoiceActivity.MergeClose | holo_subs_search/transcription/voice_activity.py:106-150 | the in-place loop, keeping the gap table aligned, returns the greedy merge of its input |
| VoiceActivity.GreedyMergeShape | holo_subs_search/transcription/voice_activity.py:106-150 | on separated input the result stays separated, is no longer, keeps the first start and the last end, and no adjacent pair of it is usable any more |
| VoiceActivity.GreedyMergeContains | holo_subs_search/transcription/voice_activity.py:138-140 | every input chunk lies within some output chunk |
| VoiceActivity.GreedyMergeBounded | holo_subs_search/transcription/voice_activity.py:132-140 | every output chunk is an input chunk or spans at most max_duration |
| VoiceActivity.MergeAtMembers | holo_subs_search/transcription/voice_activity.py:132-140 | after one merge of a picked pair every chunk is an old one or spans at most max_duration |
| VoiceActivity.GreedyMergeKeepsLong | holo_subs_search/transcription/voice_activity.py:132 | a chunk longer than max_duration is never merged and appears whole in the output |
| VoiceActivity.DropShort | holo_subs_search/transcription/voice_activity.py:72 | exactly the chunks of duration >= min_duration are kept; separation and the lower bound of the first start are preserved |
| VoiceActivity.PadChunks | holo_subs_search/transcription/voice_activity.py:153-179 | the loop returns the padded list of the specification |
| VoiceActivity.PaddedAtBounds | holo_subs_search/transcription/voice_activity.py:161-177 | on separated chunks from 0 with padding >= 0, padded chunk i is valid, starts at or after 0, contains the original, grows by at most padding on each side and does not pass the midpoint of either neighbouring gap |
| VoiceActivity.PaddingSucceeds | holo_subs_search/transcription/voice_activity.py:153-179 | under the same conditions padding never raises and gives one padded chunk per input chunk |
| VoiceActivity.DiarizationToVoiceActivity | holo_subs_search/transcription/voice_activity.py:41-77 | the method returns the pipeline of the specification |
| VoiceActivity.PipelineIsCleaned | holo_subs_search/transcription/voice_activity.py:59-75 | with max_gap >= padding and valid segments, the conversion runs the four steps with the ceiling max_duration - 2 * padding |
| VoiceActivity.PipelineErrors | holo_subs_search/transcription/voice_activity.py:59-63 | max_gap < padding raises; any segment with start >= end raises; no segments give no chunks |
| VoiceActivity.MergedLayout | holo_subs_search/transcription/voice_activity.py:66-72 | after merging and dropping, the chunks are separated, start at or after 0 and are each at least min_duration long |
| VoiceActivity.CleanedLayout | holo_subs_search/transcription/voice_activity.py:66-75 | after padding, the chunks are valid, start at or after 0, do not overlap, and are each at least min_duration long |
| VoiceActivity.PipelineLayout | holo_subs_search/transcription/voice_activity.py:41-77 | with valid segments from 0, padding >= 0 and max_gap >= padding the conversion succeeds with that layout |
| SearchableTranscription.Flatten | holo_subs_search/transcription/searchable_transcription.py:42 | newlines become spaces: same length, no newline left, every other character kept |
| SearchableTranscription.KeptSpec | holo_subs_search/transcription/searchable_transcription.py:41-44 | the indexed line numbers are exactly the segments whose flattened text is non-empty, in increasing order |
| SearchableTranscription.FromTranscription | holo_subs_search/transcription/searchable_transcription.py:36-57 | the index tiles the joined content without gaps from 0 to its length, lists exactly the kept segments, and each indexed slice of the content is that segment's flattened text, with one joining space before every line but the first |
| SearchableTranscription.TilesOrdered | holo_subs_search/transcription/searchable_transcription.py:29 | the indexed lines are sorted: an earlier line ends no later than a later one starts |
| SearchableTranscription.BisectRightSpec | holo_subs_search/transcription/searchable_transcription.py:63 | bisect_right splits a sorted key list into keys <= x and keys > x |
| SearchableTranscription.BisectLeftSpec | holo_subs_search/transcription/searchable_transcription.py:67 | bisect_left splits a sorted key list into keys < x and keys >= x |
| SearchableTranscription.MatchToLineIndexes | holo_subs_search/transcription/searchable_transcription.py:59-74 | fails with RuntimeError exactly when the index is empty; otherwise returns between one and all of the line numbers |
| SearchableTranscription.MatchWindow | holo_subs_search/transcription/searchable_transcription.py:62-68 | on a tiled index, the window between the two bisections holds exactly the lines that overlap a non-empty match inside the content |
| SearchableTranscription.MatchIsOverlap | holo_subs_search/transcription/searchable_transcription.py:59-74 | on a tiled index, a non-empty match inside the content maps to the line numbers of exactly the lines it overlaps, in order |
| SearchableTranscription.JoiningSpaceBelongsToLaterLine | holo_subs_search/transcription/searchable_transcription.py:46-74 | a match on the space joining two lines reports only the later line |
| SearchableTranscription.Lower | holo_subs_search/transcription/searchable_transcription.py:83-84 | lower-casing keeps the length and leaves no ASCII capital |
| SearchableTranscription.Find | holo_subs_search/transcription/searchable_transcription.py:87 | str.find returns -1 or a position where the value occurs |
| SearchableTranscription.FindIsLeftmost | holo_subs_search/transcription/searchable_transcription.py:87 | str.find returns the leftmost occurrence, and -1 only when there is none |
| SearchableTranscription.ExactSpansShape | holo_subs_search/transcription/searchable_transcription.py:87-98 | every span the exact search visits is an occurrence of the value that starts strictly after the previous span ended, with no occurrence in between |
| SearchableTranscription.ExactSpansStop | holo_subs_search/transcription/searchable_transcription.py:87-89 | the exact search stops either because no occurrence is left or because there is one right at the resume point |
| SearchableTranscription.MatchAtStartIsNeverFound | holo_subs_search/transcription/searchable_transcription.py:87-89 | as written, when the searched text begins with the value the exact search yields nothing at all |
| SearchableTranscription.AdjacentMatchIsDropped | holo_subs_search/transcription/searchable_transcription.py:87-89 | as written, the search for "a" in "xaa" yields only the span (1, 2): the second "a" starts where the first ended and is dropped |
| SearchableTranscription.MatchAllIsOverlap | holo_subs_search/transcription/searchable_transcription.py:97 | mapping in-range non-empty spans over a tiled index never fails and gives each span its overlapping lines |
| SearchableTranscription.SearchExact | holo_subs_search/transcription/searchable_transcription.py:76-98 | an empty value yields nothing; otherwise the results are the line lists of the visited spans of the (case-folded) value, in order, and the first failing span ends the search with its error |
| SearchableTranscription.SearchExactSucceeds | holo_subs_search/transcription/searchable_transcription.py:76-98 | on an index built from a transcription the exact search never fails, and each result lists the lines overlapping one occurrence |
| SearchableTranscription.FixedSpansGreedy | holo_subs_search/transcription/searchable_transcription.py:87-98 | with the loop test corrected to idx >= 0 the search is the complete leftmost scan: each span is the first occurrence at or after the previous end and none is left after the last |
| SearchableTranscription.FixedFindsMatchAtStart | holo_subs_search/transcription/searchable_transcription.py:87-89 | with the corrected loop test a value that begins the text is the first result |
| SearchableTranscription.FixedFindsAdjacentMatch | holo_subs_search/transcription/searchable_transcription.py:87-89 | with the corrected loop test the search for "a" in "xaa" yields both spans (1, 2) and (2, 3) |
| SearchableTranscription.SearchExactFixed | holo_subs_search/transcription/searchable_transcription.py:76-98 | the corrected exact search yields the line lists of the complete leftmost scan, in order |
| SearchableTranscription.SearchExactFixedSucceeds | holo_subs_search/transcription/searchable_transcription.py:76-98 | the corrected exact search never fails on a built index and yields one overlap list per occurrence of the scan |
| SearchableTranscription.RegexSpansShape | holo_subs_search/transcription/searchable_transcription.py:107-115 | every regex span lies in the content, starts no earlier than the resume point and ends after it |
| SearchableTranscription.SearchRegex | holo_subs_search/transcription/searchable_transcription.py:100-115 | an empty pattern yields nothing; otherwise the results are the line lists of the matcher's successive spans, stopping at a miss or a match ending at the resume point |
| SearchableTranscription.SearchRegexSucceeds | holo_subs_search/transcription/searchable_transcription.py:100-115 | on a built index the regex search never fails, and each non-empty match maps to its overlapping lines |
| SearchableTranscription.Search | holo_subs_search/transcription/searchable_transcription.py:117-123 | dispatches to the regex or the exact search according to the flag, with the same results |
| SearchableTranscription.PyGet | holo_subs_search/transcription/searchable_transcription.py:133 | Python list indexing: succeeds exactly for indexes in [-len, len), otherwise IndexError |
| SearchableTranscription.IndexToPastIndex | holo_subs_search/transcription/searchable_transcription.py:125-140 | negative delta is ValueError; a bad index is IndexError; otherwise the result is the earliest index such that every line from it to the anchor starts no earlier than anchor start minus delta, and the line before it starts earlier |
| SearchableTranscription.IndexToFutureIndex | holo_subs_search/transcription/searchable_transcription.py:142-157 | as written: fails with IndexError exactly when every later line lies within the delta (always at the last line); otherwise returns the last index whose line starts within the delta, the next one starting after it |
| SearchableTranscription.IndexToFutureIndexGuarded | holo_subs_search/transcription/searchable_transcription.py:142-157 | with the loop bound corrected to the last index, it never fails on a valid index and returns the last index reachable within the delta, either the final line or one followed by a line starting later |
| SubParser.SplitLinesSpec | holo_subs_search/sub_parser.py:36 | the pieces of a subtitle's text contain no line break, and concatenated they give the text minus its breaks |
| SubParser.RemoveMarker | holo_subs_search/sub_parser.py:37 | the result is `line.replace("[\\h__\\h]", "")`: every occurrence of the marker, left to right and without overlap, is removed, by the independent `Text.Replace`; it is never longer than the line |
| SubParser.CollapseSpec | holo_subs_search/sub_parser.py:38-39 | collapsing whitespace yields clean text (words joined by single spaces), and yields nothing exactly when the line is all whitespace |
| SubParser.KeptLinesClean | holo_subs_search/sub_parser.py:36-40 | every raw line kept from a subtitle is non-empty clean text |
| SubParser.Words | holo_subs_search/sub_parser.py:38 | `str.split()` read character by character: there is a first word when the text starts with a non-space, and no word is empty |
| SubParser.WordsHaveNoSpace | holo_subs_search/sub_parser.py:38 | no word of `str.split()` holds a whitespace character |
| SubParser.WordsKeepText | holo_subs_search/sub_parser.py:38 | the words, concatenated in order, are exactly the non-whitespace characters of the line, so no character is dropped, added or reordered |
| SubParser.CollapseIsJoin | holo_subs_search/sub_parser.py:38 | collapsing a line is `" ".join(line.split())`: its words in order, separated by single spaces; it is empty exactly when there are no words |
| SubParser.KeptLinesWords | holo_subs_search/sub_parser.py:36-40 | the kept lines of a subtitle are, in order, `" ".join(line.replace(marker, "").split())` of each of its lines that has a word, and nothing for the others |
| SubParser.CleanSubtitle | holo_subs_search/sub_parser.py:34-40 | the cleaning loop computes exactly the kept raw lines, each clean |
| SubParser.FlushSpec | holo_subs_search/sub_parser.py:47-57 | the first loop pops exactly the longest prefix of pending lines that the first raw line does not continue; the line left at the front, if any, is continued |
| SubParser.NewLines | holo_subs_search/sub_parser.py:74 | each left-over raw line becomes a pending line with the subtitle's start and end |
| SubParser.AbsorbOnce | holo_subs_search/sub_parser.py:61-70 | when a subtitle's start and end differ, the merging loop absorbs exactly one raw line into a continued head |
| SubParser.ContinuationExtendsHead | holo_subs_search/sub_parser.py:45-74 | a subtitle continuing the head line extends the head's end instead of repeating it: nothing is popped, one raw line is merged and the rest are appended |
| SubParser.EmptySubtitleIsSkipped | holo_subs_search/sub_parser.py:42-43 | a subtitle whose text cleans to nothing changes neither the output nor the pending lines |
| SubParser.EmptySubtitleAnywhere | holo_subs_search/sub_parser.py:42-43 | inserting a subtitle that cleans to nothing anywhere in the input leaves the parsed lines unchanged |
| SubParser.StepCount | holo_subs_search/sub_parser.py:45-74 | in one subtitle every raw line is either appended as a line or merged, and the output only grows at its end |
| SubParser.ParseCount | holo_subs_search/sub_parser.py:30-77 | the number of lines yielded equals the number of raw lines less the number merged into an earlier line |
| SubParser.ParseClean | holo_subs_search/sub_parser.py:20-77 | every yielded line is non-empty text whose only whitespace is single spaces between words |
| SubParser.PopUntilContinued | holo_subs_search/sub_parser.py:47-57 | the popping loop removes the longest non-continued prefix of the queue and returns it in order |
| SubParser.ExtendHead | holo_subs_search/sub_parser.py:61-70 | the merging loop drops the raw lines absorbed into the head and sets the head's end to the subtitle's end |
| SubParser.Merge | holo_subs_search/sub_parser.py:45-74 | one pass of the subtitle loop pops, merges and appends exactly as the fold step specifies |
| SubParser.ParseSubtitles | holo_subs_search/sub_parser.py:30-77 | the whole loop yields exactly the lines of the fold over the subtitles, including the pending lines flushed at the end |
| WhisperModels.ModelFor | holo_subs_search/transcription/whisper_models.py:28-60 | a model is chosen exactly for tiny, base, small, medium and large, and is always a Systran/faster-whisper name; any other size is ValueError |
| WhisperModels.EnglishVariant | holo_subs_search/transcription/whisper_models.py:33-51 | English audio on tiny, base, small or medium selects the ".en" model of that size; any other language, or none, selects the multilingual one |
| WhisperModels.LargeIgnoresLanguage | holo_subs_search/transcription/whisper_models.py:53-58 | "large" selects large-v3 whatever the language |
| WhisperModels.NamesDistinguishSize | holo_subs_search/transcription/whisper_models.py:32-58 | equal model names mean equal sizes, and for sizes with an English variant also the same English-or-not choice |
| PyannoteTools.SegmentToJson | holo_subs_search/pyannote_tools.py:25-26 | a segment serialises to a dict with exactly the keys start, end and speaker |
| PyannoteTools.SegmentFromJson | holo_subs_search/pyannote_tools.py:21-23 | reading succeeds exactly on a dict holding start, end and speaker, taking those values; otherwise KeyError for a missing one |
| PyannoteTools.SegmentsFromJson | holo_subs_search/pyannote_tools.py:40 | the list comprehension succeeds exactly when every item reads, giving the items' segments in order |
| PyannoteTools.DiarizationItems | holo_subs_search/pyannote_tools.py:40 | iterating the diarization value: a list reads its items; other iterables give nothing or fail |
| PyannoteTools.ResponseToJson | holo_subs_search/pyannote_tools.py:45-51 | a response serialises to a dict with exactly the four keys, the diarization being the list of its serialised segments |
| PyannoteTools.ResponseFromJson | holo_subs_search/pyannote_tools.py:36-43 | reading succeeds exactly on a dict holding the four keys whose diarization reads, with those values; a missing one of the first two keys is KeyError |
| PyannoteTools.SegmentRoundTrip | holo_subs_search/pyannote_tools.py:21-26 | from_json(to_json(s)) gives back the segment |
| PyannoteTools.SegmentsRoundTrip | holo_subs_search/pyannote_tools.py:40-48 | a list of segments survives the round trip |
| PyannoteTools.ResponseRoundTrip | holo_subs_search/pyannote_tools.py:36-51 | from_json(to_json(r)) gives back the response |
| PyannoteTools.ExtraKeysIgnored | holo_subs_search/pyannote_tools.py:36-43 | keys other than the four do not change what from_json reads |
| PyannoteTools.RequestParams | holo_subs_search/pyannote_tools.py:66-71 | the request parameters hold the two model names and the token exactly when one is given |
| RagtagTools.Classify | holo_subs_search/ragtag_tools.py:54-70 | the file type is the first rule of the chain that matches, never "ragtag"; with no match it is "unsupported" when allowed, and ValueError exactly when none matches and unsupported files are not allowed |
| RagtagTools.AsStr | holo_subs_search/ragtag_tools.py:47-48 | string operations succeed exactly on JSON strings; on anything else they raise AttributeError |
| RagtagTools.ReadHeader | holo_subs_search/ragtag_tools.py:42-51 | the hit reads exactly when it is an object with `_id` and a `_source` object holding `drive_base`, a string `format_id` with exactly one "+" and an iterable `files`; the header is then the id and drive base as the f-strings render them, the two format ids on either side of the "+", and the entries `files` iterates over (none for an empty dict or string) |
| RagtagTools.FormatNeedsOnePlus | holo_subs_search/ragtag_tools.py:48 | unpacking the split into two ids succeeds exactly when the format id holds one "+" |
| RagtagTools.FileEntry | holo_subs_search/ragtag_tools.py:52-78 | each file entry carries its listed name, the classified type, the listed size if any, the content-host URL built from drive base, id and name, and no local path |
| RagtagTools.Entries | holo_subs_search/ragtag_tools.py:51-79 | the file list reads exactly when every entry reads, giving one file per entry in order, each the entry read with the hit's header |
| RagtagTools.FromHit | holo_subs_search/ragtag_tools.py:41-81 | from_hit succeeds exactly when the header reads and every entry classifies, giving one file per entry in order; a header error is passed on; the result is that of `HitFiles` |
| RagtagTools.ReadEntries | holo_subs_search/ragtag_tools.py:51-79 | the loop over the file list succeeds exactly when every entry reads, and then returns the files of `Entries`, in order |
| RagtagTools.PickHit | holo_subs_search/ragtag_tools.py:116-127 | the first hit is used; no hits is RagtagNotFound; a first hit that is not a dict is AttributeError; a hit from another index or with another id is rejected |
| RagtagTools.OfType | holo_subs_search/ragtag_tools.py:134-143 | filtering by type keeps exactly the files of that type |
| RagtagTools.SelectSpec | holo_subs_search/ragtag_tools.py:134-143 | selected are the info files, audio-only files when audio is wanted, whole videos when audio is wanted and no audio-only file exists, chat files when chat is wanted, and nothing else |
| RagtagTools.DownloadAll | holo_subs_search/ragtag_tools.py:159-171 | every file without a path is fetched from its URL into the download directory and gets that path; files with a path are kept; the URLs fetched are those of the pathless files, in order |
| RagtagTools.FetchSelection | holo_subs_search/ragtag_tools.py:150-176 | the hit file is appended already on disk; every selected file gets its path in the download directory, in order, and only the selected files' URLs are fetched |
| RagtagTools.DownloadVideo | holo_subs_search/ragtag_tools.py:85-176 | a failed hit lookup is passed on with nothing fetched; the download succeeds exactly when the hit is found and all its files read; it then yields the files selected from them, in order, each with its local path, then the hit's own ragtag.json, and fetches exactly the selected files' URLs |
| RubyRubyTools.AfterFirstDot | holo_subs_search/rubyruby_tools.py:51 | the part of a name after its first dot, or the whole name when it has none |
| RubyRubyTools.Classify | holo_subs_search/rubyruby_tools.py:48-78 | the file type is the first rule of the chain that matches, never "rubyruby"; with no match it is "unsupported" when allowed, and ValueError exactly when none matches and unsupported files are not allowed |
| RubyRubyTools.AsStr | holo_subs_search/rubyruby_tools.py:45-46 | string operations succeed exactly on JSON strings; on anything else they raise AttributeError |
| RubyRubyTools.FromData | holo_subs_search/rubyruby_tools.py:44-85 | a file is read exactly when the entry holds a string name, a file object with a string MIME type, a size and a download URL, and `Classify` accepts that name and MIME type; it then carries that classification, the name, size and URL, and no path; a missing name is KeyError("name") |
| RubyRubyTools.AllFiles | holo_subs_search/rubyruby_tools.py:113 | the listing succeeds exactly when every entry reads, giving one file per entry in order |
| RubyRubyTools.CheckStatus | holo_subs_search/rubyruby_tools.py:103-108 | a status below 400 passes; 404 is RubyRubyNotFound; any other status from 400 up is RubyRubyError |
| RubyRubyTools.OfType | holo_subs_search/rubyruby_tools.py:116-125 | filtering by type keeps exactly the files of that type |
| RubyRubyTools.SelectSpec | holo_subs_search/rubyruby_tools.py:116-125 | selected are the info files, audio-only files when audio is wanted, videos when audio is wanted and no audio-only file exists, chat files when chat is wanted, and nothing else |
| RubyRubyTools.DownloadAll | holo_subs_search/rubyruby_tools.py:142-169 | every file without a path is fetched into the download directory and gets that path; files with a path are kept; the URLs fetched are those of the pathless files, in order |
| RubyRubyTools.FetchSelection | holo_subs_search/rubyruby_tools.py:131-174 | the listing file is appended already on disk; every selected file gets its path in the download directory, in order, and only the selected files' URLs are fetched |
| RubyRubyTools.DownloadVideo | holo_subs_search/rubyruby_tools.py:88-174 | an error status is passed on with nothing fetched; the download succeeds exactly when the status is below 400 and every listed entry reads; it then yields the files selected from them, in order, each with its local path, then the listing's own rubyruby.json, and fetches exactly the selected files' URLs |
| YdlTools.Pow2 | holo_subs_search/ydl_tools.py:128-129 | 2 ** n is positive, and at least 1 for a count of rate limits n >= 0 |
| YdlTools.LangPatterns | holo_subs_search/ydl_tools.py:102 | one requested language per wanted one, in order: "<lang>.*" for automatic subtitles, the language itself otherwise |
| YdlTools.BaseParams | holo_subs_search/ydl_tools.py:78-95 | the base options are exactly skip_download, cookiesfrombrowser, writeinfojson, clean_infojson, paths and outtmpl: info.json is written and cleaned into the download path, nothing else is downloaded, and the browser's cookies are passed only when given |
| YdlTools.WithSubtitles | holo_subs_search/ydl_tools.py:98-110 | with wanted languages the subtitle options are added (subtitles on, automatic as asked, the language patterns) and all other options kept; with none the options are unchanged |
| YdlTools.WithAudio | holo_subs_search/ydl_tools.py:113-119 | when audio is wanted the media is downloaded in the audio format and other options kept; otherwise nothing changes |
| YdlTools.WithSleep | holo_subs_search/ydl_tools.py:122-130 | with cookies or after a rate limit the subtitle sleep interval is set to 2 ** count, other options kept; otherwise no interval is set |
| YdlTools.GetVideoParams | holo_subs_search/ydl_tools.py:69-132 | the options hold exactly the base keys plus the subtitle, audio and sleep keys whose conditions hold |
| YdlTools.GetVideoParamsInfo | holo_subs_search/ydl_tools.py:78-95 | every call writes the cleaned info.json into the download path and passes the browser's cookies when given |
| YdlTools.GetVideoParamsAudio | holo_subs_search/ydl_tools.py:113-119 | the media is downloaded exactly when audio is wanted, and then in the audio format |
| YdlTools.GetVideoParamsSubtitles | holo_subs_search/ydl_tools.py:98-110 | wanted subtitles are requested by language, as "<lang>.*" patterns when automatic |
| YdlTools.GetVideoParamsSleep | holo_subs_search/ydl_tools.py:122-130 | whenever a subtitle sleep interval is set it is 2 ** rate_limit_count seconds |
| YdlTools.Automatic | holo_subs_search/ydl_tools.py:218-222 | an automatic subtitle's "-orig" suffix marks a transcription and is stripped; any other language is a translation; never proper |
| YdlTools.Parse | holo_subs_search/ydl_tools.py:182 | a file counts as a fresh subtitle exactly when its name ends in ".srt" and has two dots |
| YdlTools.ParseName | holo_subs_search/ydl_tools.py:182-184 | reading a name and writing it back gives the same name |
| YdlTools.NamedSplit | holo_subs_search/ydl_tools.py:187 | a renamed subtitle's name splits back into id, type, language and extension |
| YdlTools.NamedIsNotFresh | holo_subs_search/ydl_tools.py:182 | a renamed subtitle has three dots, so a later pass never takes it for a fresh one |
| YdlTools.NamedInjective | holo_subs_search/ydl_tools.py:223 | different renamed subtitles get different names |
| YdlTools.ProperStep | holo_subs_search/ydl_tools.py:183-190 | one fresh subtitle in the first pass is renamed to its proper name and becomes the kept subtitle of its language |
| YdlTools.ProperPass | holo_subs_search/ydl_tools.py:180-190 | after the first pass every fresh language is kept as proper, others are unchanged, every fresh file is renamed away, and what is kept is on disk |
| YdlTools.AutomaticStep | holo_subs_search/ydl_tools.py:215-236 | one fresh automatic subtitle: a kept proper or transcription wins and the newcomer is deleted; a kept translation is deleted and replaced; the kept quality per language never drops |
| YdlTools.AutomaticPass | holo_subs_search/ydl_tools.py:212-236 | after the second pass each language keeps the best of what it had and what came in (proper over transcription over translation), no fresh file is left, and what is kept is on disk |
| YdlTools.Missing | holo_subs_search/ydl_tools.py:162-194 | the missing languages are exactly those wanted and not kept |
| YdlTools.CallError | holo_subs_search/ydl_tools.py:174-176 | a failing call ends with DownloadError exactly when yt-dlp raised one; a non-zero exit code is a plain error |
| YdlTools.Attempt | holo_subs_search/ydl_tools.py:159-236 | one attempt makes one or two calls: first for the missing languages without automatic subtitles, then, only if some are still missing, for those with automatic ones; kept quality never drops, and on success no fresh file is left |
| YdlTools.DownloadAll | holo_subs_search/ydl_tools.py:153-247 | a rate-limited attempt is retried after sleeping 2, 4, 8, ... seconds, at most five times; other errors are raised; a rate limit after the fifth retry is raised too; on success the kept subtitles are on disk |
| YdlTools.SplitName | holo_subs_search/ydl_tools.py:255 | a name with a dot splits into the id before the first dot and the rest after it; a name without one is ValueError |
| YdlTools.YieldedNamed | holo_subs_search/ydl_tools.py:255 | a renamed subtitle is yielded as "<type>.<lang>.<ext>" |
| YdlTools.YieldAll | holo_subs_search/ydl_tools.py:251-256 | every file is yielded in order as its name after the id and its path; a name without a dot is ValueError |
| YdlTools.YieldFiles | holo_subs_search/ydl_tools.py:251-256 | the files of the directory are yielded in listing order, each under its name after the id, with its path |
| YdlTools.DownloadVideo | holo_subs_search/ydl_tools.py:135-256 | on success no fresh subtitle is left and every file of the directory is yielded once under its name after the id; sleeps follow the doubling schedule and a rate limit past the last retry is raised |
| FilterableMixin.Operators | holo_subs_search/storage/mixins/filterable_mixin.py:16-25 | string annotations support eq and ne, string-collection annotations support includes and excludes, any other annotation none |
| FilterableMixin.OperatorsAreKnown | holo_subs_search/storage/mixins/filterable_mixin.py:16-25 | no annotation yields an operator outside the four |
| FilterableMixin.BuildClause | holo_subs_search/storage/mixins/filterable_mixin.py:27-41 | a clause is built exactly when the attribute supports the operator, holding the attribute, operator and raw value; otherwise ValueError |
| FilterableMixin.Contains | holo_subs_search/storage/mixins/filterable_mixin.py:37-39 | membership of the string value in a list or set attribute |
| FilterableMixin.EvalAllIsConjunction | holo_subs_search/storage/mixins/filterable_mixin.py:112 | the built filter accepts an object exactly when every clause does, and with no clause accepts everything |
| FilterableMixin.ComplementaryOperators | holo_subs_search/storage/mixins/filterable_mixin.py:32-39 | ne is the negation of eq, and excludes of includes, whenever the attribute can be read |
| FilterableMixin.BuildFilterSpecProperties | holo_subs_search/storage/mixins/filterable_mixin.py:103-112 | build_filter succeeds exactly when every part names a filterable attribute supporting its operator, then builds one clause per part in order; otherwise ValueError |
| FilterableMixin.BuildFilterPrefixFails | holo_subs_search/storage/mixins/filterable_mixin.py:107-110 | the first unusable part decides the error, whatever follows it |
| FilterableMixin.BuildFilter | holo_subs_search/storage/mixins/filterable_mixin.py:103-112 | the loop over the parts computes exactly the specified clause list or error |
| FilterableMixin.ColonAt | holo_subs_search/storage/mixins/filterable_mixin.py:97 | the split position is within the string and is a colon unless it is the length |
| FilterableMixin.ColonAtFirst | holo_subs_search/storage/mixins/filterable_mixin.py:97 | no colon comes before the split position, so it is the first colon, or the length when there is none |
| FilterableMixin.SplitPart | holo_subs_search/storage/mixins/filterable_mixin.py:97 | splitting a clause fails only with ValueError |
| FilterableMixin.SplitPartRejoins | holo_subs_search/storage/mixins/filterable_mixin.py:97 | the three pieces joined by colons give back the clause, and name and operator hold no colon |
| FilterableMixin.SplitPartJoin | holo_subs_search/storage/mixins/filterable_mixin.py:97 | splitting undoes joining, even when the value itself contains colons |
| FilterableMixin.SplitPartNeedsTwoColons | holo_subs_search/storage/mixins/filterable_mixin.py:97 | a clause with fewer than two colons cannot be unpacked |
| FilterableMixin.SplitPartsSpec | holo_subs_search/storage/mixins/filterable_mixin.py:95-98 | the split loop succeeds exactly when every clause splits, giving the parts in order |
| FilterableMixin.BuildStrFilter | holo_subs_search/storage/mixins/filterable_mixin.py:91-100 | a clause that cannot be split fails the call; otherwise the result is build_filter on the split parts |
| FilterableMixin.SplitPrefixFails | holo_subs_search/storage/mixins/filterable_mixin.py:96-97 | a failing clause fails the call whatever follows it |
| FilterableMixin.DeclareSnoc | holo_subs_search/storage/mixins/filterable_mixin.py:70-84 | one more public declaration overwrites the entry of its name; a private one changes nothing |
| FilterableMixin.MergeOneBase | holo_subs_search/storage/mixins/filterable_mixin.py:64-66 | a single filterable base contributes its own table |
| FilterableMixin.KeepFilterable | holo_subs_search/storage/mixins/filterable_mixin.py:88 | the result keeps exactly the attributes that support some operator, unchanged |
| FilterableMixin.KeepFilterableAll | holo_subs_search/storage/mixins/filterable_mixin.py:88 | a table of filterable attributes is kept whole, so asking a base again changes nothing |
| FilterableMixin.DeclareKeyed | holo_subs_search/storage/mixins/filterable_mixin.py:70-84 | every entry of the table is keyed by its own name |
| FilterableMixin.MergeBasesKeyed | holo_subs_search/storage/mixins/filterable_mixin.py:64-66 | merging base tables keeps every entry keyed by its own name |
| FilterableMixin.DeclareLastWins | holo_subs_search/storage/mixins/filterable_mixin.py:70-84 | the last public declaration of a name decides its annotation; without one the inherited entry stays |
| FilterableMixin.GetFilterableAttributes | holo_subs_search/storage/mixins/filterable_mixin.py:59-88 | the discovery loops compute the table of the specification: bases merged in order, then annotations, then annotated properties, keeping the filterable ones |
| FilesMixin.Files.constructor | holo_subs_search/storage/mixins/files_mixin.py:19-21 | a new object starts with an empty cache |
| FilesMixin.Files.LoadText | holo_subs_search/storage/mixins/files_mixin.py:28-38 | returns the cached or freshly read text and updates the text entry accordingly; JSON entries are untouched |
| FilesMixin.Files.LoadJson | holo_subs_search/storage/mixins/files_mixin.py:40-50 | returns the cached or freshly parsed value and updates both entries as a fresh text read and a parse do |
| FilesMixin.Files.SaveText | holo_subs_search/storage/mixins/files_mixin.py:52-67 | writes or removes the file as specified and leaves the text entry as the save specifies; JSON entries are untouched |
| FilesMixin.Files.SaveJson | holo_subs_search/storage/mixins/files_mixin.py:69-81 | saves the json_dumps text (None removes the file) and caches the value itself |
| FilesMixin.TextRead | holo_subs_search/storage/mixins/files_mixin.py:28-38 | a cached read returns the cached text; otherwise the text is returned exactly when the path is a file, and then is its content |
| FilesMixin.TextCacheAfterRead | holo_subs_search/storage/mixins/files_mixin.py:31-36 | after a read the entry for the name is present exactly when text was returned, holding it; other entries are unchanged |
| FilesMixin.JsonRead | holo_subs_search/storage/mixins/files_mixin.py:40-50 | a cached read returns the cached value; otherwise a missing file gives None and a file gives its parsed text, ValueError when it is not JSON |
| FilesMixin.JsonCacheAfterRead | holo_subs_search/storage/mixins/files_mixin.py:43-48 | after a JSON read the entry for the name is present exactly when a value was read, holding it; other entries are unchanged |
| FilesMixin.JsonLoadCaches | holo_subs_search/storage/mixins/files_mixin.py:43-48 | a cache hit changes nothing; otherwise the text entry is refreshed by a non-cached text read and the JSON entry follows the value read |
| FilesMixin.JsonSaveCaches | holo_subs_search/storage/mixins/files_mixin.py:69-81 | after a JSON save the text entry holds the dumped text and the JSON entry the value, each only when the save succeeded and the value was not None |
| FilesMixin.JsonText | holo_subs_search/storage/mixins/files_mixin.py:73-76 | None is passed on as None, and any other value as its json_dumps text |
| FilesMixin.TextCacheAfterSave | holo_subs_search/storage/mixins/files_mixin.py:53-67 | the text entry is dropped, and holds the saved string exactly when the write succeeded; other entries unchanged |
| FilesMixin.JsonCacheAfterSave | holo_subs_search/storage/mixins/files_mixin.py:70-81 | the JSON entry holds the saved value exactly when it was not None and the save succeeded; other entries unchanged |
| FilesMixin.SaveTextWrites | holo_subs_search/storage/mixins/files_mixin.py:56-64 | a successful save leaves the saved text at the path, or no file when None was saved; only None or a string can be saved; every other path keeps its node |
| FilesMixin.TextReadCoherent | holo_subs_search/storage/mixins/files_mixin.py:28-38 | while the cache agrees with the files, a cached read gives what a fresh read gives and the cache keeps agreeing |
| FilesMixin.JsonReadCoherent | holo_subs_search/storage/mixins/files_mixin.py:40-50 | reading JSON keeps the cached values agreeing with the files' parsed text |
| FilesMixin.ReadAfterSaveText | holo_subs_search/storage/mixins/files_mixin.py:28-67 | after a successful save, a read returns the saved text (None after saving None), with or without the cache |
| FilesMixin.ReadAfterSaveJson | holo_subs_search/storage/mixins/files_mixin.py:40-81 | after a successful JSON save a cached load returns the value saved itself, and None after saving None |
| FilesMixin.SaveTextCoherent | holo_subs_search/storage/mixins/files_mixin.py:52-67 | saving text keeps the text cache agreeing with the files |
| FilesMixin.SaveJsonCoherent | holo_subs_search/storage/mixins/files_mixin.py:69-81 | saving JSON keeps the cached values agreeing with the files |
| FilesMixin.SaveTextKeepsStaleJson | holo_subs_search/storage/mixins/files_mixin.py:52-67 | saving text leaves a cached JSON value of the same name in place: a cached load still returns it, although a fresh load parses the new text |
| FilesMixin.LoadAgain | holo_subs_search/storage/mixins/files_mixin.py:40-50 | a second cached load returns what the first returned and leaves both caches as the first left them |
| FilesMixin.LoadKeepsReads | holo_subs_search/storage/mixins/files_mixin.py:40-50 | a cached load of one name leaves what a cached load of any name returns unchanged |
| MetadataMixin.Proxy | holo_subs_search/storage/mixins/metadata_mixin.py:21 | a missing document and a document holding `null` both give None, a mapping gives its fields, load errors pass through, and exactly the other documents are TypeError |
| MetadataMixin.NullDocumentIsNone | holo_subs_search/storage/mixins/files_mixin.py:41-50 | a JSON file holding `null` reads as None through the getters, both when first loaded and from the cache that keeps the loaded None |
| MetadataMixin.GetMetadata | holo_subs_search/storage/mixins/metadata_mixin.py:18-21 | the getter returns the cached load of metadata.json viewed as a mapping, and updates the caches as that load does |
| MetadataMixin.SetMetadata | holo_subs_search/storage/mixins/metadata_mixin.py:23-25 | the setter saves metadata.json as a JSON save does, with the same file and cache effects |
| MetadataMixin.Subscript | holo_subs_search/storage/mixins/metadata_mixin.py:19-21 | indexing the metadata succeeds exactly when it exists and holds the key; no metadata is TypeError, a missing key KeyError |
| MetadataMixin.GetKey | holo_subs_search/storage/mixins/metadata_mixin.py:19-21 | get on the metadata gives the value or None for a missing key; no metadata is AttributeError |
| MetadataMixin.BuildMetadata | holo_subs_search/storage/mixins/metadata_mixin.py:27-31 | succeeds, with the empty dict, exactly when no keyword is left over; otherwise ValueError |
| MetadataMixin.SetThenGet | holo_subs_search/storage/mixins/metadata_mixin.py:18-25 | after setting a mapping successfully, the getter returns that mapping |
| FlagsMixin.FromYtDlpError | holo_subs_search/storage/mixins/flags_mixin.py:38-52 | only a DownloadError is classified; membership is checked first, then privacy, then unavailability, then age confirmation, and the first message that matches decides; otherwise None |
| FlagsMixin.FlagsOf | holo_subs_search/storage/mixins/flags_mixin.py:56-58 | the flags are the set of the metadata's "flags" value, empty without the key; no metadata is AttributeError; load errors pass through |
| FlagsMixin.GetFlags | holo_subs_search/storage/mixins/flags_mixin.py:56-58 | the getter returns the flags of the cached metadata and updates the caches as the metadata load does |
| FlagsMixin.StrList | holo_subs_search/storage/mixins/flags_mixin.py:62 | a list of the given strings, in order |
| FlagsMixin.WithFlags | holo_subs_search/storage/mixins/flags_mixin.py:62 | the metadata written keeps every other key and sets "flags" to the list of the new flags |
| FlagsMixin.SetFlags | holo_subs_search/storage/mixins/flags_mixin.py:60-62 | the setter reads the metadata, replaces only its "flags" by the set listed once per element, and saves the result; no metadata is TypeError |
| FlagsMixin.BuildMetadata | holo_subs_search/storage/mixins/flags_mixin.py:64-66 | succeeds exactly when flags is the only keyword left and is a usable collection, giving {"flags": set(flags)} (the empty set when not given); any other keyword is ValueError |
| FlagsMixin.FlagsRoundTrip | holo_subs_search/storage/mixins/flags_mixin.py:56-62 | the flags written by the setter read back as the same set |
| HolodexMixin.GetHolodexInfo | holo_subs_search/storage/mixins/holodex_mixin.py:23-26 | the getter returns the cached load of holodex.json viewed as a mapping, updating the caches as that load does |
| HolodexMixin.SetHolodexInfo | holo_subs_search/storage/mixins/holodex_mixin.py:28-34 | the setter saves holodex.json as a JSON save does; None deletes the file |
| HolodexMixin.GetYoutubeInfo | holo_subs_search/storage/mixins/youtube_mixin.py:18-21 | the getter returns the cached load of youtube.json viewed as a mapping, updating the caches as that load does |
| HolodexMixin.HolodexId | holo_subs_search/storage/mixins/holodex_mixin.py:36-42 | the Holodex info's id when that info is non-empty, else the YouTube info's id when that one is non-empty, else None; the YouTube info is read only when needed |
| HolodexMixin.YoutubeId | holo_subs_search/storage/mixins/holodex_mixin.py:49-55 | the YouTube info's id when that info is non-empty, else the Holodex info's id when that one is non-empty, else None |
| HolodexMixin.FallbackNeedsEmptyInfo | holo_subs_search/storage/mixins/holodex_mixin.py:36-42 | a non-empty Holodex info without an id gives no Holodex id, whatever the YouTube info holds |
| HolodexMixin.IdsFromOneInfo | holo_subs_search/storage/mixins/holodex_mixin.py:36-55 | when only one info is non-empty both ids come from it; when both are, each id comes from its own info; when neither is, both are None |
| ContentMixin.ContentPath | holo_subs_search/storage/mixins/content_mixin.py:18-20 | the content directory is the single child "content" of the files path |
| ContentMixin.FirstMatch | holo_subs_search/storage/mixins/content_mixin.py:63-64 | the first item class whose item_type equals the stored one, or none when no class does |
| ContentMixin.GetContent | holo_subs_search/storage/mixins/content_mixin.py:51-67 | no item directory or no metadata gives None; metadata errors pass through; metadata without item_type is KeyError; an unknown type is ValueError; otherwise the item of the first class with that type at that path |
| ContentMixin.CreatedItemFound | holo_subs_search/storage/mixins/content_mixin.py:51-67 | an item created with a known item_type is found again by get_content, with that type and path |
| ContentMixin.ItemTypeRead | holo_subs_search/storage/mixins/content_mixin.py:63-65 | every item found answers item_type with its class's type |
| ContentMixin.Accepts | holo_subs_search/storage/mixins/content_mixin.py:48 | no filter accepts every item |
| ContentMixin.ListContent | holo_subs_search/storage/mixins/content_mixin.py:40-49 | a missing content directory yields nothing; a content path that is not a directory is OSError |
| ContentMixin.ListedAreSelected | holo_subs_search/storage/mixins/content_mixin.py:44-49 | every yielded item is an existing item of a directory entry that passes the filter |
| ContentMixin.SelectedAreListed | holo_subs_search/storage/mixins/content_mixin.py:44-49 | when the listing completes, every existing item of a directory entry that passes the filter is yielded |
| ContentMixin.CollectOk | holo_subs_search/storage/mixins/content_mixin.py:22-36 | building the frozenset completes exactly when every item's attribute reads and is hashable |
| ContentMixin.CollectIsImage | holo_subs_search/storage/mixins/content_mixin.py:22-36 | a completed frozenset holds exactly the listed items' attribute values |
| ContentMixin.Sources | holo_subs_search/storage/mixins/content_mixin.py:22-36 | a failing build_filter call is raised before anything is listed |
| ContentMixin.AudioTableLacksType | holo_subs_search/storage/mixins/content_mixin.py:24 | as written, the audio item's filterable attributes have no item_type |
| ContentMixin.DiarizationTableLacksType | holo_subs_search/storage/mixins/content_mixin.py:28 | as written, the diarization item's filterable attributes have no item_type |
| ContentMixin.SubtitleTableLacksType | holo_subs_search/storage/mixins/content_mixin.py:32-36 | as written, the subtitle item's filterable attributes have no item_type |
| ContentMixin.AsWrittenSourcesRaise | holo_subs_search/storage/mixins/content_mixin.py:22-36 | as written, audio_sources, diarization_sources, subtitle_sources and subtitle_langs raise ValueError whatever is stored |
| ContentMixin.TypeFilterSelects | holo_subs_search/storage/mixins/content_mixin.py:24-36 | with item_type filterable as a string, the class's filter accepts exactly the items of that class |
| ContentMixin.ListedOfType | holo_subs_search/storage/mixins/content_mixin.py:40-49 | a type-filtered listing yields only items of the class found among the entries, and, when it completes in a well-formed tree, all of them |
| ContentMixin.SourcesFromItemsOfType | holo_subs_search/storage/mixins/content_mixin.py:22-36 | each value of a completed property is the attribute of an item of the class among the entries |
| ContentMixin.ItemsOfTypeInSources | holo_subs_search/storage/mixins/content_mixin.py:22-36 | the attribute of every item of the class among the entries is in a completed property |
| ContentMixin.AudioSourcesNeedNoAudio | holo_subs_search/storage/mixins/content_mixin.py:23-24 | audio items have no source attribute, so once item_type is filterable audio_sources raises AttributeError as soon as one audio item is listed |
| Record.Record.constructor | holo_subs_search/storage/record.py:22-35 | a record starts with an empty cache, and its files live in storage path / model name / id |
| Record.Record.Exists | holo_subs_search/storage/record.py:43-44 | true exactly when the record directory exists and its metadata loads to a value; false when the directory is missing or its metadata is None (no file, or a file holding `null`); an unreadable metadata file raises; the metadata is loaded only when the directory exists |
| Record.NullMetadataMeansAbsent | holo_subs_search/storage/record.py:43-44 | a record whose metadata.json holds `null` has None as its metadata, so `exists()` is false |
| Record.Record.Create | holo_subs_search/storage/record.py:46-52 | an existing record is ValueError("Already exists") with nothing written; otherwise the model and record directories are made and the keyword arguments saved as metadata.json, with the file system and caches as those steps leave them |
| Record.Record.OwnSaveText | holo_subs_search/storage/record.py:80-96 | writes as the record's own save specifies and leaves the text entry as a save does; JSON entries untouched |
| Record.Record.OwnSaveJson | holo_subs_search/storage/record.py:98-112 | a value that is not None, a dict or a list is TypeError with nothing written and the JSON entry dropped; otherwise the json.dumps text is saved and the value cached on success |
| Record.MadeDirs | holo_subs_search/storage/record.py:50-51 | after the two mkdir calls succeed, both the model and the record directory exist |
| Record.CreatedExists | holo_subs_search/storage/record.py:46-52 | after a successful create the record directory exists and a cached metadata read gives back the keyword arguments |
| Record.OwnJsonText | holo_subs_search/storage/record.py:102-107 | None passes as None; a dict or list without sets becomes its json.dumps text; anything else is TypeError |
| Record.OwnSaveTextSpec | holo_subs_search/storage/record.py:84-85 | saving into a missing record directory is ValueError and writes nothing |
| Record.OwnSaveTextAgrees | holo_subs_search/storage/record.py:80-96 | in an existing record directory the record's own save does exactly what the mixin's save does |
| Record.OwnSaveTextRefusesMissingDir | holo_subs_search/storage/record.py:84-85 | for a missing record directory a string save is refused with ValueError and the file system is unchanged |
| BaseItem.Item.constructor | holo_subs_search/storage/content_item/base_item.py:22-37 | a new item starts with an empty cache and keeps its files in its own path |
| BaseItem.Item.Exists | holo_subs_search/storage/content_item/base_item.py:41-42 | true exactly when the item path is a directory and its metadata loads to a value; false when the directory is missing or has no metadata; an unreadable metadata file raises; the metadata is loaded only for a directory |
| BaseItem.Item.Create | holo_subs_search/storage/content_item/base_item.py:44-49 | an existing item is ValueError("Already exists") with nothing written; otherwise the directory is made with its parents and the metadata saved, with the file system and caches as those steps leave them |
| BaseItem.CreatedExists | holo_subs_search/storage/content_item/base_item.py:44-49 | after a successful create the item directory exists and a cached metadata read gives back the metadata given |
| BaseItem.BuildMetadata | holo_subs_search/storage/content_item/base_item.py:51-53 | succeeds exactly when flags is the only keyword and usable, giving the flags set and the class's item_type; any other keyword is ValueError |
| BaseItem.Attributes | holo_subs_search/storage/content_item/base_item.py:19-20 | as written the filterable table is empty: item_type is annotated ClassVar[str] and no other annotation has operators |
| BaseItem.AttributesCorrected | holo_subs_search/storage/content_item/base_item.py:19-20 | with item_type annotated as a string, the table holds item_type alone, with eq and ne |
| BaseItem.BuildFilter | holo_subs_search/storage/content_item/base_item.py:55-57 | the filter is built exactly when the item_type clause and every given part are usable, and then starts with item_type eq the class's type, followed by the parts |
| BaseItem.BuildFilterRaises | holo_subs_search/storage/content_item/base_item.py:55-57 | as written, for a table without item_type, build_filter is ValueError whatever parts are given |
| BaseItem.Attribute | holo_subs_search/storage/content_item/base_item.py:19-20 | item_type reads as the class's type; names other than item_type and flags are AttributeError |
| BaseItem.CorrectedFilterSelectsType | holo_subs_search/storage/content_item/base_item.py:55-57 | with item_type filterable, the corrected filter's first clause accepts exactly the objects of the class's type |
| AudioItem.BuildMetadata | holo_subs_search/storage/content_item/audio_item.py:28-32 | no audio_file is ValueError; any keyword other than flags and audio_file is ValueError; otherwise the base keys with item_type "audio" plus audio_file |
| AudioItem.AudioPath | holo_subs_search/storage/content_item/audio_item.py:16-22 | the audio path is the item directory joined with the stored audio_file, which must be present and a string |
| AudioItem.AudioChecksum | holo_subs_search/storage/content_item/audio_item.py:24-26 | the checksum of the audio file's bytes exactly when the file can be read; an unreadable file is OSError |
| AudioItem.SameBytesSameChecksum | holo_subs_search/storage/content_item/audio_item.py:24-26 | two audio items whose files hold the same bytes have the same checksum |
| AudioItem.AttributesTable | holo_subs_search/storage/content_item/audio_item.py:13-26 | the filterable table adds audio_file and audio_checksum to the base's, and has no audio_path |
| AudioItem.Attribute | holo_subs_search/storage/content_item/audio_item.py:16-26 | audio_file reads the metadata key, audio_checksum the file's checksum, item_type "audio" |
| SubtitleItem.BuildMetadata | holo_subs_search/storage/content_item/subtitle_item.py:58-79 | a missing required keyword is TypeError; an unknown one is ValueError; otherwise the base keys with item_type "subtitle" plus the seven own keys, absent references as None |
| SubtitleItem.Rest | holo_subs_search/storage/content_item/subtitle_item.py:69-71 | the keywords passed down are exactly those that are not the item's own, unchanged |
| SubtitleItem.Langs | holo_subs_search/storage/content_item/subtitle_item.py:29-32 | langs is the set of the stored languages; a missing key or a non-iterable value fails |
| SubtitleItem.AccessorsReadBack | holo_subs_search/storage/content_item/subtitle_item.py:20-79 | the metadata build_metadata makes reads back: each required keyword as given, each absent reference as None, langs as the set given |
| SubtitleItem.SubtitlePath | holo_subs_search/storage/content_item/subtitle_item.py:34-40 | the subtitle path is the item directory joined with the stored subtitle_file, which must be present and a string |
| SubtitleItem.LoadTranscription | holo_subs_search/storage/content_item/subtitle_item.py:81-89 | an unreadable file is OSError; a ".srt" file is parsed as SRT with the item's language, a ".json" file as JSON; any other name is ValueError |
| SubtitleItem.Declared | holo_subs_search/storage/content_item/subtitle_item.py:20-54 | reflection declares the eight properties over the base table |
| SubtitleItem.Kept | holo_subs_search/storage/content_item/subtitle_item.py:38-40 | of those only subtitle_path has no operators and is dropped |
| SubtitleItem.AttributesTable | holo_subs_search/storage/content_item/subtitle_item.py:15-54 | the filterable table adds every property but subtitle_path: langs with includes and excludes, the others with eq and ne |
| SubtitleItem.Attribute | holo_subs_search/storage/content_item/subtitle_item.py:20-54 | required properties read their metadata key, langs its set, the references get with None, item_type "subtitle" |
| DiarizationItem.DiarizationOf | holo_subs_search/storage/content_item/diarization_item.py:27-30 | no document and a document holding `null` give None; any other document gives its parsed diarization, failing with the parse error exactly when it does not parse |
| DiarizationItem.NullDiarizationIsNone | holo_subs_search/storage/content_item/diarization_item.py:27-30 | a diarization.json holding `null` gives no diarization |
| DiarizationItem.GetDiarization | holo_subs_search/storage/content_item/diarization_item.py:27-30 | the getter parses the cached load of diarization.json, updating the caches as that load does |
| DiarizationItem.SetDiarization | holo_subs_search/storage/content_item/diarization_item.py:32-34 | the setter saves the diarization's to_json document as diarization.json |
| DiarizationItem.SetThenGetDiarization | holo_subs_search/storage/content_item/diarization_item.py:27-34 | after a successful set, the getter returns the diarization that was set |
| DiarizationItem.DiarizationModelOf | holo_subs_search/storage/content_item/diarization_item.py:36-38 | the model of the diarization, or None without one |
| DiarizationItem.EmbeddingModelOf | holo_subs_search/storage/content_item/diarization_item.py:40-42 | the embedding model of the diarization, or None without one |
| DiarizationItem.DiarizationModel | holo_subs_search/storage/content_item/diarization_item.py:36-38 | the property reads the diarization model of the cached diarization, with the caches as one load leaves them |
| DiarizationItem.EmbeddingModel | holo_subs_search/storage/content_item/diarization_item.py:40-42 | the property reads the embedding model of the cached diarization, with the caches as one load leaves them |
| DiarizationItem.ModelsAfterSet | holo_subs_search/storage/content_item/diarization_item.py:32-42 | after a successful set both model properties read the models of the diarization that was set |
| DiarizationItem.BuildMetadata | holo_subs_search/storage/content_item/diarization_item.py:44-46 | no source is TypeError; an unknown keyword is ValueError; otherwise the base keys with item_type "diarization" plus source and audio_id (None when absent) |
| DiarizationItem.Declared | holo_subs_search/storage/content_item/diarization_item.py:17-42 | reflection declares the class constant and the five properties over the base table |
| DiarizationItem.Kept | holo_subs_search/storage/content_item/diarization_item.py:17-30 | the class constant and the diarization have no operators and are dropped |
| DiarizationItem.AttributesTable | holo_subs_search/storage/content_item/diarization_item.py:15-42 | the filterable table adds source, audio_id and the two model names with eq and ne |
| DiarizationItem.Attribute | holo_subs_search/storage/content_item/diarization_item.py:19-42 | source reads the metadata key, audio_id gets it with None, the model names come from the diarization, item_type "diarization" |
| MigrationSteps.AtVersion | holo_subs_search/storage/migrations/m_0_2_0.py:11 | the version test succeeds exactly when the metadata has a version, and is true exactly when it is the step's own; otherwise KeyError("version") |
| MigrationSteps.VersionOnly | holo_subs_search/storage/migrations/m_0_2_0.py:10-17 | a step with nothing to convert keeps every key and value and only moves its own version to the next one; no version is KeyError |
| MigrationSteps.AscendingReachesLatest | holo_subs_search/storage/migrations/m_0_6_0.py:10-17 | each step moves exactly one version to its successor, so running the steps in ascending order takes any known version to 0.7.0 |
| MigrationSteps.AscendingKeepsUnknown | holo_subs_search/storage/migrations/m_0_6_0.py:10-17 | a version no step knows is left unchanged by all of them |
| Migration010.ChannelMetadata | holo_subs_search/storage/migrations/m_0_1_0.py:30-37 | a channel's metadata (a JSON object, else TypeError) loses refresh_holodex_info and refresh_videos and gains flags holding holodex-preserve and mentions-only exactly when the respective option was falsy; every other key is kept |
| Migration010.MissingLangs | holo_subs_search/storage/migrations/m_0_1_0.py:63-68 | every skipped language but "all" maps to "missing"; a non-list or non-string entry is TypeError |
| Migration010.VideoMetadata | holo_subs_search/storage/migrations/m_0_1_0.py:52-71 | a video's metadata loses members_only and skip_subtitles, gains flags holding youtube-membership exactly when members_only was truthy, and gains youtube_subtitles with the missing languages when there are any; every other key is kept |
| Migration010.SubtitleName | holo_subs_search/storage/migrations/m_0_1_0.py:84 | a subtitle file name unpacks exactly when it has two dots, into three dot-free parts that join back to it; otherwise ValueError |
| Migration010.SubtitleStep | holo_subs_search/storage/migrations/m_0_1_0.py:84-106 | moving one subtitle succeeds only for a file with a well-formed name |
| Migration010.NotMetadataName | holo_subs_search/storage/migrations/m_0_1_0.py:91-94 | a subtitle file name never collides with the item's metadata.json |
| Migration010.SubtitleMoved | holo_subs_search/storage/migrations/m_0_1_0.py:84-106 | a successful move leaves the item directory content/<source>-subtitles-<lang> holding the subtitle item's metadata and a copy of the file, and removes the original |
| Migration010.SubtitlesRemoved | holo_subs_search/storage/migrations/m_0_1_0.py:77-108 | a successful conversion leaves no subtitles directory behind |
| Migration010.GitignoreStep | holo_subs_search/storage/migrations/m_0_1_0.py:112-114 | a record's .gitignore, when present, is rewritten with /subtitles replaced by /content; without one nothing changes |
| Migration010.GitignoreKept | holo_subs_search/storage/migrations/m_0_1_0.py:112-114 | a .gitignore that does not ignore /subtitles is written back as it was |
| Migration010.MetadataStep | holo_subs_search/storage/migrations/m_0_1_0.py:28-39 | without a metadata file nothing changes; otherwise the file must parse and convert, and the converted metadata is written back and returned |
| Migration010.ChannelsFoldFrame | holo_subs_search/storage/migrations/m_0_1_0.py:21-39 | the channel walk rewrites only the channels' metadata.json files: no path appears or disappears and every other path keeps its content |
| Migration010.MoveSubtitles | holo_subs_search/storage/migrations/m_0_1_0.py:77-108 | the subtitle loop does what the move specification says for the listing order it sees |
| Migration010.VisitVideoRecord | holo_subs_search/storage/migrations/m_0_1_0.py:46-114 | one video record is converted as the record specification says |
| Migration010.WalkChannels | holo_subs_search/storage/migrations/m_0_1_0.py:21-39 | the channel walk visits every entry of the table once (all of them when it completes) and computes the fold over them |
| Migration010.WalkVideos | holo_subs_search/storage/migrations/m_0_1_0.py:43-114 | the video walk visits every entry once (all when it completes) and computes the fold over them |
| Migration010.ConvertRecords | holo_subs_search/storage/migrations/m_0_1_0.py:19-114 | the record conversion is the channel walk followed by the video walk |
| Migration010.Migrate | holo_subs_search/storage/migrations/m_0_1_0.py:14-116 | no version is KeyError; another version returns the metadata unchanged with nothing written; at 0.1.0 the records are converted and, as written, the metadata of the last record converted is returned with version 0.2.0 |
| Migration010.ChannelStepFlags | holo_subs_search/storage/migrations/m_0_1_0.py:28-39 | a channel whose metadata is an object converts without error, carries flags afterwards, and no path is added or removed |
| Migration010.OneChannel | holo_subs_search/storage/migrations/m_0_1_0.py:22-39 | walking one channel is that channel's metadata step |
| Migration010.ReturnsRecordMetadata | holo_subs_search/storage/migrations/m_0_1_0.py:30-116 | as written, in a storage with one channel whose metadata is an object and no videos, the step returns that channel's converted metadata instead of the storage metadata with version 0.2.0 |
| Migration030.Sanitise | holo_subs_search/storage/migrations/m_0_3_0.py:79 | the result holds only letters, digits and "-", is empty exactly when the input is, and is no longer than the input |
| Migration030.SanitiseKeepsAllowed | holo_subs_search/storage/migrations/m_0_3_0.py:79 | a string of letters, digits and "-" is left as it is |
| Migration030.SanitiseIdempotent | holo_subs_search/storage/migrations/m_0_3_0.py:79 | sanitising twice is sanitising once |
| Migration030.SanitiseIsDashes | holo_subs_search/storage/migrations/m_0_3_0.py:79 | the substitution equals a character-by-character reading: allowed characters are copied, and a character that is not allowed becomes "-" when it starts a run and vanishes when it continues one |
| Migration030.SanitiseAtAllowed | holo_subs_search/storage/migrations/m_0_3_0.py:79 | an allowed character is kept in place, and the text on either side of it is sanitised independently |
| Migration030.SanitiseAtRun | holo_subs_search/storage/migrations/m_0_3_0.py:79 | a maximal run of characters that are not allowed becomes exactly one "-", and the text on either side is sanitised independently |
| Migration030.BuildContentId | holo_subs_search/storage/migrations/m_0_3_0.py:74-81 | no parts is ValueError; otherwise the ID uses only allowed characters and "_", and splitting it at "_" gives back the sanitised type and parts |
| Migration030.TypeLeadsId | holo_subs_search/storage/migrations/m_0_3_0.py:56-63 | the content ID of a subtitle or audio item has four parts, the first the item type itself |
| Migration030.ReadItemDoc | holo_subs_search/storage/migrations/m_0_3_0.py:50-51 | the item's metadata reads exactly when metadata.json is a file holding JSON for an object, and is that object |
| Migration030.DocContentId | holo_subs_search/storage/migrations/m_0_3_0.py:51-67 | the name succeeds exactly when the metadata has item_type and, for a subtitle or audio item, a string file name naming a file of the item and a source; it is None (the item keeps its name) exactly when the type is neither subtitle nor audio, and otherwise exactly the content ID built from the type, the source as `str` renders it, the checksum of the named file's content and the file name, with four "_"-separated parts, the first the type |
| Migration030.NewContentId | holo_subs_search/storage/migrations/m_0_3_0.py:49-67 | the item step's name succeeds exactly when metadata.json is a file holding an object for which the name succeeds, and is then the name that object gives the item |
| Migration030.ContentItemIsFinal | holo_subs_search/storage/migrations/m_0_3_0.py:49-71 | the rename is done once per item: at its new place the item computes the same content ID, so a second run leaves it where it is |
| Migration030.MigrateVideo | holo_subs_search/storage/migrations/m_0_3_0.py:39-46 | the content loop of a video walks the content directory in its listing order and renames each item as the item step says |
| Migration030.MigrateTable | holo_subs_search/storage/migrations/m_0_3_0.py:31-36 | the video table loop visits each entry once, all of them when no step fails, and applies the video step to each |
| Migration030.Migrate | holo_subs_search/storage/migrations/m_0_3_0.py:15-28 | no version is KeyError; another version is returned unchanged with nothing touched; at 0.3.0 the video table is walked and the metadata comes back with git_privacy "public", version 0.4.0 and every other key as it was |
| Migration040.ItemMetadata | holo_subs_search/storage/migrations/m_0_4_0.py:39-41 | a document that is not an object is AttributeError; a subtitle item gets langs = [lang], replacing any langs, and is KeyError without lang; any other item is kept |
| Migration040.ItemText | holo_subs_search/storage/migrations/m_0_4_0.py:39-42 | the new metadata.json text is the sorted-keys dump of the converted document, and fails exactly when the text does not parse or the conversion fails |
| Migration040.ItemPlan | holo_subs_search/storage/migrations/m_0_4_0.py:37-42 | an entry without a metadata.json file is passed over; otherwise the file is rewritten with the converted text, failing exactly when the conversion does |
| Migration040.Plan | holo_subs_search/storage/migrations/m_0_4_0.py:37-42 | the walk writes only metadata.json files that exist |
| Migration040.Migrate | holo_subs_search/storage/migrations/m_0_4_0.py:12-21 | no version is KeyError; another version is returned unchanged; at 0.4.0 the step fails exactly when some item's conversion does, otherwise it rewrites every item and returns the metadata with version 0.5.0 and every other key kept |
| Migration040.EveryItemRewritten | holo_subs_search/storage/migrations/m_0_4_0.py:24-42 | when no item fails, the metadata.json of every content item of every video holds the sorted dump of its converted metadata, and every other path is unchanged |
| Migration040.MissingLangFails | holo_subs_search/storage/migrations/m_0_4_0.py:40-41 | a subtitle item without lang makes the whole step raise |
| Migration020.Migrate | holo_subs_search/storage/migrations/m_0_2_0.py:10-17 | no version is KeyError; another version is returned unchanged; at 0.2.0 the copy has version 0.3.0 and every other key as it was |
| Migration050.Config | holo_subs_search/storage/migrations/m_0_5_0.py:49-68 | the recorded configuration has exactly the seven config keys; checkpoint speaker-diarization-3.1 gets its known models, batch sizes 32, exclude-overlap true and AgglomerativeClustering, any other checkpoint None, -1, false and "unknown"; a truthy old embedding_model overrides the default |
| Migration050.Rewrite | holo_subs_search/storage/migrations/m_0_5_0.py:49-81 | the conversion fails exactly when the document has no diarization result (KeyError); otherwise diarization_model and diarization are replaced by the config keys and segments, segments holds the old result and every other key is kept |
| Migration050.DiarizationItem | holo_subs_search/storage/migrations/m_0_5_0.py:37-41 | an item without a metadata.json file goes on to its diarization file; metadata that is an object goes on exactly when its item_type is diarization; metadata that does not parse or is not an object raises |
| Migration050.ItemPlan | holo_subs_search/storage/migrations/m_0_5_0.py:37-83 | an item that is not a diarization item, has no diarization file or whose document already has a checkpoint is passed over; any write is of a converted document without a checkpoint |
| Migration050.Plan | holo_subs_search/storage/migrations/m_0_5_0.py:37-83 | the walk writes only diarization.json files that exist |
| Migration050.RewriteIsFinal | holo_subs_search/storage/migrations/m_0_5_0.py:46-47 | with a codec that reads back what it writes, a converted document is passed over the next time: the step is done once |
| Migration050.Migrate | holo_subs_search/storage/migrations/m_0_5_0.py:12-21 | no version is KeyError; another version is returned unchanged; at 0.5.0 the step fails exactly when some item does, otherwise every item is converted and the metadata comes back with version 0.6.0 and every other key kept |
| Migration050.ItemRewritten | holo_subs_search/storage/migrations/m_0_5_0.py:32-83 | when no item fails, each diarization.json holds the converted document when the item plan converts it, and is unchanged otherwise |
| Migration050.MissingResultFails | holo_subs_search/storage/migrations/m_0_5_0.py:80 | a diarization document without a checkpoint and without a diarization result makes the whole step raise |
| Migration060.Migrate | holo_subs_search/storage/migrations/m_0_6_0.py:10-17 | no version is KeyError; another version is returned unchanged; at 0.6.0 the copy has version 0.7.0 and every other key as it was |
| VideoWalk.WalkItem | holo_subs_search/storage/migrations/m_0_4_0.py:37-42 | an item whose step fails stops with that error and changes nothing; otherwise its planned text, if any, is written at its path and nothing else changes |
| VideoWalk.ItemFails | holo_subs_search/storage/migrations/m_0_4_0.py:37-42 | one failing item makes the whole walk fail |
| VideoWalk.WalkVideo | holo_subs_search/storage/migrations/m_0_4_0.py:32-42 | walking a video's content directory in any listing order either fails because some item of the table fails, or leaves every item of that video done |
| VideoWalk.VisitVideo | holo_subs_search/storage/migrations/m_0_4_0.py:27-29 | an entry of the video table is walked only when it is a directory holding metadata.json; afterwards it counts as done |
| VideoWalk.Walk | holo_subs_search/storage/migrations/m_0_4_0.py:24-29 | the video table walk, in whatever order the directories are listed, fails exactly when some item's step fails, and otherwise leaves exactly the file system in which every item's planned text is written |
| Storage.BuildMetadata | holo_subs_search/storage/storage.py:42-44 | the storage metadata is built only without keywords (any keyword is ValueError from the metadata layer) and is exactly the current version |
| Storage.FreshExists | holo_subs_search/storage/storage.py:199-200 | a record object just made exists exactly when its directory is there and its metadata.json loads to a mapping; a missing file or one holding `null` is not a record; a failing load is raised |
| Storage.NullMetadataNotFound | holo_subs_search/storage/storage.py:199-203 | a record directory whose metadata.json holds `null` is not found by `get_record` |
| Storage.Lookup | holo_subs_search/storage/storage.py:193-204 | a cached record is found without looking at the disk; otherwise the answer is whether a new record exists |
| Storage.SelectedExactly | holo_subs_search/storage/storage.py:187-191 | a listing that went through yields exactly the listed names that pass the filter and are cached or exist |
| Storage.SelectedSnoc | holo_subs_search/storage/storage.py:188-191 | one more listed name stops the listing at a failing exists(), and otherwise adds that name exactly when its record is found and passes the filter |
| Storage.Storage.constructor | holo_subs_search/storage/storage.py:25-28 | a new storage has an empty identity map, its path, and a files layer rooted at that path with empty caches |
| Storage.Storage.Init | holo_subs_search/storage/storage.py:30-36 | a missing storage is created and given fresh metadata; an existing one without metadata.json is ValueError; then the storage is migrated, and an opened storage holds its metadata at the current version |
| Storage.Storage.Version | holo_subs_search/storage/storage.py:49 | the version read is the cached metadata's version key, KeyError without one, and the caches are untouched |
| Storage.Storage.Migrate010 | holo_subs_search/storage/storage.py:63-165 | at 0.1.0 the records are converted as the 0.1.0 conversion states and the storage's own metadata is saved with version 0.2.0; at any other version nothing changes |
| Storage.Storage.Migrate020 | holo_subs_search/storage/storage.py:167-174 | at 0.2.0 only the storage's own metadata changes, saved with version 0.3.0; otherwise nothing changes |
| Storage.Storage.OnePass | holo_subs_search/storage/storage.py:49-57 | one pass runs both inline steps in order and reports whether the version changed |
| Storage.Storage.Migrate | holo_subs_search/storage/storage.py:46-61 | passes run until the version stays the same; the result is the migration specification, and a storage that opens ends at exactly the current version with every other key kept |
| Storage.MigrateOutcome | holo_subs_search/storage/storage.py:46-61 | migration succeeds only when a pass reaches the current version, never at 0.1.0 or 0.2.0; a version the steps do not know succeeds with nothing written exactly when it is the current version, otherwise ValueError |
| Storage.NewStorageOpens | holo_subs_search/storage/storage.py:30-36 | a storage made by the constructor is written with exactly the current version and then opens without any step running |
| Storage.StepKeepsStorageMetadata | holo_subs_search/storage/storage.py:165 | the inline 0.1.0 step saves the storage's own metadata with version 0.2.0, whatever records it converted |
| Storage.Storage.GetRecord | holo_subs_search/storage/storage.py:193-204 | a record in the identity map is returned as it is; otherwise a new record is returned and cached exactly when it exists, None when it does not; the identity map only grows, by that key |
| Storage.Storage.Visit | holo_subs_search/storage/storage.py:188-191 | one round of the listing loop keeps the records found so far equal to the specification's selection, each the one in the identity map |
| Storage.Storage.SelectRecords | holo_subs_search/storage/storage.py:187-191 | the listing loop visits the listed names in order up to the first failing exists(); the records returned are exactly the specification's selection, each the one in the identity map |
| Storage.Storage.ListRecords | holo_subs_search/storage/storage.py:178-191 | a missing table yields nothing; otherwise the records the table lists, in listing order, that are found and kept by the filter, each the record in the identity map |
| Channel.Url | holo_subs_search/storage/channel.py:29-41 | a url property is the prefix followed by str(id) exactly when the id is truthy, None when it is not; a failing read of the id is raised |
| Channel.UrlsFromInfo | holo_subs_search/storage/channel.py:29-41 | a channel known only to Holodex, under a non-empty id, has both urls, each the site's prefix followed by that id; a channel without any info has neither |
| Channel.Refresh | holo_subs_search/storage/channel.py:62-63 | an existing channel's Holodex info is saved when asked to or when the stored info is missing or empty; otherwise nothing is written, and a failing read of the stored info is raised |
| Channel.NewChannelNeverStored | holo_subs_search/storage/channel.py:57-60 | as written, a channel not yet stored makes from_holodex raise TypeError once its metadata is built, and nothing is written |
| Channel.CreatedStored | holo_subs_search/storage/channel.py:59-60 | after create and the holodex_info setter went through, the record directory exists, metadata.json holds the dumped metadata and holodex.json the dumped info |
| Channel.NewChannelStored | holo_subs_search/storage/channel.py:57-60 | with create called as intended, a new channel is stored: its directory exists, metadata.json holds the metadata built from the defaults and holodex.json the dumped info |
| Channel.CreatedKeeps | holo_subs_search/storage/channel.py:59-60 | creating a record and saving its info touches only the record's two files and the directories on their way |
| Channel.RefreshKeeps | holo_subs_search/storage/channel.py:62-63 | refreshing the info touches only the record's holodex.json and the directories on its way |
| Channel.FixedSpecKeeps | holo_subs_search/storage/channel.py:46-65 | whatever from_holodex does stays inside the storage's channel table |
| Channel.FromHolodex | holo_subs_search/storage/channel.py:46-65 | as written: the returned record is a new, valid object for the given storage, table and id, and the disk changes as the specification of the two branches says |
| Channel.ExistsFresh | holo_subs_search/storage/channel.py:57 | exists() on a record just made answers from the disk, and afterwards its cache holds at most its metadata |
| Channel.FromHolodexFixed | holo_subs_search/storage/channel.py:46-65 | from_holodex with create(metadata) as keywords: a new valid record object, and the disk changes as the corrected specification says |
| Channel.CreateNew | holo_subs_search/storage/channel.py:58-60 | the new-channel branch creates the record and saves its info as the creation specification says |
| Channel.RefreshInfo | holo_subs_search/storage/channel.py:62-63 | the existing-channel branch reads the stored info from the disk and saves as the refresh specification says |
| Channel.OwnVideosExactly | holo_subs_search/storage/channel.py:69-72 | a listing that went through holds exactly the listed videos whose channel_id is the channel's id |
| Channel.ErrorSticks | holo_subs_search/storage/channel.py:69-72 | once reading a channel_id raised, later videos change nothing |
| Channel.ListVideos | holo_subs_search/storage/channel.py:69-72 | the channel's videos are the storage's listed videos whose channel_id is this channel's id, in listing order |
| Channel.FilterOwn | holo_subs_search/storage/channel.py:70-72 | the filtering loop computes the own-videos specification over the listed videos |
| Video.Field | holo_subs_search/storage/video.py:50 | a field is present exactly when the info is non-empty and holds a truthy value under the key, and then it is that value |
| Video.FirstSome | holo_subs_search/storage/video.py:48-64 | the reference for the fallback chains: the result is present exactly when some candidate is, and is then the first present one |
| Video.PublishedRawIsFirst | holo_subs_search/storage/video.py:50-59 | the raw publication date is the first present of Holodex published_at, available_at, YouTube upload_date and release_date; the YouTube info is not consulted when the Holodex info has one, and a failing YouTube read is raised only when it is consulted |
| Video.PublishedAt | holo_subs_search/storage/video.py:48-64 | published_at is the parsed first raw date, None without one, a parse error raised; the result always carries an offset, UTC when the parsed value had none |
| Video.TitleIsFirst | holo_subs_search/storage/video.py:66-72 | the title is the Holodex title when present, otherwise the YouTube one; the YouTube info is not consulted when the Holodex one has a title |
| Video.UrlsFromInfo | holo_subs_search/storage/video.py:74-86 | a video whose infos carry a non-empty id has both urls, each the site's prefix followed by the id; one without any info has neither |
| Video.BuildMetadata | holo_subs_search/storage/video.py:90-94 | a falsy channel_id is ValueError; otherwise the metadata holds exactly the flags the flags layer builds from the other keywords and the channel id, and fails when that layer does |
| Video.BuiltMetadata | holo_subs_search/storage/video.py:90-94 | with a non-empty channel id and a flags keyword, the metadata is exactly those flags as a set and that channel id |
| Video.YoutubeSubtitles | holo_subs_search/storage/video.py:38-40 | the subtitle mapping is the stored youtube_subtitles mapping, empty when absent; missing metadata is AttributeError and a stored value that is not a mapping is TypeError |
| Video.SubtitlesReadBack | holo_subs_search/storage/video.py:42-44 | subtitles written by the setter read back as written, and every other key of the metadata is kept |
| Video.SetYoutubeSubtitles | holo_subs_search/storage/video.py:42-44 | the setter writes the metadata with youtube_subtitles replaced, through the cached metadata; missing metadata is TypeError |
| Video.NewVideoNeverStored | holo_subs_search/storage/video.py:108-120 | as written, from_holodex on a video not yet stored always raises |
| Video.NewVideoStored | holo_subs_search/storage/video.py:108-120 | with create called as intended, a new video is stored with metadata holding the channel's id and its flags and its Holodex info saved; the channel's defaults build exactly the mentions-only flag |
| Video.FromHolodex | holo_subs_search/storage/video.py:96-125 | as written: the returned record is a new valid object for the given storage, table and id, and the disk changes as the as-written specification says |
| Video.FromHolodexFixed | holo_subs_search/storage/video.py:96-125 | with create(metadata) as keywords: a new valid record object, and the disk changes as the corrected specification says |
| Video.CreateAsWritten | holo_subs_search/storage/video.py:109-119 | the new-video branch as written: the channel is obtained, the metadata built, and create raises |
| Video.CreateFixed | holo_subs_search/storage/video.py:109-120 | the corrected new-video branch changes the disk as the corrected specification says |
| Video.FinishFixed | holo_subs_search/storage/video.py:116-120 | once the channel step went through, the metadata is built and the video created as specified |
| Video.KeptVideo | holo_subs_search/storage/video.py:109-114 | the channel step keeps the video's directory and metadata file, so the video is as absent after it as before |
| Video.NewVideo | holo_subs_search/storage/video.py:119-120 | the video's own create and holodex_info setter change the disk as the creation specification says |
| Video.GitignoreSpec | holo_subs_search/storage/video.py:127-132 | afterwards .gitignore exists exactly when the membership flag is set; an existing one is kept and a new one holds "/content"; no other path changes; a failing flags read is raised and a failed write is OSError |
| Video.UpdateGitignoreTwice | holo_subs_search/storage/video.py:127-132 | a second update_gitignore after one that went through changes nothing |
| Video.UpdateGitignore | holo_subs_search/storage/video.py:127-132 | update_gitignore changes the disk as the specification says for the flags read, and only the metadata cache changes |
| Video.MarkedMissing | holo_subs_search/storage/video.py:242 | every missing language maps to "missing" and every other entry of the mapping is kept |
| Video.SkipMissingSpec | holo_subs_search/storage/video.py:223-242 | nothing is written for a video published less than days ago or with no missing language; a write happens only for an old video with some language missing |
| Video.SkipMissingMarks | holo_subs_search/storage/video.py:230-242 | on an old video each requested language without a stored YouTube subtitle is marked "missing" and every other entry is kept |
| Video.ReadPublishedAt | holo_subs_search/storage/video.py:48-64 | published_at read through the cached getters is the published_at specification of the infos, and the views stay the same |
| Video.MarkMissing | holo_subs_search/storage/video.py:242 | the subtitle update writes the metadata as the marking specification says |
| Video.SkipMissing | holo_subs_search/storage/video.py:223-242 | the method changes the disk as the skip-missing specification says |
| Video.Fetched | holo_subs_search/storage/video.py:142-150 | a failing published_at read is raised first; a completed download is the download of the video's YouTube id |
| Video.Flagged | holo_subs_search/storage/video.py:201-217 | an error with no flag is raised again; a flagged error is swallowed unless reading or writing the flags fails |
| Video.FlagAdded | holo_subs_search/storage/video.py:214-215 | a flagged download error adds its flag to the stored flags, and the metadata written reads back as exactly that set |
| Video.FlagError | holo_subs_search/storage/video.py:201-217 | the except clause writes the flags as the flag specification says |
| Video.FetchYoutube | holo_subs_search/storage/video.py:136-221 | fetch_youtube changes the disk as the specification says: a flagged download error marks the video, and a completed download with languages requested runs the skip-missing step |
| Video.ReadAndDownload | holo_subs_search/storage/video.py:142-150 | the try body up to the download's outcome reads published_at and the YouTube id and downloads that id, leaving the views as they were |

## Left out

- Logging (`_logger` calls) is left out everywhere; it has no effect on the modelled state.
- The JSON codec (`json.dumps`, `json.loads`, `utils.json_dumps`) is a parameter, a pair of total functions. No round trip is assumed of it except where a lemma states it as a precondition (`Migration050.RewriteIsFinal`).
- `get_checksum`, `datetime.fromisoformat`, the current time and `srt.parse` are parameters, and so are `Transcription.from_srt` and `model_validate_json`. `utils.py` as shown does not define `get_checksum` or `json_dumps`.
- The order in which `os.scandir` lists a directory is a parameter or an arbitrary choice. Every loop over a listing is proved for any order.
- Weak references: the identity map of `Storage` (a `WeakValueDictionary`) is a plain map, so a record evicted by the garbage collector is not modelled.
- Reading and writing bytes is modelled as reading and writing text, and file contents are strings. File modes, permissions, symbolic links and concurrent changes to the disk are not modelled.
- The HTTP requests, temporary directories, progress output and sleeps of the ragtag, rubyruby, pyannote and yt-dlp tools are left out. yt-dlp itself is an oracle indexed by call number, and the ragtag download's chunk size is I/O only.
- Video.FetchYoutube: the download is an outcome given as a parameter, so the loop over downloaded files is not modelled. That loop writes `youtube.json`, audio items and subtitle items. The model covers what precedes and follows it: the `published_at` read, the error-to-flag path and the skip-missing step. As written, that loop would also fail on its own: `AudioItem.build_metadata(source=...)` refuses `source`, and `SubtitleItem.build_metadata` is called without `langs`.
- Video.Flagged: a stored flag that is not a string is dropped from the set written back, because the flags setter is modelled over strings; Python would write it back unchanged.
- Video.FetchYoutube, Video.SkipMissing and Video.ReadAndDownload: the cache left after these composite methods is stated only as keeping the views of the three documents, not entry by entry.
- `ChannelRecord` and `VideoRecord` never define the abstract `files_path`. The model gives them the record directory as their files path, the only reading under which their file helpers can run.
- `HolodexMixin.from_holodex_id` is a plain constructor call. It is part of `Channel.FromHolodex` and `Video.FromHolodex`, which return a new record with that id.
- `Storage.list_channels`, `get_channel`, `list_videos` and `get_video` are `list_records` and `get_record` with a fixed model name. They are covered by `Storage.Storage.ListRecords` and `Storage.Storage.GetRecord` with that name.
- `Storage.migrate` never calls the steps of the migrations package, and nothing else in the repository does. `MigrationSteps.AscendingReachesLatest` states what running them in order would do.
- The Holodex API objects (`value._response`, `value.id`, `value.channel`) are given as their JSON value, their id and the channel's id and info.
- SearchableTranscription.SearchExact: the loop's `offset == match_end` guard is not modelled. For a non-empty value a match always ends after the offset, so the guard is never taken.
- VoiceActivity.DiarizationToVoiceActivity: the pipeline takes the diarization segments as a sequence of (start, end) pairs. `dia.diarization` (voice_activity.py:63) is not a field of the `Diarization` type, whose segments are under `segments`.
- Floating point is modelled as exact `real` arithmetic (chunk times, search deltas), so rounding is not modelled.
- The regular-expression engine is an abstract matcher: a function from pattern, text and case flag to the span of the first match, if any.
- Generators are modelled as the complete list they would yield: `search` and `search_exact`/`search_regex`, `parse_srt_file`, `Storage.list_records`, `Channel.list_videos`, `ContentMixin.list_content`, and the `download_video` generators of the yt-dlp, ragtag and rubyruby tools. Their laziness is not modelled, nor a consumer that stops early. For the downloaders, stopping early does not change what they download, since every download happens before the first `yield`.
- The text written to the ragtag download's `<id>.ragtag.json` (`json.dumps(hit)`) is not modelled; the file is recorded by its name and path only.
- Python raises TypeError when a non-dict is subscripted, as `AsObject` does, and AttributeError when a string method is called on a non-string, as the `AsStr` of the ragtag and rubyruby tools does. The pyannote response is validated by pydantic, whose ValidationError the model reports as TypeError.
- RubyRubyTools.FromData: a name that is not a string is rejected even when the MIME type alone decides the type. Python would then keep the value as the file name, but the model keeps file names as strings.

## Findings

| source | as written | input that shows it | evidently intended | confidence | as-written member | corrected member |
|---|---|---|---|---|---|---|
| holo_subs_search/transcription/searchable_transcription.py:87-89 | `while idx := content[offset:].find(value)` takes the index relative to the resume offset, so the loop ends whenever the next occurrence starts exactly at that offset (the index is 0, which is falsy) | search_exact for "a" in the one-line transcription "ab" yields nothing, and in "xaa" it yields the first "a" and drops the adjacent second one | the loop ends only when `find` returns -1, so every non-overlapping occurrence is yielded, including one at the resume offset | not executed | SearchableTranscription.MatchAtStartIsNeverFound | SearchableTranscription.FixedFindsMatchAtStart |
| holo_subs_search/transcription/searchable_transcription.py:151-152 | the loop guard `index < len(segments)` reads `segments[index + 1]` at the last index | index_to_future_index at the last segment with any delta ≥ 0 raises IndexError | the walk stops at the last segment | not executed | SearchableTranscription.IndexToFutureIndex | SearchableTranscription.IndexToFutureIndexGuarded |
| holo_subs_search/storage/migrations/m_0_1_0.py:116 | the result is built from `metadata`, which the record loops rebind to each record's metadata | a 0.1.0 storage with one channel whose metadata.json is {} returns that channel's converted metadata with version 0.2.0 instead of the storage metadata | the storage metadata with version 0.2.0, as the inline step of `Storage` returns | not executed | Migration010.ReturnsRecordMetadata | Storage.StepKeepsStorageMetadata |
| holo_subs_search/storage/channel.py:59 | `record.create(metadata)` passes the metadata positionally to the keyword-only `create(**kwargs)` | from_holodex for a channel that is not stored raises TypeError and stores nothing | `record.create(**metadata)` | not executed | Channel.NewChannelNeverStored | Channel.NewChannelStored |
| holo_subs_search/storage/video.py:119 | `record.create(metadata)` passes the metadata positionally to the keyword-only `create(**kwargs)` | from_holodex for a video that is not stored raises and stores no video | `record.create(**metadata)` | not executed | Video.NewVideoNeverStored | Video.NewVideoStored |
| holo_subs_search/storage/content_item/base_item.py:20 | `item_type: ClassVar[str]` gets no filter operators, so the `item_type` eq clause that `build_filter` prepends is rejected | `AudioItem.build_filter()`, and hence `audio_sources` on any record, raises ValueError | `item_type` filterable as a string | not executed | ContentMixin.AsWrittenSourcesRaise | ContentMixin.TypeFilterSelects |
