# MTG Arena Tool core, modelled in Dafny

This project models the core of MTG Arena Tool, a companion application for the game
MTG Arena, and proves properties of the model. The core has six parts:

- **The incremental log decoder** (`arena_log_decoder.dfy`, `log_patterns.dfy`). The game
  client's log arrives in chunks of any size. `ArenaLogDecoder` keeps the unconsumed
  `buffer` and the count `bufferDiscarded` of characters already dropped. Each `Append`
  does the following:
  - joins the chunk to the buffer;
  - runs the global label search;
  - classifies each match with `ParseLogEntry` as full, partial or invalid;
  - returns the full entries, in order, each with its absolute stream position (the callback);
  - cuts the consumed prefix, falling back to a trim that keeps the last
    `maxLinesOfAnyPattern` line breaks.

  The regular-expression engine, the JSON scanner `jsonText` and `sha1` are
  function-valued parameters (`Env`). The predicates `ScannerSound`, `MatcherSound` and
  `PatternsAgree` state what the decoder relies on them for. `maxLinesOfAnyPattern` is
  computed from the text of the pattern sources and proved to be 2.
- **The renderer state slice** (`renderer_slice.dfy`). Each reducer is a function
  `ReduceX` from the old state to the new one, with a frame condition (`SameExcept`)
  naming the fields it may change. The class `Renderer` holds the state in fields and
  has one method per reducer, which updates its fields in place so that the new
  `Snapshot()` is `ReduceX` of the old one.
- **The deck colours** (`deck_colors.dfy`). `getDeckColors` collects frame and cost
  colours over the main deck, removes repeats, sorts and stores the result in
  `deck.colors`. The card database and the colour constants are parameters.
- **The timeline arithmetic and season pipeline** (`timeline_tab.dfy`). This covers
  `getRankY`, the timestamp comparator, and `getSeasonData` with the store lookups as
  parameters.
- **`formatRank`** (`format_rank.dfy`) and **`getReadableFormat`** (`readable_format.dfy`),
  with the format table as a map parameter.
- **Shared modules.** `lists.dfy` holds deduplication, filtering and a stable sort,
  `strings.dfy` holds the decimal rendering of numbers, and `wrappers.dfy` holds `Option`.

In the `partial` case (arena-log-decoder.ts lines 58-60) the `break` at line 60 only leaves the `switch`.
The `while` goes on with the next match, so a later match overwrites `bufferUsed`. The
model does the same, and `CutFollowsLastMatch` states the consequence. A `partial` match at
the very start of the buffer sets `bufferUsed` to 0, so the fallback line trim applies and
can cut into that incomplete entry; `PartialAtStartIsTrimmed` states when it does.

## Model

| member | source | states |
|---|---|---|
| LogPatterns.FirstPatternLines | src/background/arena-log-decoder/arena-log-decoder.ts:10 | the source of the first label pattern spells out the line break `\n` exactly twice |
| LogPatterns.SecondPatternLines | src/background/arena-log-decoder/arena-log-decoder.ts:11 | the source of the second label pattern spells out `\n` exactly twice |
| LogPatterns.ArrowPatternLines | src/background/arena-log-decoder/arena-log-decoder.ts:14 | the arrow pattern source spells out no `\n` |
| LogPatterns.Occurrences | src/background/arena-log-decoder/arena-log-decoder.ts:198-201 | `occurrences` is 0 exactly when the needle is written nowhere in the text, and the counted copies, being non-overlapping, fit in the text |
| LogPatterns.OccurrencesFromMeaning | src/background/arena-log-decoder/arena-log-decoder.ts:198-201 | the left-to-right count from a position is positive exactly when the needle occurs at or after it, and the counted copies fit in the rest of the text |
| LogPatterns.MaxLinesOfAnyPattern | src/background/arena-log-decoder/arena-log-decoder.ts:16-20 | the value is at least the line-break count of every pattern source and equal to that of one of them |
| LogPatterns.MaxLinesIsTwo | src/background/arena-log-decoder/arena-log-decoder.ts:16-20 | `maxLinesOfAnyPattern`, the maximum over all three pattern sources, is 2 |
| ArenaLogDecoder.FirstPatternMatch | src/background/arena-log-decoder/arena-log-decoder.ts:141-143 | the plain patterns are tried in table order: the result is the groups of the first one that matches, and nothing exactly when none matches |
| ArenaLogDecoder.ParseLogEntry | src/background/arena-log-decoder/arena-log-decoder.ts:85-196 | the throw exactly when no pattern recognises the label; `partial` exactly when the JSON start is at or past the end, the scanner says incomplete, or no `"\r\n"`/`"\n"` follows the JSON; `invalid` with length `|matchText|` exactly when no JSON starts there; on `full` the length is label + JSON + 2 for `"\r\n"` (checked first) or + 1 for `"\n"`, it stays inside the text, the hash is `sha1` of the JSON text followed by the absolute position, a `label_json` entry carries the JSON text, and the arrow pattern has priority and gives an entry without text |
| ArenaLogDecoder.HashInputsDiffer | src/background/arena-log-decoder/arena-log-decoder.ts:122 | the same JSON text at two different stream positions is hashed from two different strings |
| ArenaLogDecoder.Matches | src/background/arena-log-decoder/arena-log-decoder.ts:41-46 | every match of the global search from a position starts at or after it and ends inside the buffer |
| ArenaLogDecoder.MatchesChained | src/background/arena-log-decoder/arena-log-decoder.ts:41-46 | the matches of the global search from index 0 are non-empty, in order, do not overlap and lie inside the buffer |
| ArenaLogDecoder.MatchesFound | src/background/arena-log-decoder/arena-log-decoder.ts:46 | each match is what `exec` returns when started where the previous match ended (`lastIndex`), and the search after the last one finds nothing |
| ArenaLogDecoder.ChainedOrder | src/background/arena-log-decoder/arena-log-decoder.ts:46 | every match ends before the next one starts |
| ArenaLogDecoder.Run | src/background/arena-log-decoder/arena-log-decoder.ts:47-68 | the `switch` loop throws exactly when some match is unrecognised, and calls back at most once per match |
| ArenaLogDecoder.RunUsedIsLast | src/background/arena-log-decoder/arena-log-decoder.ts:54-68 | when nothing throws, the final `bufferUsed` is the value the last match set (each match overwrites it), or the initial 0 without matches |
| ArenaLogDecoder.RunInOrder | src/background/arena-log-decoder/arena-log-decoder.ts:46-66 | callback positions are strictly increasing and lie in the part of the stream the buffer covers |
| ArenaLogDecoder.RunEntriesClassified | src/background/arena-log-decoder/arena-log-decoder.ts:61-66 | every delivered entry is the `full` classification of one match, at `bufferDiscarded + match.index` |
| ArenaLogDecoder.RunEmitsEveryFull | src/background/arena-log-decoder/arena-log-decoder.ts:61-66 | without a throw, every `full` match is delivered |
| ArenaLogDecoder.SwitchOn | src/background/arena-log-decoder/arena-log-decoder.ts:47-68 | one turn of the loop body: `invalid` and `full` set `bufferUsed` to index + length, `partial` to the index, only `full` calls back, and the throw is reported |
| ArenaLogDecoder.ScanMatches | src/background/arena-log-decoder/arena-log-decoder.ts:44-69 | the `exec` loop returns exactly the entries, final `bufferUsed` and throw flag of the scan specification `ScanBuffer` |
| ArenaLogDecoder.ScanUsedWithin | src/background/arena-log-decoder/arena-log-decoder.ts:54-68 | the final `bufferUsed` never exceeds the buffer length |
| ArenaLogDecoder.ScanEntriesInOrder | src/background/arena-log-decoder/arena-log-decoder.ts:46-66 | the entries of one `append` come out in strictly increasing stream position |
| ArenaLogDecoder.ScanEntriesParsed | src/background/arena-log-decoder/arena-log-decoder.ts:46-66 | each entry is the `full` result of `parseLogEntry` for a match that some search returned, at that match's absolute position |
| ArenaLogDecoder.AllRecognised | src/background/arena-log-decoder/arena-log-decoder.ts:22-27 | when the combined pattern is the alternation of the table, no match reaches the final `throw` |
| ArenaLogDecoder.ScanNeverFails | src/background/arena-log-decoder/arena-log-decoder.ts:193-195 | when the combined pattern is the alternation of the table, the scan never throws and `bufferUsed` is what the last match set |
| ArenaLogDecoder.ScanEmitsEveryFull | src/background/arena-log-decoder/arena-log-decoder.ts:61-66 | when the combined pattern is the alternation of the table, every `full` match calls back with its entry and absolute position |
| ArenaLogDecoder.NthLastIndexOf | src/background/arena-log-decoder/arena-log-decoder.ts:72 | the index of the n-th `"\n"` from the end (that character is a line break, and exactly n of them lie from there on), or -1 exactly when there are fewer than n |
| ArenaLogDecoder.CutPoint | src/background/arena-log-decoder/arena-log-decoder.ts:71-74 | a `bufferUsed` set by some match is kept; otherwise the cut lies at the n-th last line break, or is 0 when there are fewer than n |
| ArenaLogDecoder.TrimKeepsMaxLines | src/background/arena-log-decoder/arena-log-decoder.ts:71-74 | after the fallback trim the kept buffer holds at most n line breaks |
| ArenaLogDecoder.NoLabelKeepsTwoLines | src/background/arena-log-decoder/arena-log-decoder.ts:18-20 | when the buffer holds no label, the kept text holds at most two line breaks |
| ArenaLogDecoder.CutFollowsLastMatch | src/background/arena-log-decoder/arena-log-decoder.ts:54-74 | the scan does not stop at `partial`: a trailing `partial` match that is not at the buffer start is kept from its label on, and an earlier `partial` match followed by a `full` or `invalid` one is cut away |
| ArenaLogDecoder.PartialAtStartIsTrimmed | src/background/arena-log-decoder/arena-log-decoder.ts:58-74 | a trailing `partial` match at index 0 leaves `bufferUsed` at 0, and when the buffer holds `maxLines` line breaks and does not begin with one, the fallback trim drops the start of that incomplete entry |
| ArenaLogDecoder.ScanAndCut | src/background/arena-log-decoder/arena-log-decoder.ts:43-74 | the entries, completion and cut of one `append` are those of `ScanBuffer` and `CutPoint`; nothing is cut when the scan threw |
| ArenaLogDecoder.ArenaLogDecoder.constructor | src/background/arena-log-decoder/arena-log-decoder.ts:33-38 | a fresh decoder has an empty buffer, nothing discarded, and `maxLinesOfAnyPattern` as its line bound |
| ArenaLogDecoder.ArenaLogDecoder.Append | src/background/arena-log-decoder/arena-log-decoder.ts:40-82 | `bufferDiscarded + |buffer|` is the total length appended and `buffer` is the stream from `bufferDiscarded` on; `bufferDiscarded` never decreases; the result is exactly the scan of `buffer + newText` with positions offset by the old `bufferDiscarded`, and the buffer drops exactly the cut |
| Strings.NatToStringInjective | src/background/arena-log-decoder/arena-log-decoder.ts:122 | distinct positions are written as distinct decimal numerals |
| Strings.IntToStringInjective | src/shared/utils/formatRank.ts:8 | distinct integers are written as distinct numerals |
| RendererSlice.Initial | src/shared/redux/slices/rendererSlice.ts:18-66 | `navIndex` and `topNav` are 0, `subNav.type` is -1, the share dialog is closed and `archivedCache` is empty |
| RendererSlice.ReduceBackgroundColor | src/shared/redux/slices/rendererSlice.ts:74-79 | `backgroundColor` becomes the payload and every other field is unchanged |
| RendererSlice.ReduceBackgroundGrpId | src/shared/redux/slices/rendererSlice.ts:80-85 | `backgroundGrpId` becomes the payload and every other field is unchanged |
| RendererSlice.ReduceBackgroundImage | src/shared/redux/slices/rendererSlice.ts:86-91 | `backgroundImage` becomes the payload and every other field is unchanged |
| RendererSlice.ReduceDetailedLogsDialog | src/shared/redux/slices/rendererSlice.ts:92-97 | `detailedLogsDialog` becomes the payload and every other field is unchanged |
| RendererSlice.ReduceLoading | src/shared/redux/slices/rendererSlice.ts:98-103 | `loading` becomes the payload and every other field is unchanged |
| RendererSlice.ReduceNoLog | src/shared/redux/slices/rendererSlice.ts:104-106 | `noLog` becomes the payload and every other field is unchanged |
| RendererSlice.ReduceOffline | src/shared/redux/slices/rendererSlice.ts:107-112 | `offline` becomes the payload and every other field is unchanged |
| RendererSlice.ReducePatreon | src/shared/redux/slices/rendererSlice.ts:113-118 | `patreon` becomes the payload and every other field is unchanged |
| RendererSlice.ReduceRole | src/shared/redux/slices/rendererSlice.ts:119-124 | `role` becomes the payload and every other field is unchanged |
| RendererSlice.ReducePopup | src/shared/redux/slices/rendererSlice.ts:125-130 | `popup` becomes the payload and every other field is unchanged |
| RendererSlice.ReduceTopArtist | src/shared/redux/slices/rendererSlice.ts:158-163 | `topArtist` becomes the payload and every other field is unchanged |
| RendererSlice.ReduceNavIndex | src/shared/redux/slices/rendererSlice.ts:168-173 | `navIndex` becomes the payload and every other field is unchanged |
| RendererSlice.ReduceAuthSettings | src/shared/redux/slices/rendererSlice.ts:174-179 | `authSettings` becomes the payload and every other field is unchanged |
| RendererSlice.ReduceFormats | src/shared/redux/slices/rendererSlice.ts:180-185 | `formats` becomes the payload and every other field is unchanged |
| RendererSlice.ReduceUpdateState | src/shared/redux/slices/rendererSlice.ts:186-191 | `updateState` becomes the payload and every other field is unchanged |
| RendererSlice.ReduceSyncState | src/shared/redux/slices/rendererSlice.ts:201-206 | `syncState` becomes the payload and every other field is unchanged |
| RendererSlice.ReduceSyncToPush | src/shared/redux/slices/rendererSlice.ts:207-212 | `syncToPush` becomes the payload and every other field is unchanged |
| RendererSlice.ReduceSeason | src/shared/redux/slices/rendererSlice.ts:213-218 | `season` becomes the payload and every other field is unchanged |
| RendererSlice.ReduceRewardsDailyEnds | src/shared/redux/slices/rendererSlice.ts:219-224 | `rewards_daily_ends` becomes the payload and every other field is unchanged |
| RendererSlice.ReduceRewardsWeeklyEnds | src/shared/redux/slices/rendererSlice.ts:225-230 | `rewards_weekly_ends` becomes the payload and every other field is unchanged |
| RendererSlice.ReduceShareDialog | src/shared/redux/slices/rendererSlice.ts:131-137 | each field the patch carries overwrites the dialog's, the others stay, `open` becomes true whatever the patch says, and no other state field changes |
| RendererSlice.ReduceShareDialogOpen | src/shared/redux/slices/rendererSlice.ts:138-143 | only `shareDialog.open` changes, to the payload |
| RendererSlice.ReduceShareDialogUrl | src/shared/redux/slices/rendererSlice.ts:144-149 | only `shareDialog.url` changes, to the payload |
| RendererSlice.ReduceSubNav | src/shared/redux/slices/rendererSlice.ts:150-157 | `subNav` becomes the payload; `navIndex` is 0 exactly when the payload type is -1 and 1 exactly when it is not; nothing else changes |
| RendererSlice.ReduceTopNav | src/shared/redux/slices/rendererSlice.ts:164-167 | `topNav` becomes the payload, `navIndex` is reset to 0, nothing else changes |
| RendererSlice.ReduceArchived | src/shared/redux/slices/rendererSlice.ts:192-200 | an empty id changes nothing; otherwise `archivedCache[id]` becomes the flag, every other id keeps its presence and value, and nothing else changes |
| RendererSlice.ShareDialogIdempotent | src/shared/redux/slices/rendererSlice.ts:131-137 | applying the same `setShareDialog` patch twice is applying it once |
| RendererSlice.Renderer.constructor | src/shared/redux/slices/rendererSlice.ts:18-66 | the store starts in `initialRendererState` |
| RendererSlice.Renderer.SetBackgroundColor | src/shared/redux/slices/rendererSlice.ts:74-79 | updating the fields in place yields exactly the state `ReduceBackgroundColor` gives from the old state |
| RendererSlice.Renderer.SetBackgroundGrpId | src/shared/redux/slices/rendererSlice.ts:80-85 | updating the fields in place yields exactly the state `ReduceBackgroundGrpId` gives from the old state |
| RendererSlice.Renderer.SetBackgroundImage | src/shared/redux/slices/rendererSlice.ts:86-91 | updating the fields in place yields exactly the state `ReduceBackgroundImage` gives from the old state |
| RendererSlice.Renderer.SetDetailedLogsDialog | src/shared/redux/slices/rendererSlice.ts:92-97 | updating the fields in place yields exactly the state `ReduceDetailedLogsDialog` gives from the old state |
| RendererSlice.Renderer.SetLoading | src/shared/redux/slices/rendererSlice.ts:98-103 | updating the fields in place yields exactly the state `ReduceLoading` gives from the old state |
| RendererSlice.Renderer.SetNoLog | src/shared/redux/slices/rendererSlice.ts:104-106 | updating the fields in place yields exactly the state `ReduceNoLog` gives from the old state |
| RendererSlice.Renderer.SetOffline | src/shared/redux/slices/rendererSlice.ts:107-112 | updating the fields in place yields exactly the state `ReduceOffline` gives from the old state |
| RendererSlice.Renderer.SetPatreon | src/shared/redux/slices/rendererSlice.ts:113-118 | updating the fields in place yields exactly the state `ReducePatreon` gives from the old state |
| RendererSlice.Renderer.SetRole | src/shared/redux/slices/rendererSlice.ts:119-124 | updating the fields in place yields exactly the state `ReduceRole` gives from the old state |
| RendererSlice.Renderer.SetPopup | src/shared/redux/slices/rendererSlice.ts:125-130 | updating the fields in place yields exactly the state `ReducePopup` gives from the old state |
| RendererSlice.Renderer.SetShareDialog | src/shared/redux/slices/rendererSlice.ts:131-137 | updating the fields in place yields exactly the state `ReduceShareDialog` gives from the old state |
| RendererSlice.Renderer.SetShareDialogOpen | src/shared/redux/slices/rendererSlice.ts:138-143 | updating the fields in place yields exactly the state `ReduceShareDialogOpen` gives from the old state |
| RendererSlice.Renderer.SetShareDialogUrl | src/shared/redux/slices/rendererSlice.ts:144-149 | updating the fields in place yields exactly the state `ReduceShareDialogUrl` gives from the old state |
| RendererSlice.Renderer.SetSubNav | src/shared/redux/slices/rendererSlice.ts:150-157 | updating the fields in place yields exactly the state `ReduceSubNav` gives from the old state |
| RendererSlice.Renderer.SetTopArtist | src/shared/redux/slices/rendererSlice.ts:158-163 | updating the fields in place yields exactly the state `ReduceTopArtist` gives from the old state |
| RendererSlice.Renderer.SetTopNav | src/shared/redux/slices/rendererSlice.ts:164-167 | updating the fields in place yields exactly the state `ReduceTopNav` gives from the old state |
| RendererSlice.Renderer.SetNavIndex | src/shared/redux/slices/rendererSlice.ts:168-173 | updating the fields in place yields exactly the state `ReduceNavIndex` gives from the old state |
| RendererSlice.Renderer.SetAuthSettings | src/shared/redux/slices/rendererSlice.ts:174-179 | updating the fields in place yields exactly the state `ReduceAuthSettings` gives from the old state |
| RendererSlice.Renderer.SetFormats | src/shared/redux/slices/rendererSlice.ts:180-185 | updating the fields in place yields exactly the state `ReduceFormats` gives from the old state |
| RendererSlice.Renderer.SetUpdateState | src/shared/redux/slices/rendererSlice.ts:186-191 | updating the fields in place yields exactly the state `ReduceUpdateState` gives from the old state |
| RendererSlice.Renderer.SetArchived | src/shared/redux/slices/rendererSlice.ts:192-200 | updating the fields in place yields exactly the state `ReduceArchived` gives from the old state |
| RendererSlice.Renderer.SetSyncState | src/shared/redux/slices/rendererSlice.ts:201-206 | updating the fields in place yields exactly the state `ReduceSyncState` gives from the old state |
| RendererSlice.Renderer.SetSyncToPush | src/shared/redux/slices/rendererSlice.ts:207-212 | updating the fields in place yields exactly the state `ReduceSyncToPush` gives from the old state |
| RendererSlice.Renderer.SetSeason | src/shared/redux/slices/rendererSlice.ts:213-218 | updating the fields in place yields exactly the state `ReduceSeason` gives from the old state |
| RendererSlice.Renderer.SetRewardsDailyEnds | src/shared/redux/slices/rendererSlice.ts:219-224 | updating the fields in place yields exactly the state `ReduceRewardsDailyEnds` gives from the old state |
| RendererSlice.Renderer.SetRewardsWeeklyEnds | src/shared/redux/slices/rendererSlice.ts:225-230 | updating the fields in place yields exactly the state `ReduceRewardsWeeklyEnds` gives from the old state |
| DeckColors.IgnoredEntry | src/shared/utils/getDeckColors.ts:10-18 | an entry with no copies, or whose card the database does not know, changes nothing wherever it is inserted in the deck |
| DeckColors.KnownCardContribution | src/shared/utils/getDeckColors.ts:20-38 | a land with fewer than three frame colours contributes all of them; any other card contributes exactly the colours of its cost symbols |
| DeckColors.CostColorsFromSymbols | src/shared/utils/getDeckColors.ts:26-38 | a colour comes from the cost exactly when some symbol among `w`, `u`, `b`, `r`, `g` stands for it; other symbols contribute nothing |
| DeckColors.CollectedIsUnion | src/shared/utils/getDeckColors.ts:9-39 | the collected colours are exactly the union of the entries' contributions |
| DeckColors.AddEntryColors | src/shared/utils/getDeckColors.ts:9-39 | the `forEach` callback appends exactly the entry's contribution, frame colours first, then cost colours in order |
| DeckColors.ComputeDeckColors | src/shared/utils/getDeckColors.ts:6-44 | the result is strictly ascending (so without repeats) and holds exactly the colours the main deck contributes |
| DeckColors.AscendingUnique | src/shared/utils/getDeckColors.ts:41-44 | two strictly ascending lists with the same values are equal, so the result depends only on the set of contributed colours |
| DeckColors.Deck.constructor | src/shared/utils/getDeckColors.ts:6 | a deck with the given main deck and no colours yet |
| DeckColors.Deck.GetDeckColors | src/shared/utils/getDeckColors.ts:6-54 | `deck.colors` is set to the returned array, `mainDeck` is untouched, and the array is strictly ascending with exactly the contributed colours |
| Lists.Dedupe | src/shared/utils/getDeckColors.ts:41 | the result holds the same values as the input, each once |
| Lists.SortBy | src/shared/utils/getDeckColors.ts:42-44 | the result is sorted by the key and is a permutation of the input |
| Lists.SortedDistinctAscending | src/shared/utils/getDeckColors.ts:41-44 | sorted ascending and without repeats means strictly ascending |
| Lists.FlatMapMembership | src/shared/utils/getDeckColors.ts:9-39 | a value is in the concatenation of the parts exactly when some part holds it |
| TimelineTab.SortByTimestamp | src/window_main/tabs/TimelineTab.tsx:27-29 | the comparator is negative, zero or positive exactly as the first timestamp is below, equal to or above the second |
| TimelineTab.GetRankY | src/window_main/tabs/TimelineTab.tsx:37-64 | the k-th class of Bronze, Silver, Gold, Platinum, Diamond, Master, Mythic gives `24*k + 6*(4 - tier) + steps`; an unknown class gives `6*(4 - tier) + steps` |
| TimelineTab.UnknownClassIsBronze | src/window_main/tabs/TimelineTab.tsx:38-61 | an unknown class name is placed exactly like Bronze |
| TimelineTab.NextClassIsHigher | src/window_main/tabs/TimelineTab.tsx:39-63 | one class up at the same tier and step is 24 higher |
| TimelineTab.TierAndStepOffsets | src/window_main/tabs/TimelineTab.tsx:63 | a tier number one lower is 6 higher, and steps add linearly |
| TimelineTab.Morph | src/window_main/tabs/TimelineTab.tsx:87-93 | both rank positions are `getRankY` of the old and new class, level and step, and no other field changes |
| TimelineTab.ResolvedOrdinal | src/window_main/tabs/TimelineTab.tsx:79-80 | a given non-zero season ordinal is used; otherwise the player's current ordinal for the kind, or the error when the player has no rank of that kind |
| TimelineTab.SeasonKeyInjective | src/window_main/tabs/TimelineTab.tsx:82 | different seasons of one kind look up different keys |
| TimelineTab.Records | src/window_main/tabs/TimelineTab.tsx:97-98 | each id is looked up and morphed, in order |
| TimelineTab.GetSeasonData | src/window_main/tabs/TimelineTab.tsx:73-100 | the error exactly when the ordinal cannot be resolved, an empty list when the season key is missing, and otherwise exactly `SeasonRecords` of the season's listed ids (the deduplicated existing ids, morphed and sorted by timestamp) |
| TimelineTab.SeasonRecordsInTimeOrder | src/window_main/tabs/TimelineTab.tsx:99 | the comparator never puts a later record before an earlier one |
| TimelineTab.SeasonRecordsPermutation | src/window_main/tabs/TimelineTab.tsx:85-99 | the result is a reordering of the morphed records of the deduplicated existing ids, and those ids have no repeats |
| TimelineTab.SeasonRecordsMembers | src/window_main/tabs/TimelineTab.tsx:95-99 | a record is in the result exactly when some listed id for which `seasonalExists` holds has it as its morphed stored record |
| TimelineTab.RecordsMembers | src/window_main/tabs/TimelineTab.tsx:97-98 | a record is among the looked-up ones exactly when one of the ids maps to it |
| TimelineTab.FilterOfDistinct | src/window_main/tabs/TimelineTab.tsx:85-96 | filtering ids without repeats leaves ids without repeats |
| Lists.DedupeKeepsFirstOrder | src/window_main/tabs/TimelineTab.tsx:85 | the deduplicated ids appear in the order of their first occurrences |
| Lists.FirstIndex | src/window_main/tabs/TimelineTab.tsx:85 | `indexOf`: the first position holding the value |
| Lists.Filter | src/window_main/tabs/TimelineTab.tsx:96 | only kept values remain, and no value is added |
| Lists.FilterKeepsAll | src/window_main/tabs/TimelineTab.tsx:96 | every value that passes the test survives |
| Lists.FilterMembers | src/window_main/tabs/TimelineTab.tsx:96 | a value survives exactly when it is in the input and passes the test |
| Lists.SortByMembers | src/window_main/tabs/TimelineTab.tsx:99 | sorting neither adds nor loses a value |
| FormatRank.FormatRank | src/shared/utils/formatRank.ts:4-14 | a set leaderboard place gives `"Mythic #" + place` whatever the percentile; otherwise a set percentile gives `"Mythic " + percentile + "%"`; otherwise `rank + " " + tier` |
| FormatRank.LeaderboardLabelInjective | src/shared/utils/formatRank.ts:7-9 | leaderboard labels are equal only for the same place |
| FormatRank.PercentileLabelInjective | src/shared/utils/formatRank.ts:10-12 | percentile labels are equal only for the same percentile |
| FormatRank.LeaderboardIsNotPercentile | src/shared/utils/formatRank.ts:7-12 | a leaderboard label never equals a percentile label |
| ReadableFormat.GetReadableFormat | src/shared/utils/getReadableFormat.ts:3-8 | a key of the table gives its name, even the empty key; otherwise a non-empty code is returned unchanged and the empty code gives "Unknown" |
| ReadableFormat.ReadableFormatNonEmpty | src/shared/utils/getReadableFormat.ts:4-7 | with non-empty names in the table, every result is non-empty |
| ReadableFormat.ReadableFormatOrigins | src/shared/utils/getReadableFormat.ts:4-7 | a result is a name from the table, the code itself or "Unknown", and a code the table lacks comes back unchanged or as "Unknown" |
| ReadableFormat.ReadableFormatLocal | src/shared/utils/getReadableFormat.ts:4-7 | the display name of a code depends only on the table's entry for that code: tables that agree on it give the same name, and a table without it gives what the empty table gives |

## Left out

- Regular-expression internals are not modelled: building `logEntryPattern`, `lastIndex` handling inside `exec`, and extracting named groups. The search and the pattern matches are parameters of `Env`, and `PatternsAgree` states the one fact used, that the combined pattern is the alternation of the table.
- `jsonText.starts` and `jsonText.length`: their code is not part of this model. They are parameters, and `ScannerSound` bounds the length inside the text.
- `nthLastIndexOf`: its code is not part of this model. It is written here from its use: the index of the n-th last occurrence, or -1.
- `sha1` is an uninterpreted parameter. `JSON.parse` and the lazy `json()` accessor of an entry, with its error logging, are not modelled.
- `_.mapValues(rematches.groups, unleakString)` becomes the captured groups themselves. `unleakString` and `unleakRegExp` only release memory, so they are the identity and a no-op.
- The callback is not modelled as a call. `Append` returns the sequence of entries it would receive, in call order.
- Concurrency and re-entrancy of `append` are not modelled: calls are sequential.
- `ArenaLogDecoder.ArenaLogDecoder.Append`: when `parseLogEntry` throws, the model returns `completed == false` and keeps the joined buffer with nothing discarded. This is the state the exception leaves. The exception itself does not propagate.
- ArenaLogDecoder.ParseLogEntry / Append: text is a Dafny `string`, a sequence of Unicode characters, while JavaScript's `match.index`, `length`, `substr`, `bufferDiscarded` and `position` count UTF-16 code units. After a character outside the Basic Multilingual Plane (an emoji, say), which is two code units and one character, every later `position`, the hash input `json + position` built from it, and `bufferDiscarded` are smaller in the model than in the program. A chunk that ends between the two halves of a surrogate pair cannot be represented. For text in the Basic Multilingual Plane the two counts agree.
- ArenaLogDecoder.Append: the fallback trim after a `partial` match at index 0 can cut into that incomplete entry when its text spans more than `maxLinesOfAnyPattern` lines, so the entry is then lost. The model does what the code does, and `PartialAtStartIsTrimmed` states it; no trim that keeps such an entry is modelled.
- `maxLinesOfAnyPattern` is a module constant in the source. In the model it is a constant field of the decoder, set from `MaxLinesOfAnyPattern()`, which is proved to be 2.
- Strings.NatToString: numbers are rendered in plain decimal. JavaScript's exponent notation for values of 10^21 and more is not modelled.
- RendererSlice.ReduceShareDialog: a patch property that is present but explicitly `undefined` overwrites the field in `Object.assign`. The model treats an absent and an undefined property alike and keeps the old value.
- The Redux Toolkit machinery (`createSlice`, the action creators, immutable updates through drafts) is not modelled. Each reducer is the update it performs on the state. The `any`-typed `data` values, the `SeasonAndRankDetail` record in `season` and the `Format` records in `formats` (a `map<string, Value>` here) are abstracted to a small JSON-like `Value` datatype, and the source's `type` fields of `shareDialog` and `subNav` are named `kind`.
- DeckColors.ComputeDeckColors: the `try`/`catch` that turns a thrown error into an empty list is not modelled. With typed card data nothing in the body can throw, and the debug log is output. The source's `type` field of card data is named `typeLine`.
- TimelineTab.Morph: `morphData` changes the stored record in place, so later lookups of the same id see the new fields. The model returns an updated copy. The `date` field, set from the timestamp through `Date`, is not modelled.
- TimelineTab.GetSeasonData: the default `type = "constructed"` is not modelled; `kind` must always be given, as the only call site (TimelineTab.tsx line 235) always passes it.
- TimelineTab.GetSeasonData: season ordinals and timestamps are integers, so NaN and fractional values are not modelled. When the player's rank data has no `seasonOrdinal`, the key would end in `undefined`; this is not modelled. The sort's stability is implemented by `SortBy` (insertion in input order) but not stated as a property.
- The React components of the timeline tab, and the remaining context files, are not part of this model.
- FormatRank.FormatRank: leaderboard places, percentiles and tiers are integers. A fractional percentile, which JavaScript would print with a decimal point, is not modelled.
- ReadableFormat.GetReadableFormat: the `in` test also finds keys inherited from `Object.prototype`, such as `"toString"`. The model looks only at the table's own entries.
