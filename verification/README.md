# oxplow: models and proofs

Dafny models of the parts of oxplow where many things can happen in many orders, or
where an algorithm is easy to get wrong, with proofs of what each part promises.

| files | what they model |
|---|---|
| `PageRunStore`, `PageRunWorld`, `PageRunInvariants`, `PageRunEffects`, `PageRunSteps`, `PageRunTheorems`, `PageRunAnswers`, `PageRunRows`, `PageRunKept`, `PageRuns` | the window's store of page runs: shared entries, the opening, operation and seq fences, coalesced fetches, early changes, reconnect and reopen |
| `LineDiff` | the line diff behind the editor's gutter |
| `WhenParser`, `WhenCursor`, `WhenLexer`, `WhenText`, `WhenLexemes`, `WhenErrors` | a command's `when` clause, from characters to expression and back |
| `TextEdits`, `TextPlaces` | applying LSP text edits to a plain text |
| `Redact`, `RedactTwice` | taking a key out of a text where it stands whole |
| `StreamParts`, `FixtureModel` | the deltas a reply streams as, and the scripted model that streams them |
| `FileEvents`, `FileEventWatch` | following renames and deletes in the event log |
| `DocumentSync` | the language servers' copies of the open documents |
| `BuildTree` | the files a build embeds and the folders it watches |
| `ScanMemo`, `TitleCache` | the terminal scanner's memo and the wiki title cache |
| `AiRoles` | which provider and model a role resolves to |

## How the page-run store is modelled

`PageRunStore.Store` is the store's state as a value, with one function for each
stretch of code that runs without a pause: an open's answer, a change, a flush and its
answer, a rerun's start, its run id, its answer, a handle closed, the close timer, a
reconnect, a reopen. `PageRuns` is the same store as objects updated in place; each of
its methods leaves the object in the state that function gives.

`PageRunWorld.World` puts around the store the messages under way and a daemon that
has a version for each run. Its steps interleave freely: answers come in any order or
fail, timers fire at any time, hosts open, hide and close pages as they like. What is
assumed of the daemon: it never gives a run id twice; an answer carries the version the
run had at some moment between the request and the answer; each change of a run raises
its seq; a change is announced only once it has happened. `PageRunInvariants.Inv` is an
invariant that each of the 21 steps keeps (`PageRunSteps.StepKeeps`); the theorems are
about every finite run of steps from a new store.

The other protocols (`FileEventWatch`, `DocumentSync`, `TitleCache`) are modelled alike:
a class with the code's fields, functions that say what each method does to them, and a
world whose every run is quantified over.

## Where the code differs from what it says

- Several insertions at one offset are applied last first, so they come out in reverse
  array order; version 3.17 of the Language Server Protocol ("TextEdit[]") asks for
  array order. `TextEdits.LspOrderIff` says exactly when the two agree.
- `watchFileEvents` reads one page for each notice it does not drop, so a rename can
  wait for the next commit to the log: `FileEventWatch.NoticeCanBeLost` is such a run,
  and `FileEventWatch.AnswerCatchesUpIff` says when a read leaves nothing behind.
- The follower relies on the log's payload validation (`insert_tx`,
  `crates/oxplow-db/src/event_log_store.rs:119-125`): a row whose payload were the JSON
  value `null` would make `fileEventsFromRows` throw and be read again for good
  (`FileEventWatch.NullIsNeverPassed`). Validated rows carry objects, and with those no
  answer throws: `FileEventWatch.NoAnswerThrows`, `FileEventWatch.CheckedRoundsCatchUp`.
- Redacting twice is not redacting once for every key. When one end of the key is a key
  character and the other is not, as in `a=`, the mark's bracket makes a neighbouring
  occurrence whole that was not (`RedactTwice.PaddedKeyIsLeft`); when the mark
  shows in the key (the word `redacted`, with the mark's brackets around it as far as
  the key reaches), the mark put in can complete the key again.
  `RedactTwice.RedactingTwiceKeepsIff` is the exact condition.

## Model

| member | source | states |
|---|---|---|
| PageRunTheorems.ScreenNeverGoesBack | apps/desktop/src/pageRuns.ts:172-236 | in every run of the store and its daemon, while an entry is live and in one opening, the run id it holds stays and the version of its rows on screen never goes down |
| PageRunTheorems.StepOnward | apps/desktop/src/pageRuns.ts:184-235 | the same for one step: whatever answers, in whatever order, no entry shows older rows of the opening it is in |
| PageRunTheorems.NothingAnnouncedIsLost | apps/desktop/src/pageRuns.ts:122-169 | when the fetches of a run succeed, then whenever no flush is armed and no fetch is out every run held has applied at least the newest change announced for it, before its open's answer or after, past the early buffer too, and shows rows that new |
| PageRunTheorems.AnnouncementsApplied | apps/desktop/src/pageRuns.ts:172-250 | the same without that assumption, for each run whose newest fetch, the last one sent that asked for it, did not fail or leave it out |
| PageRunAnswers.NoAnswerIsLost | apps/desktop/src/pageRuns.ts:136-235 | when the fetches of a run succeed, every answer that comes in for an entry within its fences, of its open, of `setParams` or `rerun`, or of a fetch, is on screen, or a newer version is, whenever no flush is armed, no fetch is out and the entry still holds the run |
| PageRunAnswers.AnswersReachTheScreen | apps/desktop/src/pageRuns.ts:136-235 | the same without that assumption, for each run whose newest fetch did not fail or leave it out |
| PageRunAnswers.RerunComes | apps/desktop/src/pageRuns.ts:217-235 | in the step it comes in, the answer of an operation in its fences is what the entry shows, unmarked and with no error, or the run is to be fetched anew |
| PageRunAnswers.FetchComes | apps/desktop/src/pageRuns.ts:184-195 | in the step it comes in, a fetch's answer for a run held is what its entry shows, unmarked and with no error, or the run is to be fetched anew, or a later fetch was applied before |
| PageRunAnswers.OldNewsIsDropped | apps/desktop/src/pageRuns.ts:238-250 | an announcement of nothing newer than what is applied changes nothing, nor does one of an unknown run while no open is out |
| PageRunRows.RowsCameFrom | apps/desktop/src/pageRuns.ts:136-235 | in every run, the rows a live entry shows are those of an answer that came in for it within its fences, or those kept for its page when it was opened |
| PageRunRows.ErrorCameFrom | apps/desktop/src/pageRuns.ts:157-235 | in every run, the error a live entry shows is that of a failure that came in for it within its fences, and its rows are those it had then |
| PageRunRows.StepExplains | apps/desktop/src/pageRuns.ts:127-376 | in one step a live entry's rows change only to those of an answer that comes in for it, which clears the error, and its error only to that of a failure, which leaves the rows |
| PageRunRows.FailureIsShown | apps/desktop/src/pageRuns.ts:157-235 | a failure within its fences is shown over the rows there were, unmarked |
| PageRunRows.OthersMark | apps/desktop/src/pageRuns.ts:200-265 | nothing but an answer, a failure or an operation without a run unmarks an entry; an operation, and opening it again, marks it stale |
| PageRunKept.KeepsTheLastClosed | apps/desktop/src/pageRuns.ts:333-342 | in every run, the rows kept for a page are those it last closed with, for exactly the 32 pages that closed last |
| PageRunKept.ComesBackWithItsRows | apps/desktop/src/pageRuns.ts:267-300 | a page opened anew shows those rows, marked stale, and no others |
| PageRunTheorems.NoneLeftStale | apps/desktop/src/pageRuns.ts:200-236 | once every open has settled and no rerun is out, no live entry is marked stale |
| PageRunTheorems.OwnedExactlyOnce | apps/desktop/src/pageRuns.ts:136-163 | every run id the daemon returned is held by one entry, or was dropped by a reconnect or reopen, or has had exactly one close issued, or has one due: exactly one of the four, even when the last release races the open |
| PageRunTheorems.RosterIsOneToOne | apps/desktop/src/pageRuns.ts:115-125 | the map by run id is one-to-one with the live entries that hold a run, each under its own id |
| PageRunTheorems.HandlesAreCounted | apps/desktop/src/pageRuns.ts:267-350 | `refs` and `shown` are the numbers of unclosed and of visible handles; an entry with a handle is live; a live entry has its close timer armed exactly when no handle is left |
| PageRunTheorems.BuffersAreBounded | apps/desktop/src/pageRuns.ts:106-125 | at most 32 closed runs and 1024 early changes are kept; something is pending exactly when a flush is armed; with no open out the early buffer is empty |
| PageRunTheorems.LiveShows | apps/desktop/src/pageRuns.ts:136-196 | an entry is live exactly while the promise it waits on is of its current opening; a live one with a run shows rows of that run, no older than its `seq` and no newer than the daemon's |
| PageRunSteps.StepKeeps | apps/desktop/src/pageRuns.ts:127-376 | each of the 21 steps keeps the whole invariant |
| PageRunTheorems.RunKeeps | apps/desktop/src/pageRuns.ts:115-382 | the invariant holds throughout every run |
| PageRunInvariants.StartsWell | apps/desktop/src/pageRuns.ts:115-125 | a new store is in the invariant |
| PageRuns.PageRuns.Start | apps/desktop/src/pageRuns.ts:136-139 | starting an entry advances its opening and promise and counts the open; nothing else of the store changes |
| PageRuns.PageRuns.OpenAnswered | apps/desktop/src/pageRuns.ts:140-156 | an open's answer is refused (its run is to be closed) when the entry has moved on; else it becomes the entry's run, and a fetch is armed when a change came early or the early buffer overflowed |
| PageRuns.PageRuns.OpenFailed | apps/desktop/src/pageRuns.ts:157-162 | a failed open leaves the rows, sets the error and unmarks them, unless the entry has moved on |
| PageRuns.PageRuns.OpenSettled | apps/desktop/src/pageRuns.ts:163-169 | the last open to settle empties the early buffer |
| PageRuns.PageRuns.Changed | apps/desktop/src/pageRuns.ts:238-250 | a change of a run not held is kept only while an open is out, up to 1024 runs and then as overflow; of one held it arms a fetch when newer than what is applied |
| PageRuns.PageRuns.FlushStarted | apps/desktop/src/pageRuns.ts:172-177 | a flush takes all that is pending, each run once, with the operation its entry was at |
| PageRuns.PageRuns.FlushAnswered | apps/desktop/src/pageRuns.ts:184-195 | an answer is dropped when older than what is applied, deferred when an operation moved meanwhile, else shown |
| PageRuns.PageRuns.RerunStarted | apps/desktop/src/pageRuns.ts:200-208 | a rerun advances the operation, captures the fences and marks the rows stale |
| PageRuns.PageRuns.RerunReady | apps/desktop/src/pageRuns.ts:209-216 | the request is sent only within the same opening and operation and with a run; with none, the rows are unmarked and the operation advances |
| PageRuns.PageRuns.RerunAnswered | apps/desktop/src/pageRuns.ts:217-235 | an answer out of its fences, or of another run, changes nothing; one overtaken by a newer fetch is dropped and fetched again; else it is shown; the operation advances after it |
| PageRuns.PageRuns.ReopenEntry | apps/desktop/src/pageRuns.ts:253-258 | what is shown stays, marked stale, of no run, and a new open starts |
| PageRuns.PageRuns.Reconnected | apps/desktop/src/pageRuns.ts:260-265 | every run id is forgotten and every live entry reopened once, in whatever order |
| PageRuns.PageRuns.Reopen | apps/desktop/src/pageRuns.ts:367-375 | each of the ids still held is forgotten and its entry reopened; others are passed over |
| PageRuns.PageRuns.Open | apps/desktop/src/pageRuns.ts:267-300 | a page already open is shared and its close timer disarmed; else a new entry starts with the rows kept for its key, marked stale |
| PageRuns.PageRuns.SetVisible | apps/desktop/src/pageRuns.ts:314-319 | a closed handle or an unchanged visibility changes nothing; else `shown` follows |
| PageRuns.PageRuns.Close | apps/desktop/src/pageRuns.ts:327-333 | a handle closes once; the last one arms the close timer |
| PageRuns.PageRuns.CloseTimerRan | apps/desktop/src/pageRuns.ts:333-347 | with a handle back nothing happens; else the entry leaves the map, its rows are kept, its opening is fenced off and its run is let go of; the promise whose run is to be closed is handed out |
| LineDiff.LcsTable | apps/desktop/src/editor-diff.ts:33-41 | every cell of the table is the length of the longest common subsequence of the two prefixes |
| LineDiff.BacktrackMarks | apps/desktop/src/editor-diff.ts:42-51 | the marks are those of one backtrack through that table |
| LineDiff.ScriptIsShortest | apps/desktop/src/editor-diff.ts:33-51 | the unmarked lines of both sides are equal in order and as many as the longest common subsequence; no valid script keeps more or marks fewer |
| LineDiff.NoneKeepsMore | apps/desktop/src/editor-diff.ts:35-41 | no pair of equal subsequences is longer than the table says |
| LineDiff.EqualIffUnmarked | apps/desktop/src/editor-diff.ts:42-51 | two sides are equal exactly when nothing is marked |
| LineDiff.PairOrEnd | apps/desktop/src/editor-diff.ts:80-88 | with no mark at either pointer, both are at their ends or both are on equal lines: the walk is in step with the script |
| LineDiff.Walk | apps/desktop/src/editor-diff.ts:65-91 | a line is told exactly when it is added, "modified" exactly when its gap between kept pairs holds a deletion too, and `deletedBefore` marks exactly the gaps that only delete; at most m + n turns are taken |
| LineDiff.DiffLineKinds | apps/desktop/src/editor-diff.ts:27-92 | up to 5000 lines a side the result describes the shortest script in those terms; past that it is empty |
| LineDiff.EqualIffNothingSaid | apps/desktop/src/editor-diff.ts:27-92 | for a result that describes the script, which is any up to 5000 lines a side: two sides get no decoration exactly when they are equal |
| WhenParser.ParsesExactlyTheGrammar | apps/desktop/src/when.ts:1-12 | a token list parses to an expression exactly when the grammar derives that expression from all of it: `!`, then `&&`, then `||`, the last two to the left; a value is a quoted text, a flag for the words `true` and `false`, else the word's own text; flags are among `i`, `m`, `s` |
| WhenParser.GrammarIsUnambiguous | apps/desktop/src/when.ts:155-222 | no token list says two expressions |
| WhenCursor.Cursor.ParseOr | apps/desktop/src/when.ts:160-167 | the shared-cursor loop for `||` gives what the recursive reading gives, and leaves the cursor after it |
| WhenCursor.Cursor.ParseAnd | apps/desktop/src/when.ts:168-175 | the same for `&&` |
| WhenCursor.Cursor.ParseUnary | apps/desktop/src/when.ts:176-182 | the same for `!` |
| WhenCursor.Cursor.ParsePrimary | apps/desktop/src/when.ts:183-196 | the same for parentheses, literals and keys, with the errors |
| WhenCursor.Cursor.ParseComparison | apps/desktop/src/when.ts:197-217 | the same for `==`, `!=` and `=~`, with the errors |
| WhenCursor.Cursor.Parse | apps/desktop/src/when.ts:218-221 | the whole list must be read |
| WhenLexer.Tokens | apps/desktop/src/when.ts:49-141 | the index loop gives the tokens the recursive reading of the characters gives, or its error |
| WhenLexer.ScanPattern | apps/desktop/src/when.ts:83-102 | the pattern up to its closing `/`, an escaped `/` unescaped and other escapes kept |
| WhenLexemes.LexIffReads | apps/desktop/src/when.ts:49-141 | the tokens of a text are exactly those its lexemes say: the one cut into white space, marks, words as long as can be, quoted texts and `=~` with its pattern and flags |
| WhenLexemes.LexStopsIff | apps/desktop/src/when.ts:49-141 | the tokenizer's error is exactly what is wrong where, past some lexemes, no lexeme begins |
| WhenLexemes.WordCharsAre | apps/desktop/src/when.ts:32-32 | the characters of words |
| WhenLexemes.FlagCharsAre | apps/desktop/src/when.ts:103-104 | the characters read as flags |
| WhenLexemes.ParsesWhatTheTextSays | apps/desktop/src/when.ts:155-222 | a text parses to an expression exactly when its lexemes say tokens from which the grammar derives it |
| WhenLexemes.BareWordIsItsText | apps/desktop/src/when.ts:197-206 | `k == w` and `k != w` compare the key with the text `w`, quoted or not, but for the bare words `true` and `false`, which are the flags |
| WhenErrors.ErrorIsAtFirstBadToken | apps/desktop/src/when.ts:155-222 | the error of a token list is about the first token with which no expression begins (what is before it begins one), or about the end: it names that token and what is called for after the one before it; `)` is called for when what is before is no expression itself, and a token is in excess when it is |
| WhenText.ParseWhen | apps/desktop/src/when.ts:155-222 | characters to expression: the tokens read and then parsed, or the first error |
| WhenText.SpelledReads | apps/desktop/src/when.ts:49-141 | tokens written out with spaces between them read back as those tokens |
| WhenText.RenderedParses | apps/desktop/src/when.ts:1-12 | every expression that can be written parses back from its rendering, quotes, escapes, flags and parentheses included |
| WhenText.ParsedIsSayable | apps/desktop/src/when.ts:49-222 | whatever any text parses to can be written |
| WhenText.SayableIffSaid | apps/desktop/src/when.ts:1-12 | the expressions that can be written are exactly those that some text says |
| WhenText.RenderingKeepsMeaning | apps/desktop/src/when.ts:49-222 | for every text that parses, rendering what it says and parsing again says the same |
| TextEdits.OffsetInBounds | apps/desktop/src/lsp-monaco-mapping.ts:250-255 | every position resolves inside the content |
| TextEdits.OffsetIsMonotone | apps/desktop/src/lsp-monaco-mapping.ts:250-255 | positions in (line, character) order resolve to offsets in order |
| TextEdits.OffsetUndoesPosition | apps/desktop/src/lsp-monaco-mapping.ts:246-255 | an offset turned into its line and character resolves to itself |
| TextEdits.PositionUndoesOffset | apps/desktop/src/lsp-monaco-mapping.ts:246-255 | a position on its line is the position of the offset it resolves to |
| TextEdits.ApplyTextEditsToContent | apps/desktop/src/lsp-monaco-mapping.ts:242-265 | the loops give the edits resolved, sorted last first without reordering equals, and applied one by one |
| TextEdits.ApplyIsSplice | apps/desktop/src/lsp-monaco-mapping.ts:256-264 | for disjoint edits the back-to-front loop is one left-to-right splice |
| TextEdits.ApartRangesResolveDisjoint | apps/desktop/src/lsp-monaco-mapping.ts:250-259 | LSP ranges that are apart resolve to disjoint edits |
| TextEdits.ApplyIsSimultaneous | apps/desktop/src/lsp-monaco-mapping.ts:256-264 | for disjoint edits, at most one insertion at an offset, the result is the splice of the edits in place order |
| TextEdits.ArrayOrderDoesNotMatter | apps/desktop/src/lsp-monaco-mapping.ts:242-265 | and is the same for every order of the array |
| TextEdits.LspOrderIff | apps/desktop/src/lsp-monaco-mapping.ts:256-264 | with several insertions at an offset, the result is the one LSP asks for (array order) exactly when at each offset the inserted texts read the same joined forwards and backwards |
| TextEdits.TwoInsertionsComeOutReversed | apps/desktop/src/lsp-monaco-mapping.ts:256-264 | an input where it is not: two insertions at one offset come out last first; the same two spliced in array order give `ab` |
| TextPlaces.OffsetIffStands | apps/desktop/src/lsp-monaco-mapping.ts:247-254 | a position's offset is where it stands by the text's newlines: so many characters into its line, but not past the line's newline or the text's end; past the last line, at the end |
| TextPlaces.OneEditReplaces | apps/desktop/src/lsp-monaco-mapping.ts:243-267 | one edit from a position standing at `o` to one standing at `p` gives the text before `o`, the new text, and the text from `p` on |
| TextPlaces.EditsReplace | apps/desktop/src/lsp-monaco-mapping.ts:243-267 | edits of places that do not overlap, at most one insertion at a place, in whatever order: each replaces what is between its places, from left to right |
| Redact.Redact | crates/oxplow-ai-rig/src/errors.rs:19-42 | no key or an empty one leaves the text; else the loop ends with the mark at each place cut and the rest kept |
| Redact.KeyCharsAre | crates/oxplow-ai-rig/src/errors.rs:10-14 | the characters of keys: ASCII letters and digits, `_` and `-` |
| Redact.CutsAreApart | crates/oxplow-ai-rig/src/errors.rs:25-39 | the places cut follow each other and do not overlap |
| Redact.CutsAreWhole | crates/oxplow-ai-rig/src/errors.rs:29-32 | at each of them the key stands whole |
| Redact.EveryWholeIsMet | crates/oxplow-ai-rig/src/errors.rs:25-39 | wherever the key stands whole, that place is cut or overlaps one cut |
| Redact.CutsAreExact | crates/oxplow-ai-rig/src/errors.rs:12-42 | for a key of key characters the places cut are exactly those it stands whole at |
| Redact.RedactedIsWords | crates/oxplow-ai-rig/src/errors.rs:12-42 | for such a key the result is the text gone through word by word, each word that is the key replaced |
| RedactTwice.RedactingTwiceKeepsIff | crates/oxplow-ai-rig/src/errors.rs:16-42 | for a non-empty key, redacting twice is redacting once on every text exactly when the key is the mark itself, or its ends are both key characters or both not and the mark does not show in it |
| RedactTwice.WithoutTheWordIff | crates/oxplow-ai-rig/src/errors.rs:16-42 | for a non-empty key without the word `redacted`, that holds exactly when both ends or neither are key characters |
| RedactTwice.PaddedKeyIsLeft | crates/oxplow-ai-rig/src/errors.rs:19-42 | the key `a=`: `a=a=` becomes `a=[redacted]`, and that becomes `[redacted][redacted]` |
| RedactTwice.RedactingTwiceIff | crates/oxplow-ai-rig/src/errors.rs:16-42 | for a key of key characters, text by text: redacting twice is redacting once exactly when the key is not `redacted` or stands whole nowhere in the text |
| StreamParts.DeltaFold.Push | crates/oxplow-ai/src/parts.rs:224-240 | a text joins a text before it, anything else is a part of its own |
| StreamParts.FoldIffCut | crates/oxplow-ai/src/parts.rs:214-248 | the fold of deltas is the one list of parts with no two texts together of which the deltas are the pieces |
| StreamParts.CuttingKeepsFold | crates/oxplow-ai/src/parts.rs:219-240 | however each text of a stream is cut into pieces, from any fold so far, the fold is the same |
| StreamParts.Of | crates/oxplow-ai/src/parts.rs:58-81 | the deltas of a reply fold to its texts and calls, adjacent texts joined and images and results dropped, and are that fold already |
| StreamParts.OfUndoesFold | crates/oxplow-ai/src/parts.rs:58-81 | the deltas of folded parts are those parts, one each |
| StreamParts.WholeIsItsFoldIff | crates/oxplow-ai/src/parts.rs:38-81 | a reply is what its deltas fold to exactly when it holds only texts and calls, no two texts together |
| FixtureModel.StreamWhole | crates/oxplow-ai/src/client.rs:294-311 | a cancel first gives an empty partial and sends nothing; else what is sent folds to the reply's texts and calls |
| FixtureModel.TurnAnswers | crates/oxplow-ai/src/fixture.rs:131-145 | the reply given is the first whose `when` the request carries, else the first with no `when`, and is taken off the list; with neither the last one comes again |
| FixtureModel.RepliesComeInTurn | crates/oxplow-ai/src/fixture.rs:96-145 | replies with no `when` come in turn and the last ever after |
| FixtureModel.FixtureModel.Next | crates/oxplow-ai/src/fixture.rs:132-145 | the two searches and the removal do that |
| FixtureModel.CallIdsDiffer | crates/oxplow-ai/src/fixture.rs:147-163 | two call ids are equal exactly when their numbers are |
| FixtureModel.FixtureModel.ToolCalls | crates/oxplow-ai/src/fixture.rs:149-163 | calls are numbered on from the last, in order |
| FixtureModel.WordsJoin | crates/oxplow-ai/src/fixture.rs:269-276 | the words a text is streamed in join to the text |
| FixtureModel.WordsAreExact | crates/oxplow-ai/src/fixture.rs:262-271 | the words of a text are the one cut of it in which each ends at its first space and only the last may have none |
| FixtureModel.PiecesAre | crates/oxplow-ai/src/fixture.rs:262-271 | a paced reply goes out word by word, another in one piece, an empty one in none |
| FixtureModel.ContainsIff | crates/oxplow-ai/src/fixture.rs:128-138 | a reply's `when` matches a text that has it in it, with anything before and after |
| FixtureModel.FixtureModel.StreamTyped | crates/oxplow-ai/src/fixture.rs:248-302 | a request of another version is refused and takes no reply; a stream that ends folds to its response's parts; a cancelled one sent exactly the pieces before the cancel and reports a start of the text |
| FileEvents.FileEventsFromRows | apps/desktop/src/fileEvents.ts:20-38 | the events of the rows in order and the largest number read, by `EventsOf`, which `FileEvents.EventsAreTold` says in terms of the rows' kinds and payloads; nothing when a row's payload is the JSON null, which throws |
| FileEvents.EventsAreTold | apps/desktop/src/fileEvents.ts:20-38 | the events of a query are told by its rows one by one: a rename by a rename row with both paths, from its `from` to its `to`, a delete by a delete row with a path; no other row tells of anything |
| FileEventWatch.DeliversWhatRowsTell | apps/desktop/src/watchFileEvents.ts:10-42 | in every run, with notices dropped and reads failing or late, the deliveries are told one by one, in order of number, by exactly the rows of the stream over the first cursor and up to the cursor (after the stop, where it was then) that tell of a rename or a delete |
| FileEventWatch.DeliveredIffTold | apps/desktop/src/watchFileEvents.ts:10-42 | so in every run an event is delivered exactly when such a row tells of it |
| FileEventWatch.DeliversExactly | apps/desktop/src/watchFileEvents.ts:10-42 | in every run, with notices dropped and reads failing or late, what was delivered is exactly the stream's well-formed renames and deletes numbered over the first cursor and up to the cursor, each once, in order; after the stop, up to where it stopped |
| FileEventWatch.StepKeeps | apps/desktop/src/watchFileEvents.ts:15-41 | each step keeps that, only adds to what was delivered, and adds nothing after the stop |
| FileEventWatch.AnswerCatchesUpIff | apps/desktop/src/watchFileEvents.ts:25-28 | a read leaves nothing undelivered exactly when it saw all there is and that is at most 200 rows |
| FileEventWatch.RoundsCatchUp | apps/desktop/src/watchFileEvents.ts:15-28 | undisturbed, one read for each 200 rows delivers all there is |
| FileEventWatch.NoAnswerThrows | apps/desktop/src/watchFileEvents.ts:25-33 | when no rename or delete of the log has the JSON null for a payload, which the log's validation sees to, then in any run no answer throws and each moves the cursor to the last row it read |
| FileEventWatch.CheckedRoundsCatchUp | apps/desktop/src/watchFileEvents.ts:15-28 | for such a log, undisturbed, one read for each 200 rows delivers all there is |
| FileEventWatch.NullIsNeverPassed | apps/desktop/src/watchFileEvents.ts:25-33 | were a row logged whose payload is the JSON null, the cursor would stay before it in every run |
| FileEventWatch.NoticeCanBeLost | apps/desktop/src/watchFileEvents.ts:15-34 | a run of two deletes, each announced and each read answered, after which the second is not delivered |
| FileEventWatch.FileEventWatch.Read | apps/desktop/src/watchFileEvents.ts:15-25 | a read starts unless one is out, for the newest number at first and then for the rows past the cursor |
| FileEventWatch.FileEventWatch.RowsAnswered | apps/desktop/src/watchFileEvents.ts:25-33 | the cursor moves to the last row read and its events are delivered while live; a page that throws changes nothing but that no read is out |
| DocumentSync.ServerIsMirrored | apps/desktop/src/lsp-document-sync.ts:15-79 | in every history the server holds, for each tracked path, what was last sent at its version; versions of an open are 1, 2, 3 and so on; no change repeats the text before it; a text is pending exactly when a timer is armed |
| DocumentSync.SyncedIff | apps/desktop/src/lsp-document-sync.ts:34-56 | the server holds the editor's text exactly when nothing is pending or what is pending undoes the edits since the last send |
| DocumentSync.FlushSyncs | apps/desktop/src/lsp-document-sync.ts:43-56 | after a flush the server holds the editor's text, and a second flush does nothing |
| DocumentSync.StepKeeps | apps/desktop/src/lsp-document-sync.ts:25-68 | each operation and each timer keeps the mirror |
| DocumentSync.DocumentSyncTracker.Change | apps/desktop/src/lsp-document-sync.ts:33-41 | an untracked path, or text just as sent with nothing pending, changes nothing; else the text is pending and the timer armed |
| DocumentSync.DocumentSyncTracker.Flush | apps/desktop/src/lsp-document-sync.ts:46-58 | the timer is cleared; a pending text unlike the last sent goes out one version up |
| BuildTree.WalkIsExact | crates/oxplow-app/build.rs:157-192 | the walk holds a path exactly when it is a file and neither it nor any folder on the way is a dot entry or skipped |
| BuildTree.WalkedIff | crates/oxplow-app/build.rs:157-192 | for a whole tree: a file is walked exactly when no name on its path starts with a dot and neither it nor a folder on the way is in the list to skip |
| BuildTree.Walk | crates/oxplow-app/build.rs:159-192 | the recursive loop pushes those, in the order read |
| BuildTree.HoldsSkipped | crates/oxplow-app/build.rs:200-215 | a folder holds something skipped exactly when some path in it, at any depth, is a dot entry or skipped |
| BuildTree.HoldsSomeIff | crates/oxplow-app/build.rs:200-215 | for a whole tree: it holds something skipped exactly when some path in it ends in a name that starts with a dot or is in the list to skip |
| BuildTree.FoldersAreTopmost | crates/oxplow-app/build.rs:194-239 | the folders returned are exactly those reached without entering a hidden one that hold nothing skipped and lie in no folder that holds nothing skipped |
| BuildTree.FoldersAreApart | crates/oxplow-app/build.rs:194-239 | none of them is in another |
| BuildTree.FoldersCover | crates/oxplow-app/build.rs:194-239 | every reachable folder that holds nothing skipped lies under exactly one of them |
| BuildTree.FilesUnderAreWalked | crates/oxplow-app/build.rs:159-239 | every file under one of them is in the walk |
| BuildTree.WalkedIsWatchedIff | crates/oxplow-app/build.rs:194-239 | a walked file is under one of them exactly when some folder it is in holds nothing skipped |
| BuildTree.Folders | crates/oxplow-app/build.rs:216-239 | the recursive loop pushes those, in the order read |
| ScanMemo.ScanMemo.Scan | apps/desktop/src/terminal-link-provider.ts:163-184 | every call returns what scanning returns; the text becomes the newest key and the oldest goes past the limit |
| ScanMemo.HoldsTheLatest | apps/desktop/src/terminal-link-provider.ts:147-184 | after any history the keys are exactly the last `max` distinct texts in the order of their latest request |
| TitleCache.NoRefreshIsLost | apps/desktop/src/wikiTitleCache.ts:35-60 | whenever no read is out the last one started at or after the latest refresh, and if it succeeded the titles are of pages no older than that; while an older one is out another is to follow |
| TitleCache.NoNeedlessRead | apps/desktop/src/wikiTitleCache.ts:35-58 | no more reads start than refreshes were asked for |
| TitleCache.TitlesAreOfLastRead | apps/desktop/src/wikiTitleCache.ts:42-55 | the titles are those of the last read that succeeded, whatever failed since |
| TitleCache.TitleIsTheLast | apps/desktop/src/wikiTitleCache.ts:43-46 | a slug has a title exactly when some page gives it one, and then that of the last such page |
| TitleCache.TitleCache.Refresh | apps/desktop/src/wikiTitleCache.ts:35-41 | a read starts unless one is out, which is then to be followed |
| TitleCache.TitleCache.Ended | apps/desktop/src/wikiTitleCache.ts:42-58 | a read that ends replaces the titles or leaves them, and starts the one that is to follow |
| AiRoles.ParsesIff | crates/oxplow-ai/src/config.rs:105-127 | a text parses to a role exactly when the role has well-formed names and is displayed as that text |
| AiRoles.Validate | crates/oxplow-ai/src/config.rs:331-356 | a config passes exactly when its provider ids are not blank and differ and each binding names one of them and a model; an error names a problem the config has |
| AiRoles.ResolvesIff | crates/oxplow-ai/src/config.rs:366-384 | in a valid config a role resolves exactly when some role of its fallback chain is bound, to the first such role's binding and the one provider it names; the chain of a profile is that of the first that declares it, and empty when none does |
| AiRoles.UndeclaredIsNothing | crates/oxplow-ai/src/config.rs:366-384 | a profile nobody declares resolves to nothing, bound or not |
| AiRoles.UnboundFallsBack | crates/oxplow-ai/src/config.rs:366-384 | a declared profile that is not bound resolves as the fallback of the first that declares it |
| AiRoles.BuiltinNames | crates/oxplow-ai/src/config.rs:36-46 | the names of the four built-in roles |
| AiRoles.DroppedIff | crates/oxplow-ai/src/config.rs:105-127 | the three names of former roles are told apart from the other texts that are no role |
| AiRoles.ProfileNamesAre | crates/oxplow-ai/src/config.rs:157-162 | the characters of a profile's name |
| AiRoles.ExtensionNamesAre | crates/oxplow-ai/src/config.rs:165-172 | the characters of an extension's name |

## Left out

- Page runs: the params a rerun sends and their rollback when it fails, the
  `setVisible` message to the daemon (its answer, a fetch, can come at any time),
  listeners, and `keyOf`, which is taken as given.
- Page runs: the order of the maps' entries and how long timers take; a timer is armed
  or fired, and pending runs are fetched in any order.
- PageRunTheorems.OwnedExactlyOnce: counts closes issued; whether the daemon got them is not modelled.
- `when`: what a regular expression matches and which patterns an engine takes (`WhenErrors` takes it to take some), which
  letters Unicode has (a parameter, no mark among them), the wording of errors,
  `whenHolds`, and how deep a nesting the host's stack allows.
- Text edits: strings are sequences of UTF-16 code units; a missing line or character,
  which reads as 0; negative positions, Monaco's objects and `normalizeWorkspaceEdit`.
- TextEdits.PositionUndoesOffset: for positions on their line only; a character past a line's end resolves to the next line's start.
- Redaction: texts are sequences of characters, where the code steps over the bytes of
  their UTF-8 at the same places; `ai_error`.
- The diff's decorations, and the width of its table's integers (the guard keeps them
  under 5001).
- Streams: JSON values are kept as text; schema versions of replies and their reading
  from JSON, the prompts asked, `complete_typed_via_text`.
- Event log: a subscriber's callback that throws part-way through a page. The cursor has
  moved by then, so the rest of that page is lost; callbacks are taken not to throw.
- Event log: SQL itself (a query is its result on the log at some moment), and
  `isUnder` and `movedPath`.
- Document sync: the mirror around the tracker, which client a language has, and how
  long a debounce is.
- Build tree: directories that cannot be read, the refusal of stray folders, the sort of
  the walk, and skip entries that are no path of names.
- BuildTree.FoldersAreTopmost: takes from the file system that no directory has two entries of one name.
- The memo: what scanning finds, and the cells of a link.
- The title cache: which changes ask for a refresh, and the burst they are gathered into.
- Roles: reading and writing `ai.yaml`, a project's overrides, restrictions, and which of a config's problems is
  said first.
- `useWorkspaceLinkIndex.ts`, React components, transports, SQL readers, the keychain and
  the rig's provider wiring: they would add only easy members, or their logic is in code that is not part of this model.
