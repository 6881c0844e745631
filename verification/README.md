# A model of TinyLord in Dafny

TinyLord is a document store on SQLite with realtime subscriptions. This project
models the parts of it whose correctness is hardest to see from any one function,
and proves what they promise. `dafny verify dfyconfig.toml` verifies everything.

**The write and realtime protocol.** One writer (`Writer.dfy`, class `Actor`)
drains a queue, groups data operations into one transaction with a savepoint per
operation, commits, answers, broadcasts and trims the change log. `Store.dfy` says
what each operation does to collections, unique indexes and the log;
`GroupCommit.dfy` proves that batching cannot be observed; `History.dfy` relates
every database to the history of committed changes, and `UniqueKeys.dfy` says in
terms of the stored documents what a unique index refuses and what each operation
is told. `Realtime.dfy` has the
subscription filter, the resume plan and the live stream. `Protocol.dfy` puts
writer, broadcast channel, subscribers and clients into one state machine whose
steps interleave freely (including process restarts, lagging receivers, and writes
between a subscriber's reads); `ProtocolInvariant.dfy` proves what each step keeps
`ProtocolTheorems.dfy` what follows on every run, and `ClientTheorems.dfy` what a
client's view then is.

**Queries.** `Query.dfy` compiles a JSON filter into SQL tokens and bound values.
`Sql.dfy` gives the tokens a grammar and a three-valued meaning,
`FilterMeaning.dfy` gives the filter a meaning of its own, and `CompilerProof.dfy`
(on `ParserFacts.dfy`) proves the two equal. `Pager.dfy` builds pages and proves
the walk along `next_cursor`; `SortOrder.dfy` shows that SQLite always has an
answer for the pager; `Projection.dfy` projects documents; `JsonPath.dfy` has the
path grammar and scanner; `StatementText.dfy` proves that only well-formed paths
enter statement text; `FilterEngines.dfy` compares the query filter with the
subscription filter.

**Smaller machines.** `Rekey.dfy` is the offline rekey command with failure at
every step, `Presence.dfy` the presence counts of pub/sub channels, `Sse.dfy` the
client's event-stream parser. `Prelude.dfy` and `Json.dfy` hold shared basics.

How the source is rendered: objects that change state are classes (`Writer.Actor`,
`Rekey.Disk`, `Presence.PresenceMap`), loops are loops, and pure expressions are
functions. What the outside world decides is a parameter: fresh ids, clock, size
guard and statement failures come with each command (`Store.Env`), transaction
failures with each batch (`Writer.Infra`), and the outcome of every step of the
rekey command with each run of it (`Rekey.Luck`); the text SQLite prints for
arrays and objects is the function `render`, its answer to a page's SELECT the
function `sqlite`, and `JSON.parse` the function `parse`. Whether the writer finds
its queue empty, and how a batch's transaction turns out, its loop chooses
nondeterministically. A JSON object is a map, iterated in ascending key order, as
the server's JSON maps are.

Some promises fail in cases the code sets, and the project says exactly which:

- Resuming delivers everything owed exactly if no owed event was lost: its row was
  trimmed before the replay read, and either it was sent before the receiver
  attached or the replay read found newer rows of the collection, which raise the
  watermark past it (`ExactlyOnceResume`, with `TrimBetweenReadsLoses` as an
  example). The three reads of the plan do not share a snapshot.
- A resume point above the newest seq is taken at its word
  (`FutureResumeIsSilent`), so a client that named one misses what comes up to it.
- An unfiltered client that has read everything holds the current collection exactly
  if each document whose latest change it missed, lost to a trim before the replay
  read or skipped under a resume point from the future, was already current in what
  it loaded or brought along (`ConvergesExactlyWhen`); a client that missed nothing
  always does (`ClientConverges`).
- Filtered subscriptions are not told of an update that leaves the filter, so a
  caught-up filtered view keeps exactly the documents that stopped matching after
  the client was shown them (`FilteredClientView`).
- After a failed COMMIT a not-found delete and a refused operation keep their own
  reply, while every success turns into an error (`BatchAnswersAll`).
- TinyLord's README and the comment on its rekey command say that any failure
  restores. The code restores only when rekeying fails. It goes on when a stale log
  cannot be removed; then a restored original shows exactly if the abort left no
  log with other pages beside it (`RestoredExactlyWhen`, and `RestoredButHidden`
  for a run where it does not). Nothing is restored when the key file cannot be
  written; a key at hand still opens a copy of every original unless that failure
  left neither key in the file (`KeyAtHandExactlyWhen`).
- A client's presence broadcasts keep the order of the lock exactly if each send
  takes the oldest one pending (`InLockOrderExactlyWhen`); `LeaveOvertaken` is a run
  where they do not.
- The two filter engines agree on a document exactly if no clause diverges there, or
  some clause holds in neither of them, or two clauses diverge in opposite ways
  (`EnginesAgreeExactlyWhen`). A clause diverges on null
  against a missing field, null listed in `$in` against a null, a string against an
  array or object that prints as it, and a number or boolean against another JSON
  value of the same size.
- An event's data reaches the client's JSON parser as the standard has it exactly
  if it is one line, with no white space before the value but at most one space
  (`SameDataExactlyWhen`); several lines are run together (`DataLinesRunTogether`),
  and further white space is dropped. The standard also takes a line without a
  colon for a field. An event's type is the standard's exactly if the last line that
  names it has no further white space around the name either, or is bare after no
  other name than the default (`SameNameExactlyWhen`). Parser and standard split a
  stream into the same lines exactly if it has no lone carriage return
  (`SameLinesExactlyWhen`), which only the standard takes for a line end
  (`LoneReturnInName`).
- The comment on the subscription filter's parser speaks of an absent result for an
  empty filter; the code returns a filter without clauses, and so does the model.

## Model

| member | source | states |
|---|---|---|
| Writer.Actor.InsertChangelog | src/db/writer.rs:614-640 | keeps tables, indexes and all old rows and appends one, whose seq is above every seq in the log and one above some, or 1 |
| Store.NextSeqIsNew | src/db/schema.rs:80-87 | the rowid given to the next row is new: above all in the log, one above the greatest |
| Writer.Actor.DoCreate | src/db/writer.rs:477-515 | reply, event and new database of a create: size guard first, conflict on a repeated id or unique key, one row and one log row otherwise |
| Writer.Actor.DoReplace | src/db/writer.rs:517-580 | a replace updates and keeps `created_at`, or inserts when the lookup finds nothing, with the matching op, event and reply |
| Writer.Actor.DoDelete | src/db/writer.rs:582-611 | a delete of an existing id removes the row and logs it; a missing collection or id is not found and changes nothing |
| Writer.Actor.ApplyOp | src/db/writer.rs:389-458 | one operation in its savepoint has the specified outcome, and the specified database unless it failed |
| Writer.Actor.FailAll | src/db/writer.rs:330-336 | after a failed BEGIN every command of the batch gets an error, and nobody else an answer |
| Writer.Actor.RunAll | src/db/writer.rs:338-358 | the loop leaves the database of the operations run in order, a failed one rolled back, answers those without savepoint at once and defers the rest |
| Writer.Actor.Resolve | src/db/writer.rs:366-372 | the finishers send each deferred reply once and give, if committed, the events of exactly the operations that wrote |
| Writer.Actor.ProcessBatch | src/db/writer.rs:328-380 | the whole batch: database, broadcast and replies, for every way BEGIN, COMMIT and trim can turn out |
| Writer.Actor.Gather | src/db/writer.rs:289-306 | a batch holds only data operations, at most max(1, group_commit_max_batch), one without group commit; batch, pending command and queue are the arrivals in order |
| Writer.Actor.Take | src/db/writer.rs:262-308 | taking the next step loses, repeats and reorders no command |
| Writer.Actor.RunLoop | src/db/writer.rs:260-312 | over all arrivals the processed steps, concatenated, are the arrivals, every step is admissible, and the outcome is that of the steps in order |
| Writer.EarlyAndLate | src/db/writer.rs:338-372 | replies sent during the batch and replies deferred make up one reply per command, and no channel is answered twice |
| Writer.EveryDataCommandAnswered | src/db/writer.rs:260-380 | over any steps of the loop exactly the data operations are answered, whatever fails |
| Writer.AnswersByToken | src/db/writer.rs:366-372 | with distinct reply channels each command finds exactly its own reply |
| GroupCommit.TrimThenAppend | src/db/writer.rs:645-657 | trimming, appending and trimming is appending and trimming |
| GroupCommit.TrimKeepsMax | src/db/writer.rs:645-657 | a trim keeps the newest row, hence the next seq |
| GroupCommit.ApplyIgnoresOldRows | src/db/writer.rs:477-640 | an operation's outcome depends on the log only through the next seq |
| GroupCommit.BatchIsSerial | src/db/writer.rs:328-380 | one committed batch ends as its commands run alone, trimming after each |
| GroupCommit.GroupCommitInvisible | src/db/writer.rs:260-380 | for any way of batching any arrivals, database, retained log, replies and broadcast are those of running each command alone |
| History.TrimRetains | src/db/writer.rs:645-657 | a trim keeps exactly the last `retention` rows of the history |
| History.RetainedNext | src/db/schema.rs:80-87 | the greatest seq of a retained log is the number of changes ever committed, so the next is one more |
| History.ClashesExactlyWhenBroken | src/db/writer.rs:693-731 | a write is refused for a repeated key if and only if it would break a unique index |
| History.OutcomeExactlyWhen | src/db/writer.rs:477-611 | an operation writes, conflicts, is too large or finds nothing exactly when: the statements before the write succeed, the size guard agrees, and storing the row would keep ids and unique indexes intact, or the row to delete exists |
| UniqueKeys.RecordIsRow | src/db/writer.rs:500-611 | the record told is the row stored, field by field: a create has the fresh id and one time, a replace keeps the creation time it found |
| UniqueKeys.IndexedField | src/db/writer.rs:706-714 | what an index on a field reads in a document is what the field's names find there |
| UniqueKeys.ClashesExactlyWhen | src/db/writer.rs:693-731 | a write is refused for its key if and only if another row of the collection has, at the path of a unique index, a value equal to the document's, neither of them null |
| UniqueKeys.NullsNeverRepeat | src/db/writer.rs:693-731 | a document whose indexed values are missing or null repeats nothing |
| UniqueKeys.CreatedExactlyWhen | src/db/writer.rs:693-731 | a unique index is created if and only if its name is free and no two stored documents have equal values, not null, at its path |
| UniqueKeys.OutcomeWhen | src/db/writer.rs:389-611 | each outcome exactly: written, too large, in conflict, nothing to delete, by the faults, the size guard, the ids and the values at unique indexes |
| UniqueKeys.ReplyExactlyWhen | src/db/writer.rs:389-473 | what an operation is told, exactly: its own refusals whatever COMMIT does, a success if it wrote and COMMIT succeeded, an internal error in every other case |
| History.ApplyConsistent | src/db/writer.rs:389-640 | an operation that wrote keeps the log, the data and the unique indexes consistent; one that did not changes nothing |
| History.AdministerConsistent | src/db/writer.rs:693-753 | creating or dropping an index keeps everything consistent and the log as it was |
| History.IndexesExactlyWhen | src/db/writer.rs:693-753 | a unique index is created exactly if its name is free and the stored rows allow it; a dropped one is gone and the others stay |
| History.BatchConsistent | src/db/writer.rs:328-380 | a batch extends the history by its log rows, and its events are those rows' changes in seq order |
| History.RepliesBacked | src/db/writer.rs:366-372 | a success was told only if the batch committed and the row at its own place among the batch's rows reports it; a failed commit tells no success |
| History.OwnRow | src/db/writer.rs:389-473 | an operation of a batch adds exactly one row, which reports its success, if it wrote, and none otherwise |
| History.OwnRowsDiffer | src/db/writer.rs:366-372 | two successes of a batch have different rows |
| History.RowsReported | src/db/writer.rs:366-372 | every committed row was told as a success to the command that caused it, which has that place |
| History.Timestamps | src/db/writer.rs:517-580 | `created_at` is the time of the document's last insert and survives every replace; `updated_at` is the time of its last change |
| Realtime.ParseEqFilter | src/realtime.rs:71-111 | parsing keeps one clause per entry, in order, and refuses exactly filters with a bad entry |
| Realtime.EntryTakenExactlyWhen | src/realtime.rs:71-112 | an entry is taken if and only if its key is a field and it asks for a value, `$eq` of anything, or `$in` of a list |
| Realtime.MatchesExactlyWhen | src/realtime.rs:115-124 | a filter matches a document if and only if every field it names is found there with the value asked for or a listed one; a missing field never matches |
| Realtime.BuildResumePlan | src/realtime.rs:207-288 | the plan from three reads, each possibly of a later log: fresh, resync, or replay with its watermark |
| Realtime.EventStream | src/realtime.rs:325-361 | the stream over everything received: duplicates dropped by the watermark, filtered events still raise it, lag becomes a resync |
| ProtocolInvariant.StepKeeps | src/db/writer.rs:260-380 | every step of writer, subscribers and clients keeps the invariant |
| ProtocolInvariant.RunsKeep | src/db/writer.rs:260-380 | the invariant holds after every run |
| ProtocolTheorems.SequenceNumbers | src/db/writer.rs:614-657 | on every run seqs are gap-free from 1 and the next is the number of commits plus one, across rollbacks, failed commits and trims |
| ProtocolTheorems.NothingForgotten | src/db/writer.rs:360-378 | committed changes keep their place and seq, and answers stay as they were told, for the rest of the run |
| ProtocolTheorems.LogExplainsData | src/db/writer.rs:477-657 | on every run replaying all committed changes gives exactly the collections with their timestamps, ops match prior existence, and the retained log is the last min(retention, total) rows unless a trim failed |
| ProtocolTheorems.UniqueIndexesHold | src/db/writer.rs:693-731 | on every run no two rows have equal values, neither null, at the path of a unique index |
| ProtocolTheorems.UniqueFieldsHold | src/db/writer.rs:693-731 | on every run, for a unique index on a field, no two rows that have a scalar there have equal ones, null aside |
| ProtocolTheorems.HonestOnEveryRun | src/db/writer.rs:366-378 | on every run the successes told and the rows of the history correspond one to one, each row reporting its success, and the broadcast is the committed changes in seq order, complete between batches |
| ProtocolTheorems.BatchAnswersAll | src/db/writer.rs:328-473 | each command of a batch gets exactly one reply, with the place of its row, whatever fails; without BEGIN or COMMIT only replies change and none is a success |
| ProtocolTheorems.AnswersExactlyWhen | src/db/writer.rs:328-473 | each command of a batch is told that it is too large, in conflict or finds nothing exactly when it is so, committed or not; of success exactly if it wrote and the batch committed; and otherwise of an internal error |
| ProtocolTheorems.MachineIsActor | src/db/writer.rs:328-380 | the machine's commit, send and trim steps together do what the actor does for a batch |
| ProtocolTheorems.LagSafety | src/realtime.rs:339-361 | on every run delivered seqs strictly increase and are committed events that concern the stream, and any it moved past undelivered above its start was swallowed by a lag of its receiver, the resync sent for that very lag standing between everything sent before and after it |
| ProtocolTheorems.DeletesAreForwarded | src/realtime.rs:298-308 | on every run a delete reaches every stream of its collection that has moved past it, whatever the filter, or was swallowed by a lag with its own resync in its place |
| ProtocolTheorems.ResyncExactlyWhen | src/realtime.rs:231-245 | on every run a resume point gets a resync if and only if trims have taken a row after it |
| ProtocolTheorems.MachineSubscribes | src/realtime.rs:180-288 | the machine's three reads make the plan of the logs they see, and the stream starts from it |
| ProtocolTheorems.MachineStreams | src/realtime.rs:180-361 | on every run a live stream has sent exactly what its plan opened and everything its receiver got: each event of the channel since attaching, in turn, with a lag for every stretch missed |
| ProtocolTheorems.ReceivedOrSwallowed | src/realtime.rs:339-361 | on every run at each place of the channel a receiver has passed it got the event there, or lagged over it when as many newer events as the buffer holds had been broadcast, and its stream sent a resync at that moment |
| ProtocolTheorems.ExactlyOnceResume | src/realtime.rs:180-288 | without resync the events owed and not lost are delivered once and in order, so all owed are if and only if none was lost: trimmed before the replay read and also sent before attaching or passed by a watermark that found rows raised; with no trim between the MIN and the replay read none is |
| ProtocolTheorems.TrimBetweenReadsLoses | src/realtime.rs:231-262 | a trim between the MIN read and the replay read loses an event without a resync |
| ProtocolTheorems.FutureResumeIsSilent | src/realtime.rs:265-268 | a resume point above every seq silences the stream up to that point |
| ClientTheorems.CatchUp | src/realtime.rs:339-353 | applying the events (i..n] to the documents at m gives the documents at n, for any i <= m <= n |
| ClientTheorems.ConvergesExactlyWhen | src/realtime.rs:180-361 | on every run a caught-up unfiltered client that applied every change holds the current collection if and only if each document whose latest change it missed was already current in what it loaded or brought along; missed are the events lost to a trim before the replay read and, for a view loaded before the history reached the seq named, those up to that seq |
| ClientTheorems.ClientConverges | src/realtime.rs:180-361 | so an unfiltered client that applies every change and loads after each resync holds the current collection once caught up, provided the history had reached the seq it named when it last loaded or, if it has not loaded since connecting, no row after that seq was trimmed at the replay read |
| ClientTheorems.FilteredClientView | src/realtime.rs:298-361 | a caught-up filtered view agrees with the collection on every document the filter admits now, and beyond these holds exactly those that stopped matching after being shown, as they last matched |
| ClientTheorems.ReconnectIsHonest | src/realtime.rs:192-268 | the view and last seq a client leaves with may be resumed with at any later time, so convergence holds across reconnects |
| CompilerProof.EqCorrect | src/query.rs:153-159 | the clause for equality holds exactly where the values are equal, or, for null, where the field is null or missing |
| Query.CompileOperator | src/query.rs:161-206 | each operator's tokens and parameters; wrong operands and unknown operators are refused |
| Query.CompileField | src/query.rs:124-150 | a field condition: operator map in parentheses, or equality; arrays are refused |
| Query.CompileOr | src/query.rs:87-121 | the disjunction of flat conjunctions, with one parameter list shared left to right |
| Query.CompileFilter | src/query.rs:42-84 | the whole clause and its parameters, refused when any part is |
| FilterMeaning.CompilerAccepts | src/query.rs:42-227 | the compiler accepts exactly the documented filter language |
| FilterMeaning.ScalarsCompare | src/query.rs:153-227 | what each comparison operator asks, in JSON's own terms: null equals only null and is in no order, numbers and booleans compare by size, strings by code points, numbers lie below strings; `$gt` is above the operand, `$lt` below it, and so on |
| FilterMeaning.ListedCompare | src/query.rs:189-203 | `$in` holds if and only if the value equals a listed one, in JSON's own terms; null equals none |
| CompilerProof.FilterParses | src/query.rs:42-206 | whatever follows an accepted clause, it parses as one conjunction that uses up exactly its own placeholders |
| CompilerProof.CompilerCorrect | src/query.rs:42-206 | the clause of every accepted filter parses and selects a row if and only if its document has the filter's direct meaning |
| CompilerProof.CursorCorrect | src/api/query_ep.rs:47-50 | appending the cursor condition restricts the rows of any accepted filter to larger ids; no OR captures it |
| CompilerProof.NeCorrect | src/query.rs:169-178 | `$ne` holds exactly where equality does not, missing fields included |
| CompilerProof.InCorrect | src/query.rs:189-203 | `$in` holds exactly where some listed value is equal; null members match nothing |
| StatementText.OnlyPathsInText | src/query.rs:124-126 | the only request text in a compiled clause is well-formed paths |
| StatementText.OnlyPathsInOrder | src/query.rs:247-252 | the same for ORDER BY |
| FilterEngines.EnginesAgree | src/realtime.rs:71-146 | over strings and 64-bit integers a subscription filter is an accepted query filter and matches exactly what its clause selects |
| FilterEngines.EqualityExactlyWhen | src/realtime.rs:115-120 | for one scalar operand live and stored equality agree if and only if the operand does not diverge from the value found |
| FilterEngines.MembershipExactlyWhen | src/realtime.rs:120-121 | the same for `$in` |
| FilterEngines.ClauseExactlyWhen | src/query.rs:124-206 | on one clause that both engines take they agree if and only if it does not diverge on the document |
| FilterEngines.EnginesAgreeExactlyWhen | src/realtime.rs:71-146 | on a whole filter they agree if and only if no clause diverges, or some clause holds in neither engine, or two clauses diverge in opposite ways |
| FilterEngines.EnginesDifferOnNull | src/realtime.rs:115-123 | an example: a null operand selects a document without the field but does not match it live |
| JsonPaths.PathGrammar | src/ids.rs:46-52 | a path is accepted exactly if it is `$` and segments, and it has one reading |
| JsonPaths.ScanName | src/ids.rs:65-79 | the `.name` arm consumes the longest identifier, and no later choice could do better |
| JsonPaths.ScanIndex | src/ids.rs:80-98 | the `[digits]` arm likewise |
| JsonPaths.ValidJsonPath | src/ids.rs:52-103 | the scanner accepts exactly the grammar |
| JsonPaths.FieldToJsonPath | src/ids.rs:108-124 | the accepted fields are exactly identifiers joined by single dots, and the path is the field with `$.` before it |
| JsonPaths.SplitField | src/realtime.rs:126-138 | exactly such keys are split, into the identifiers they are joined from |
| JsonPaths.SplitOf | src/realtime.rs:131 | splitting names joined by dots gives the names, whatever they are as long as they have no dot |
| JsonPaths.ValidFieldExactlyWhen | src/ids.rs:108-124 | the valid fields are exactly the identifiers joined by single dots |
| JsonPaths.FieldPathReadsBack | src/ids.rs:108-124 | every translated field is a well-formed path that reads back to the names the field is joined from, into which the subscription filter splits it |
| JsonPaths.FieldPathInjective | src/ids.rs:108-124 | different fields never share a path |
| JsonValues.Find | src/realtime.rs:140-146 | descending a path in a loop finds what the path denotes |
| Sql.ExtractField | src/query.rs:125-126 | extracting a translated field is descending by its names |
| Pager.CompileSort | src/query.rs:236-256 | the terms of a sort in order, the default for none; refused exactly for a bad direction or field |
| Pager.Prepare | src/api/query_ep.rs:24-63 | the statement selects exactly the documents wanted, with the clamped limit and the offset or the cursor |
| Pager.GatherPage | src/api/query_ep.rs:75-102 | the items are the rows in order, projected if asked, and a cursor leads on from every full page in id order and from no other |
| Pager.RunQuery | src/api/query_ep.rs:16-103 | a page is a window of the wanted documents in the wanted order; refused exactly for a bad filter or sort |
| Pager.Count | src/api/query_ep.rs:105-134 | the number of documents that satisfy the filter |
| Pager.PageById | src/api/query_ep.rs:47-62 | in id order a page is determined: the wanted ids ascending, from the offset on |
| Pager.WalkUnderWrites | src/api/query_ep.rs:28-97 | following `next_cursor` never returns an id twice and at its end has returned every document that existed and matched throughout, whatever was written between calls |
| Pager.WalkComplete | src/api/query_ep.rs:28-132 | over an unchanging collection a walk ends within one call more than its full pages, in id order, with as many ids as `count` says |
| SortOrder.AnswerExists | src/query.rs:236-256 | every sort can arrange every set of rows |
| SortOrder.DescendingReverses | src/query.rs:241-245 | descending is ascending read backwards |
| SortOrder.TermAcceptedExactlyWhen | src/query.rs:236-256 | a term is accepted if and only if its direction is asc or desc in any case and it names id, created_at, updated_at or a field |
| SortOrder.TermSorts | src/query.rs:229-256 | id sorts by code points, created_at and updated_at by those times, a field by what its names find, with missing and null first, then numbers, then text; desc reads it backwards |
| SortOrder.FirstDifferenceDecides | src/query.rs:236-256 | of several terms the first that tells two rows apart decides |
| SortOrder.CompatibleExactlyWhen | src/query.rs:258-262 | a cursor is offered exactly for no sort, or one term id in ascending direction, which is to say exactly when the order is the default one |
| Projection.InsertNested | src/api/query_ep.rs:161-172 | the value is at its path, objects lead to it and all else is as before; it is dropped only when something other than an object is in the way |
| Projection.ApplyProjection | src/api/query_ep.rs:139-151 | exactly the listed paths with the document's values, in objects that hold nothing else; no value is dropped |
| Projection.PathsExactlyWhen | src/api/query_ep.rs:139-151 | the paths of a list are exactly the non-empty names, without dots, whose join is listed |
| Projection.ProjectionUnique | src/api/query_ep.rs:139-151 | a document has one projection onto a set of paths |
| Projection.OrderIrrelevant | src/api/query_ep.rs:139-151 | order, overlaps and repetitions in the list do not matter |
| Projection.ProjectionKeepsListed | src/api/query_ep.rs:139-151 | names that are listed, joined by dots, find in the projection what they find in the document |
| Projection.ProjectionAddsNothing | src/api/query_ep.rs:139-151 | whatever is in the projection is the document's, or an object on the way to a listed path |
| Projection.ProjectionIdempotent | src/api/query_ep.rs:139-151 | projecting twice is projecting once |
| Rekey.Disk.BackUpEach | src/main.rs:379-389 | backing up changes nothing visible, and when it succeeds every original is backed up |
| Rekey.Disk.RekeyEach | src/main.rs:393-402 | when it succeeds every file opens under the new key with its content |
| Rekey.Disk.RestoreEach | src/main.rs:406-414 | when it succeeds every file holds its backup, without a log unless it could not be removed |
| Rekey.Disk.Run | src/main.rs:363-431 | the command, step by step: its exit, files, backups and key file for every way its steps can turn out, with what all of that promises |
| Rekey.CommandHolds | src/main.rs:363-431 | for all outcomes of every step: success is whole, a failed backup changes nothing, a restore returns every original, and no original is lost on any exit |
| Rekey.ExitExactlyWhen | src/main.rs:363-431 | how the command ends, from what is there and how each step turns out alone: done, or the key file not written, when no step fails on any file, and every other exit exactly by its failing step |
| Rekey.RestoredExactlyWhen | src/main.rs:404-416 | after an aborted and restored run an original shows if and only if its log could be removed or the abort left none with other pages |
| Rekey.RestoredButHidden | src/main.rs:404-416 | a whole run that says it restored and leaves a file that does not open |
| Rekey.KeyAtHandExactlyWhen | src/main.rs:418-430 | a key that is at hand afterwards opens a copy of each original, except exactly when writing the key file failed and left neither key in it |
| Presence.PresenceMap.Register | src/api/pubsub.rs:311-331 | the locked part of registering, and whether the client is new |
| Presence.PresenceMap.Drop | src/api/pubsub.rs:349-366 | the locked part of dropping, and whether the client left |
| Presence.StepKeeps | src/api/pubsub.rs:310-376 | every connect, disconnect and send keeps the invariant |
| Presence.PresenceCounts | src/api/pubsub.rs:310-376 | in every interleaving counts are the live guards, at least 1, no channel is empty, decisions alternate, each is sent once, and with none pending joins exceed leaves by 1 exactly for present clients |
| Presence.ConnectedSince | src/api/pubsub.rs:313-331 | on every run a present client's connection time is that of the connect since which it has been present without interruption |
| Presence.InLockOrderExactlyWhen | src/api/pubsub.rs:332-374 | on every run a client's announcements are sent in the order of the lock if and only if each send took its oldest pending one |
| Presence.LastBroadcastTells | src/api/pubsub.rs:332-374 | then, with none of its announcements pending, its last broadcast is a join exactly if it is present |
| Presence.LeaveOvertaken | src/api/pubsub.rs:332-374 | a run after which the last broadcast says a present client has left |
| Presence.EventStream | src/api/pubsub.rs:270-296 | a subscriber gets each received event of others in its channel once, in order, and never its own |
| Sse.ReadEventStream | tinylord.js:151-170 | for every cutting into chunks, the events and the throw are those of one pass over the whole text |
| Sse.EventsByBlock | tinylord.js:151-170 | each event has the type, the id and the data of its own block of lines between empty ones, and nothing of another |
| Sse.FramesReadBack | tinylord.js:151-170 | printing server frames with comments between them and parsing gives the same events; a cut-off last line adds nothing |
| Sse.SameDataExactlyWhen | tinylord.js:163-168 | an event's data is handed to `JSON.parse` as sections 9.2.5 and 9.2.6 of the WHATWG HTML Standard have it if and only if it is one data line, with no white space before the value but at most one space |
| Sse.OneCleanLineAgrees | tinylord.js:163-168 | such an event agrees with the standard whenever its name does |
| Sse.SameNameExactlyWhen | tinylord.js:164-166 | an event has the standard's type if and only if no line names it, the last one that does has no white space around the name but at most one space before it, or that line is bare and the parser saw no other name than the default |
| Sse.SameLinesExactlyWhen | tinylord.js:160-162 | parser and standard split a stream into the same lines if and only if it has no lone carriage return |
| Sse.AgreesWithStandard | tinylord.js:151-170 | on streams that both split into the same lines, that is without a lone carriage return, the parser yields exactly the standard's events if they agree one by one, as JSON and by type, and when it does not throw only then |
| Sse.DataLinesRunTogether | tinylord.js:168 | two data lines of one event are joined without a newline, unlike the standard |
| Sse.LoneReturnInName | tinylord.js:160-166 | a lone carriage return in an event's name ends the line for the standard and stays in the name for the parser |

## Left out

- SQLite and SQLCipher: transactions, savepoints and VACUUM INTO do what they promise; RELEASE and ROLLBACK do not fail, a whole batch is not rolled back in its middle, a commit survives, and 64-bit rowids do not run out.
- Collection names are taken to differ by more than ASCII case, which SQLite ignores.
- Replies to index and snapshot commands, index DDL and the `_indexes` registry (kept in one step with the index), checkpoints and snapshots: only their effect on the data is modelled.
- Size of the broadcast buffer: the capacity is any number; that the channel rounds it up is not modelled.
- Real numbers are exact, so an integer outside 64 bits does not lose digits when it becomes a real; the engines are compared on 64-bit integers only.
- Authorization, name checks, HTTP, configuration and failures of the read pool around the query, count and subscribe handlers; `valid_name` and `parse_last_event_id`, which would add easy members.
- Writer.Actor.ProcessBatch: its loops are the methods FailAll, RunAll, Resolve and Broadcast, and the working and committed databases are two values rather than one file.
- Writer.Actor.RunLoop: takes all commands that ever arrive; that a receive may find the channel empty for now is a nondeterministic choice in Gather.
- ClientTheorems.ClientConverges: a client loads the documents its filter admits in one query that sees one state; loading them page by page is not modelled.
- Projection.InsertNested: the map is passed in and returned instead of updated in place.
- Pager.RunQuery: rows carry documents, not their JSON text, so parsing back cannot fail.
- Pager.WalkUnderWrites: a walk over a collection that keeps growing need not end; the end is proved for an unchanging one.
- Rekey.Disk.Run: a shared-memory sidecar holds no pages and is not modelled, nor is a crash of the command itself.
- Presence.PresenceMap.Register: the 32-bit count does not wrap.
- Sse.ReadEventStream: the error responses before the stream starts, the text decoder and releasing the reader.
