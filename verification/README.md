# Verification of alaya's core

A Dafny model of the parts of alaya where correctness is hard, with proofs of
what they promise. `dafny verify dfyconfig.toml` checks all of it.

**The write protocol** (`Payload`, `Lifecycle`, `Revision`, `Tokens`,
`Protocol`, `ProtocolInvariant`, `ProtocolSafety`, `ProtocolRuns`,
`ProtocolOutcomes`, `Collections`, `Rounds`, `UpdatePoints`, `MigratePoint`).
Many processes write one Qdrant point with no common lock. Each commits only
while the point still carries the revision it read, stamps a token onto a log of
the last 8, and judges from a read-back whether its write landed. `Protocol` is
the state machine of any number of calls by any number of clients, interleaved
with deletes and with requests whose callers gave up; the operations are the
server's own payload transformers. `ProtocolInvariant` proves one invariant step
by step; `ProtocolSafety` and `ProtocolRuns` draw the guarantees from it: no
lost update, nothing outliving a delete, exact verdicts, access counts, the
supersession lifecycle, summaries. `ProtocolOutcomes` traces every outcome a
call can end with back through the run to what the call read, sent or found.
`Collections` is every point at once, a state of that machine each; `Rounds` and
`UpdatePoints` are the batch loop itself, imperative, proved to run the machine
at every point whatever others do there, and to report what it says.
`MigratePoint` is the migration script's writer of the same protocol.

**The two locks** (`AccessTurn`, `AccessRuns`) that keep access increments out
of a writer's way: what they guarantee, and that they cannot deadlock.

**Duplicates** (`UnionFind`, `Duplicates`, `Deduplication`): union-find on
arrays, its groups proved to be graph components, and the pipeline around it.

**The calendar** (`Calendar`): division formulas against the Gregorian calendar
counted day by day.

**The graph** (`Sweep`, `SweepRuns`, `Contradictions`, `QueuePages`, `Hebbian`):
each query as one atomic step; the sweep racing with stores and deletes, the
contradiction queue, its stats and its pages, bounded Hebbian weights and the
consumer loop.

**The spend ledger** (`SpendLedger`): the eval's chunk loop with its mark and
log on disk, killed or failing at any step.

**The migration planner** (`MigrationPlan`), **the RESP decoder** (`Resp`) with
a printer it undoes, and **the stratified sampler** (`Sampler`).

`Json` and `Strings` hold what several of these share.

Where the program does not meet a property everywhere, the property is stated
with its exact condition, and a lemma gives a run or an input outside it: a lost
verdict that hides an applied insertion (`LostVerdictCanHideAWrite`), a base
payload without a count under callers that send one (`CountConservedIff`,
`TimesConservedIff`), a moved flat key that has no reason (`ReasonHistory`), a
node delete that comes after a store (`EnsuredLacksNodeIff`, `LateNodeDelete`),
a failed `ensure_node` (`NodeNeverMade`, `SweptAfterFailedEnsure`), sweeps
sharing a token (`SharedToken`), an unsettling that meets an identical older
stamp (`UnsettleUndoes`), strengthenings of an edge not there yet
(`FreshOrderMatters`), spend rounded away in the log (`LogExactIff`,
`CheapChunksVanish`), bare strings that look quoted (`TextIff`), bare rows read
as headers (`BareRowsMistaken`), a year beyond 32 bits (`UtcDateIsGregorian`).
Where documentation and code part, the model follows the code: `run_spent`
(scripts/judge_tune/tune.py:2139) calls the log what the run has spent, which it
is to four decimals a chunk, and the read-back's documentation
(crates/alaya-backends/src/qdrant.rs:688-693) leaves out the insertion that was
deleted and stored again.

Assumptions: a client's random 64-bit instance is its own, and a script's uuid
too, so tokens are unique; Qdrant evaluates a conditional write, and FalkorDB a
query, in one step; a request applies at most once; requests name no
server-maintained key and a supersession comes with its reason
(`Lifecycle.Respectful`), which the services in front of the storage layer see
to; numbers are exact (`real`, unbounded integers) except where a width or a
rounding is modelled.

## Model

| member | source | states |
|---|---|---|
| `ProtocolSafety.Serializable` | crates/alaya-backends/src/qdrant.rs:236-368 | in every run of any calls, clients, deletes and abandoned requests, a present point holds its inserted (or legacy) payload with the committed writes applied in commit order, each one a started call's own operation on what the one before left: no update is lost |
| `ProtocolSafety.NothingOutlivesADelete` | crates/alaya-backends/src/qdrant.rs:1463-1470 | every write in a point's present history, its insertion aside, was built on a read made since the last delete |
| `ProtocolSafety.NeverLost` | crates/alaya-backends/src/qdrant.rs:203-234 | without a delete a point once there stays there, holding its first payload with every write applied since |
| `ProtocolSafety.LogIsTail` | crates/alaya-backends/src/qdrant.rs:180-201 | in every run a present point carries its last write's token as revision and the tokens of its last 8 writes, oldest first, as log |
| `ProtocolSafety.LandedStays` | crates/alaya-backends/src/qdrant.rs:344-353 | a write whose caller is told it landed is in the history and stays there, whatever runs, until the point is deleted |
| `ProtocolSafety.LandedInHistory` | crates/alaya-backends/src/qdrant.rs:344-353 | of any call that ended landed, at whatever moment of whatever run: its write was in the history when the call read it back, and still is unless a delete came since |
| `ProtocolSafety.VerdictExact` | crates/alaya-backends/src/qdrant.rs:688-715 | Yes: the write is in the history since the last insertion; No: it is not, and it never applied at all unless the call read no revision and the point was deleted since; Gone: no point; never Unknown with no delete and fewer than REV_LOG_LEN foreign writes since the read |
| `ProtocolSafety.VerdictFacts` | crates/alaya-backends/src/qdrant.rs:694-715 | the same verdict facts from the invariant of one state |
| `ProtocolSafety.NeverUnknown` | crates/alaya-backends/src/qdrant.rs:651-661 | with no delete and fewer than 8 foreign writes since the read the verdict is Yes exactly when the write applied, and No otherwise |
| `ProtocolRuns.LostVerdictCanHideAWrite` | crates/alaya-backends/src/qdrant.rs:691-693 | a run whose read-back says No of a write that applied: an insertion read before a revision existed, deleted and stored again; the condition in VerdictExact is needed |
| `ProtocolSafety.LandsAtMostOnce` | crates/alaya-backends/src/qdrant.rs:271-356 | over all its retry rounds a call commits at most one write on a point between deletes |
| `ProtocolInvariant.StepKeeps` | crates/alaya-backends/src/qdrant.rs:241-252 | every step of every call, and every delete, keeps the protocol's invariant: genuine copies, revisions as the tail of the history, payload as the history replayed, tokens never reused |
| `ProtocolInvariant.RunInv` | crates/alaya-backends/src/qdrant.rs:241-252 | the invariant holds in every reachable state |
| `ProtocolInvariant.ServeKeeps` | crates/alaya-backends/src/qdrant.rs:203-234 | a conditional write, applied or not, keeps the server's side of the invariant; one that applies extends the history by its own operation |
| `ProtocolInvariant.LostNotInLife` | crates/alaya-backends/src/qdrant.rs:694-715 | a write judged lost is not in the history |
| `ProtocolInvariant.YesInLife` | crates/alaya-backends/src/qdrant.rs:703-705 | a write judged landed is in the history |
| `ProtocolOutcomes.OutcomeExplained` | crates/alaya-backends/src/qdrant.rs:271-366 | over every run each outcome has its cause: Skipped, the call last read a payload its operation leaves alone (or, for the move, no point); Deleted, no point at a later read or at the read-back; Absent, no point at the first read; Refused, a payload the operation refuses, or a dropped batch; Landed, its token read back; Unconfirmed, given up on, eight races lost or a read-back that cannot tell |
| `ProtocolOutcomes.CreatedMeans` | crates/alaya-backends/src/qdrant.rs:278-291 | a landed write that reports an insertion was applied to an absent point, any other to a present one |
| `ProtocolOutcomes.SendsIff` | crates/alaya-backends/src/qdrant.rs:293-314 | a call that read the point sends a write if and only if it is a store that read no point, or it read a payload its operation neither leaves alone nor refuses |
| `ProtocolOutcomes.SendsNothing` | crates/alaya-backends/src/qdrant.rs:293-309 | a call that read what it does not write over, an insert-only store that found a point among them, sends nothing in any continuation: no step of its changes the server, and it ends skipped or refused |
| `ProtocolOutcomes.AloneLands` | crates/alaya-backends/src/qdrant.rs:236-353 | a call that reads, builds, sends and reads back with no step of anyone else between lands its write in that round, whatever the state: the point holds what its operation makes of what it read, under its token, and it reports an insertion exactly when there was no point |
| `ProtocolRuns.AccessesCounted` | crates/alaya-backends/src/qdrant.rs:401-430 | in every run the access count is the base's plus the committed increments, and the access times are the 100 newest of the base's and theirs, through any mix of other writes: always where the run inserted the point or it stored the key before, and on any other while stores send the fresh 0 and no times, as the service's do |
| `ProtocolRuns.SupersessionTracked` | crates/alaya-backends/src/qdrant.rs:1067-1158 | in every run marker and reason are the last committed supersession's or none after a reversal, whatever metadata re-stores and patches carry; the audit log is the base's with one entry per reversal; a marker stands without its reason exactly when the flat-key move put it on a memory without one and nothing superseded or reversed it since |
| `ProtocolRuns.CommittedOver` | crates/alaya-backends/src/qdrant.rs:1571-1655 | whatever interleaves, a conditional supersession committed only over a live memory, a reversal only over the marker it names, a generated summary only over a memory without one |
| `ProtocolRuns.WrittenOver` | crates/alaya-backends/src/qdrant.rs:293-309 | whatever interleaves, every write in a history was over a payload its operation neither leaves alone nor refuses, by the conditions of DecisionIff |
| `ProtocolRuns.InsertOnlyInserts` | crates/alaya-backends/src/qdrant.rs:1376-1380 | a store that must not overwrite is in a history only as the insertion that made the point |
| `ProtocolRuns.SummariesDescribed` | crates/alaya-backends/src/qdrant.rs:1191-1200 | in every run a stored summary vector describes the stored summary, given that callers supply vectors only with their text |
| `ProtocolRuns.MoveLandsOnce` | scripts/migrate_flat_superseded.py:73-106 | the script's move applies at most once in every run, its retries included, and only before the point's first delete |
| `Revision.NewestAppend` | crates/alaya-backends/src/qdrant.rs:196-198 | keeping the newest 8 (or 100) after every append equals cutting once at the end, so the log read is a suffix of the history |
| `Tokens.RenderInjective` | crates/alaya-backends/src/qdrant.rs:184-201 | two writes carry one revision string only when they are the same client's same write |
| `Tokens.HexReads` | crates/alaya-backends/src/qdrant.rs:186-190 | the hexadecimal writing of a number reads back as that number and holds no dash |
| `Tokens.ScriptTokenDiffers` | scripts/migrate_flat_superseded.py:85-85 | no revision the migration script makes equals a server's |
| `Payload.CarryOver` | crates/alaya-backends/src/qdrant.rs:1160-1201 | the re-store's in-place edits build the payload CarriedOver specifies |
| `Payload.CarryTopLevel` | crates/alaya-backends/src/qdrant.rs:1162-1173 | the loop over the five carried keys keeps each stored one and nothing else |
| `Payload.CarryMetadata` | crates/alaya-backends/src/qdrant.rs:1181-1190 | the loop over the marker and the confirmation makes each what is stored, present or absent |
| `Payload.ApplyPatch` | crates/alaya-backends/src/qdrant.rs:739-787 | the patch's edits, in the program's order, build the payload Patched specifies |
| `Payload.MergeMetadata` | crates/alaya-backends/src/qdrant.rs:769-783 | merging metadata key by key, in any order, sets every value and deletes every null |
| `Payload.CapTimestamps` | crates/alaya-backends/src/qdrant.rs:801-809 | trimming drops no more than it must, and from a history in time order nothing newer than what it keeps |
| `Payload.CountAccess` | crates/alaya-backends/src/qdrant.rs:405-430 | the increment's edits build the payload Bumped specifies |
| `Payload.DecisionIff` | crates/alaya-backends/src/qdrant.rs:1571-1758 | for every operation and every payload, exactly when it leaves the payload alone, refuses it or writes: an insert-only store leaves any; an update naming nothing; a reversal, a marker other than its own; a guarded supersession or a confirmation, a marker; a generated summary, a summary; the move, no flat key; refusals by metadata that is no object or a payload without content and hash |
| `Payload.MemoryRoundTrip` | crates/alaya-backends/src/qdrant.rs:906-1058 | storing a memory and parsing it back gives that memory, every field, its similarity aside, if and only if its summary vector, if any, is one of numbers |
| `Payload.BareMemory` | crates/alaya-backends/src/qdrant.rs:906-975 | what a payload with nothing but content and hash is read as |
| `Payload.TruthyIff` | scripts/migrate_flat_superseded.py:73-83 | the script's truth test is false of null, false, 0, 0.0, and the empty string, list and object, and of nothing else |
| `Lifecycle.RestoredKey` | crates/alaya-backends/src/qdrant.rs:1162-1173 | a top-level key after a re-store: the stored value when it is carried and stored, else the caller's |
| `Lifecycle.RestoredMarker` | crates/alaya-backends/src/qdrant.rs:1181-1190 | the stored marker and confirmation survive a re-store whatever the caller's metadata says: it neither resurrects nor re-hides |
| `Lifecycle.RestoredMetadata` | crates/alaya-backends/src/qdrant.rs:1181-1190 | every other metadata key after a re-store is the caller's |
| `Lifecycle.RestoredEmbedding` | crates/alaya-backends/src/qdrant.rs:1191-1200 | a re-store without a vector keeps the stored one exactly while the summary is unchanged |
| `Lifecycle.RestoredServerKey` | crates/alaya-backends/src/qdrant.rs:1162-1173 | reason and audit log are always the stored ones after a re-store |
| `Lifecycle.PatchedMetadata` | crates/alaya-backends/src/qdrant.rs:769-783 | per metadata key: null deletes, a value sets, an unnamed key stays |
| `Lifecycle.PatchedKeys` | crates/alaya-backends/src/qdrant.rs:739-767 | per top-level key a patch names, and the vector dropped exactly when the summary text changes without one |
| `Lifecycle.Frame` | crates/alaya-backends/src/qdrant.rs:236-252 | each write other than a store leaves every key it does not name as it was |
| `Lifecycle.MetadataSiblings` | crates/alaya-backends/src/qdrant.rs:1095-1158 | writes that rebuild the metadata object keep every key in it but the one they set or clear |
| `Lifecycle.BumpStep` | crates/alaya-backends/src/qdrant.rs:405-430 | an increment adds one to the count and appends its time, keeping the 100 newest |
| `Lifecycle.AccessKept` | crates/alaya-backends/src/qdrant.rs:1162-1173 | no write but an increment moves a stored access count or history, and none but a store brings one |
| `Lifecycle.AccessCountConserved` | crates/alaya-backends/src/qdrant.rs:401-430 | over any history the count is the base's plus the number of increments, if the base holds one or stores send 0 |
| `Lifecycle.AccessTimesNewest` | crates/alaya-backends/src/qdrant.rs:801-809 | over any history the times are the newest 100 of the base's and the increments', if the base holds some or stores send none |
| `Lifecycle.CountConservedIff` | crates/alaya-backends/src/qdrant.rs:1162-1173 | for callers that send any given counts, the count is conserved in every history if and only if the base payload holds one or only 0 is sent: carry_over keeps only keys it finds |
| `Lifecycle.TimesConservedIff` | crates/alaya-backends/src/qdrant.rs:1162-1173 | the same for the access times: the base holds some or only the empty list is sent |
| `Lifecycle.MarkerStep` | crates/alaya-backends/src/qdrant.rs:1571-1655 | the marker each committed write leaves, and what a supersession or a reversal must have found |
| `Lifecycle.ReasonStep` | crates/alaya-backends/src/qdrant.rs:1622-1656 | the reason each committed write leaves: set with a marker, removed with it |
| `Lifecycle.HidingHistory` | crates/alaya-backends/src/qdrant.rs:1174-1190 | marker, reason and flat key after any history follow from its supersessions, reversals and migrations alone |
| `Lifecycle.ReasonHistory` | crates/alaya-backends/src/qdrant.rs:1105-1158 | over any history marker and reason are there together unless, and exactly unless, the flat-key move marked a memory that had no marker and nothing superseded or reversed it since |
| `Lifecycle.LogHistory` | crates/alaya-backends/src/qdrant.rs:1060-1093 | the audit log is append-only, with exactly one entry per reversal |
| `Lifecycle.ReversalRecordsMarker` | crates/alaya-backends/src/qdrant.rs:1070-1093 | a reversal's entry holds the marker it removed, which is the one it named, the reason removed with it or null, and who reversed it, when and why, and nothing else |
| `Lifecycle.FlatStep` | scripts/migrate_flat_superseded.py:73-106 | no write brings the flat key back; a store and the move remove it |
| `Lifecycle.MigratedOnce` | scripts/migrate_flat_superseded.py:76-77 | a history holds at most one move |
| `Lifecycle.SummaryStep` | crates/alaya-backends/src/qdrant.rs:742-767 | each write keeps a stored vector describing the stored summary |
| `Lifecycle.SummaryHistory` | crates/alaya-backends/src/qdrant.rs:742-767 | so does any history |
| `Lifecycle.GeneratedNeverReplaces` | crates/alaya-backends/src/qdrant.rs:1715-1758 | a generated summary commits only where there was none |
| `UpdatePoints.UpdatePoints` | crates/alaya-backends/src/qdrant.rs:253-368 | whatever everyone else does at any point meanwhile, every point runs as the state machine does and the outcome reported for it is its protocol call's, a strict batch that misses a point aside, whose calls still hold what they read, no point exactly where Absent is reported; on success one outcome per distinct id and no other; at most 8 rounds, each in the order of the ids with repeats dropped; tokens fresh and ascending; a strict batch missing a point, and one refused in its first round, send nothing; it refuses only when at some moment of the call a point of the batch held a payload the operation refuses |
| `UpdatePoints.LandedMeans` | crates/alaya-backends/src/qdrant.rs:344-353 | a point the batch reports landed: its write was applied, was in the point's history at the read-back, and still is unless the point was deleted since |
| `UpdatePoints.OutcomeMeans` | crates/alaya-backends/src/qdrant.rs:271-366 | every outcome the batch reports has its cause in that point's run, as OutcomeExplained says, and one that reports an insertion is of a write delivered to an absent point, any other landed one of a write delivered to a present one |
| `UpdatePoints.Missing` | crates/alaya-backends/src/qdrant.rs:276-290 | the outcomes of a strict batch with a point missing from its first read |
| `Rounds.OneRound` | crates/alaya-backends/src/qdrant.rs:271-356 | one round settles every pending point or puts it up for retry, with every request built from this round's read; the books agree with the protocol call at every point |
| `Rounds.BuildRound` | crates/alaya-backends/src/qdrant.rs:292-320 | every write of a round is built, each as the protocol's call builds it, before any is sent; a refusal ends the batch, and only a payload the operation refuses is one |
| `Rounds.BuildOne` | crates/alaya-backends/src/qdrant.rs:293-319 | one point's request equals the protocol's, token included |
| `Rounds.SendRound` | crates/alaya-backends/src/qdrant.rs:322-339 | writes go out one by one in order; a failed request settles that point alone |
| `Rounds.JudgeOne` | crates/alaya-backends/src/qdrant.rs:344-355 | one read-back verdict enters the books |
| `Rounds.JudgeRound` | crates/alaya-backends/src/qdrant.rs:344-355 | every written point is judged by its own read-back: retried exactly when it lost, else settled |
| `Rounds.JudgedStand` | crates/alaya-backends/src/qdrant.rs:344-355 | what the books say of a judged point is what its protocol call says |
| `Collections.Client.Stamp` | crates/alaya-backends/src/qdrant.rs:180-201 | a fresh token, whatever other calls of the client stamp meanwhile, appended to the log read, oldest entries dropped past 8 |
| `Collections.BuildStep` | crates/alaya-backends/src/qdrant.rs:292-320 | building at a point is the protocol call's step with the client's next counter value, the values spent on other points counted |
| `Collections.SendStep` | crates/alaya-backends/src/qdrant.rs:322-339 | a request answered, given up on after it applied, or given up on before: each is a run of the protocol |
| `Collections.JudgeStep` | crates/alaya-backends/src/qdrant.rs:344-355 | the verdict on the point as read back is the protocol call's next state: landed, deleted, unconfirmed, or another round while there is one |
| `Collections.MeanwhileDrifts` | crates/alaya-backends/src/qdrant.rs:372-383 | any steps of others, other calls of the same client included, lead a point on by a run and leave this call alone, a late arrival of what it gave up on aside |
| `MigratePoint.Store.Migrate` | scripts/migrate_flat_superseded.py:73-106 | over all its rounds and however it ends at most one write of the script applies; a returned value is the marker that write wrote; without a flat key nothing is written |
| `MigratePoint.Store.PutPayload` | scripts/migrate_flat_superseded.py:93-101 | the conditional overwrite, applied or not, keeps a logged token meaning an applied write |
| `AccessTurn.StepKeeps` | crates/alaya-backends/src/qdrant.rs:384-399 | every lock, read, send and release of every worker, and every cut-off of an increment wherever it waits or works, keeps the lock invariant |
| `AccessTurn.OnePast` | crates/alaya-backends/src/qdrant.rs:379-383 | at most one increment of a client is past the gate |
| `AccessTurn.NonePasses` | crates/alaya-backends/src/qdrant.rs:372-378 | no increment passes the gate while a writer holds write_lock |
| `AccessTurn.WithinTwoRounds` | crates/alaya-backends/src/qdrant.rs:379-387 | while no cut-off write is left in flight, searches cut off at the gate or before their write included, every writer that lets go has landed its write and lost one round at most |
| `AccessTurn.WriterConfirmed` | crates/alaya-backends/src/qdrant.rs:384-387 | with increments cut off mid-write, however many, a writer loses two rounds at most: the one past the gate and one stray write |
| `AccessTurn.SomeoneGoes` | crates/alaya-backends/src/qdrant.rs:395-399 | no deadlock: while a worker is unfinished some worker can step |
| `AccessTurn.LessLeft` | crates/alaya-backends/src/qdrant.rs:593-593 | every effective step leaves less to do |
| `AccessTurn.RunsEnd` | crates/alaya-backends/src/qdrant.rs:395-399 | under any scheduling a run has boundedly many effective steps |
| `AccessRuns.CountsSends` | crates/alaya-backends/src/qdrant.rs:593-593 | a writer's rounds are the run's: each lost one a send that found the revision it had read gone, its landed write the one send that did not |
| `AccessRuns.CountsBumps` | crates/alaya-backends/src/qdrant.rs:593-593 | an increment gives up its turn when one send has landed, or eight were lost, or it is cut off; its rounds are the sends it lost |
| `AccessRuns.TwoSendsAtMost` | crates/alaya-backends/src/qdrant.rs:384-387 | counted over the run: while no cut-off write is on its way a writer that lets go landed one send and lost at most one |
| `AccessRuns.ThreeSendsAtMost` | crates/alaya-backends/src/qdrant.rs:384-387 | with increments cut off at any moment it lost at most two |
| `AccessRuns.RevisionStep` | crates/alaya-backends/src/qdrant.rs:203-234 | a step makes a new revision if and only if it is a write built on the present one, a cut-off one that arrives included |
| `UnionFinds.UnionFind.constructor` | crates/alaya-core/src/deduplication.rs:64-69 | every element its own root, rank 0 |
| `UnionFinds.UnionFind.Find` | crates/alaya-core/src/deduplication.rs:71-76 | returns the root; terminates since rank rises; moves no element to another root |
| `UnionFinds.UnionFind.Union` | crates/alaya-core/src/deduplication.rs:78-92 | exactly the two classes become one, led by the root of higher rank, whose rank grows by one on a tie only |
| `Forests.CompressRoot` | crates/alaya-core/src/deduplication.rs:71-76 | path compression changes no element's root |
| `Forests.CompressSized` | crates/alaya-core/src/deduplication.rs:71-76 | compression keeps ranks rising and 2^rank within the class size |
| `Forests.LinkRoot` | crates/alaya-core/src/deduplication.rs:83-90 | linking roots redirects exactly the linked class |
| `Forests.LinkSized` | crates/alaya-core/src/deduplication.rs:83-90 | union by rank keeps 2^rank within the class size |
| `Forests.DepthLogarithmic` | crates/alaya-core/src/deduplication.rs:71-76 | find recurses at most log2 n deep |
| `Duplicates.GroupDuplicates` | crates/alaya-core/src/deduplication.rs:132-163 | the groups are exactly the components of two or more hashes of the pair graph: two hashes share a group if and only if a chain of pairs links them, groups are disjoint, and repeated or unknown hashes do no harm |
| `Duplicates.BuildIndex` | crates/alaya-core/src/deduplication.rs:137-141 | each hash is indexed by its last position |
| `Duplicates.ByRoot` | crates/alaya-core/src/deduplication.rs:154-160 | hashes are collected by root, in order, while searches compress the forest |
| `Duplicates.OneMorePair` | crates/alaya-core/src/deduplication.rs:145-152 | a further pair joins exactly the components of its two hashes |
| `Duplicates.UnionClusters` | crates/alaya-core/src/deduplication.rs:145-152 | one union keeps root equality and chain reachability the same relation |
| `Duplicates.GroupsDetermined` | crates/alaya-core/src/deduplication.rs:129-131 | as a set of sets the groups depend only on which hashes the pairs join, not on the order of pairs or hashes |
| `Deduplication.FindDuplicatePairs` | crates/alaya-core/src/deduplication.rs:98-127 | each pair i < j at or above the threshold once, by similarity descending, equal ones in scan order |
| `Deduplication.ScannedOnce` | crates/alaya-core/src/deduplication.rs:98-118 | the scan visits each pair i < j exactly once |
| `Deduplication.SortStable` | crates/alaya-core/src/deduplication.rs:120-125 | the sort keeps equal similarities in their order |
| `Deduplication.SortedOk` | crates/alaya-core/src/deduplication.rs:120-125 | the sort is a permutation in descending order |
| `Deduplication.SelectCanonical` | crates/alaya-core/src/deduplication.rs:206-230 | a group's canonical memory is one of its members: the newest, the oldest or the most accessed as the strategy says, the last of the best on a tie |
| `Deduplication.MaxSimilarity` | crates/alaya-core/src/deduplication.rs:188-193 | the largest similarity inside the group, or 0 |
| `Deduplication.BuildDuplicateGroups` | crates/alaya-core/src/deduplication.rs:168-203 | the pipeline: components of the threshold graph, each with size, best member and top similarity |
| `Deduplication.GroupHoldsPair` | crates/alaya-core/src/deduplication.rs:188-193 | every group holds a pair at or above the threshold |
| `Calendar.UtcDateIsGregorian` | crates/alaya-core/src/calendar.rs:6-19 | the result is the Gregorian date counted day by day from 1970-01-01 if and only if that year fits the 32-bit result |
| `Calendar.CivilIsGregorian` | crates/alaya-core/src/calendar.rs:7-18 | the division formulas agree with the day-by-day calendar on every day |
| `Calendar.CivilNext` | crates/alaya-core/src/calendar.rs:7-18 | day d + 1 is the successor date of day d |
| `Calendar.YearOfEraFits` | crates/alaya-core/src/calendar.rs:11-11 | the year formula gives, for every day of an era, the year that day lies in |
| `Calendar.DayNumberOf` | crates/alaya-core/src/calendar.rs:6-19 | counting days from the epoch to the date of day d gives d |
| `Calendar.EveryDateReached` | crates/alaya-core/src/calendar.rs:6-19 | every calendar date from 1970 on is the date of its own day number |
| `Sweep.MemoryGraph.EnsureNode` | crates/alaya-bridge/src/cypher.rs:29-42 | MERGE: age set on creation only, mark cleared |
| `Sweep.MemoryGraph.MarkNodes` | crates/alaya-bridge/src/cypher.rs:743-753 | marks exactly the named nodes that exist |
| `Sweep.MarkThenDelete` | crates/alaya-bridge/src/cypher.rs:743-766 | marking and deleting under one token with nothing between removes exactly the named nodes |
| `Sweep.EnsuredSurvives` | crates/alaya-bridge/src/cypher.rs:738-766 | between the two, a node ensured or marked by another sweep is saved at the age it had and every other named one goes |
| `Sweep.EnsuredAfterIsFresh` | crates/alaya-core/src/service.rs:2554-2557 | a node ensured after the sweep deleted it is a fresh one, every other named node gone |
| `Sweep.Site.Perform` | crates/alaya-bridge/src/cypher.rs:29-48 | the queries, run for a step, leave the graph as the state machine's step does |
| `Sweep.StoredKeepsNode` | crates/alaya-core/src/service.rs:2551-2557 | with any number of sweeps under distinct tokens, a memory whose store finished and ensured its node, with no delete in progress when its point landed and none since, has its node |
| `SweepRuns.StoreKeepsNode` | crates/alaya-core/src/service.rs:2551-2557 | the same told by the steps of the run alone: a store landed, no delete of its memory was in progress then and none came since, it answered with its node ensured; the memory has its node |
| `SweepRuns.EnsuredLacksIff` | crates/alaya-core/src/service.rs:2175-2185 | likewise: a memory ensured while its point was there, undeleted since, lacks its node if and only if a delete's node delete came after the last ensure_node |
| `SweepRuns.StateSays` | crates/alaya-core/src/service.rs:2175-2185 | what the state records as stored, ensured, quiet and cut is what the run did: each set is exactly its event without its undoing since |
| `SweepRuns.NodeGoesOnlyBy` | crates/alaya-core/src/service.rs:2540-2600 | in every run a node goes only by a delete's node delete, or by a sweep that listed it, found no point for it at both its reads and marked it, with nothing ensuring it since the mark |
| `SweepRuns.PageTakes` | crates/alaya-bridge/src/cypher.rs:720-766 | left alone a page takes exactly the listed nodes without a point, and changes nothing else |
| `Sweep.EnsuredLacksNodeIff` | crates/alaya-core/src/service.rs:2175-2185 | a memory whose point is there and whose node was ensured since lacks its node if and only if an earlier delete's node delete came after that: never because of a sweep |
| `Sweep.StepKeeps` | crates/alaya-bridge/src/cypher.rs:720-766 | every step of stores, deletes and sweeps keeps the invariant behind both |
| `Sweep.LateNodeDelete` | crates/alaya-core/src/service.rs:2175-2185 | a run in which a late node delete takes a stored memory's node |
| `Sweep.NodeNeverMade` | crates/alaya-core/src/service.rs:955-957 | a run in which ensure_node fails, the store answers success and the memory has no node |
| `Sweep.SweptAfterFailedEnsure` | crates/alaya-core/src/service.rs:955-957 | a run in which a store's failed ensure_node leaves a sweep's mark standing and the sweep deletes a stored memory's node: only an ensured node is safe |
| `Sweep.SharedToken` | crates/alaya-core/src/service.rs:2557-2558 | a run in which two pages share a token and a stored memory loses its node: distinct tokens are needed |
| `Contradictions.StatsAgree` | crates/alaya-bridge/src/cypher.rs:505-533 | for every graph and verdict the open count less the reverse-stamped count is the number of edges the queue shows |
| `Contradictions.QueueOfVerdict` | crates/alaya-bridge/src/cypher.rs:269-315 | the queue filtered by one verdict has exactly the size the stats give, unjudged taking in edges with no verdict |
| `Contradictions.ListedIff` | crates/alaya-bridge/src/cypher.rs:271-280 | the verdict filter: unjudged finds edges without a verdict and failure markers, any other word the edges with that verdict |
| `Contradictions.ShownToJudge` | crates/alaya-bridge/src/cypher.rs:281-298 | the judge is shown exactly the edges never judged, and when rejudging for a model also the failures and what another model judged |
| `Contradictions.SupersedingSettles` | crates/alaya-bridge/src/cypher.rs:299-315 | a supersession takes exactly the pairs with the superseded memory out of the default queue, whichever way their edge points |
| `Contradictions.SettlingSettles` | crates/alaya-bridge/src/cypher.rs:299-315 | settling one direction takes both edges of the pair out of the default queue and no other |
| `Contradictions.Graph.LinkRefutation` | crates/alaya-bridge/src/cypher.rs:86-107 | the edge is merged, the first refute's reason stays, nothing is written without both nodes |
| `Contradictions.Graph.SetVerdict` | crates/alaya-bridge/src/cypher.rs:334-368 | a verdict is written on an existing edge only, and a failure marker never over a verdict; where one is written the edge carries all six parts of the judgement |
| `Contradictions.JudgedFields` | crates/alaya-bridge/src/cypher.rs:347-352 | after a judgement the edge holds its verdict, survivor, reason, confidence, model and time, each in its own property, or the old ones if a failure marker met a verdict; resolution, refute reason, age and every other edge unchanged |
| `Contradictions.ResolutionFields` | crates/alaya-bridge/src/cypher.rs:380-390 | an operator's call sets what, who and when, or clears all three, and touches nothing else |
| `Contradictions.SettledFields` | crates/alaya-bridge/src/cypher.rs:410-420 | settling stamps an edge without a resolution, and nothing else |
| `Contradictions.LinkedFields` | crates/alaya-bridge/src/cypher.rs:54-107 | a detection or a refute makes a bare edge of its age; on one that is there it sets the reason only, and only the first time |
| `Contradictions.UnsettledFields` | crates/alaya-bridge/src/cypher.rs:436-447 | unsettling clears all three parts of exactly that stamp, and nothing else |
| `Contradictions.WriteTouches` | crates/alaya-bridge/src/cypher.rs:29-107 | for every write, which nodes and edges are there afterwards, and which part of which edge it can touch |
| `Contradictions.WriteLeaves` | crates/alaya-bridge/src/cypher.rs:334-455 | what a judgement, a resolution, a settling and an unsettling leave on the edge they find, part by part |
| `Contradictions.Graph.SetResolution` | crates/alaya-bridge/src/cypher.rs:370-401 | a resolution is set, or all three properties cleared |
| `Contradictions.Graph.Settle` | crates/alaya-bridge/src/cypher.rs:403-428 | keep_both is stamped only where no resolution is |
| `Contradictions.Graph.Unsettle` | crates/alaya-bridge/src/cypher.rs:430-455 | only exactly that stamp is cleared |
| `Contradictions.UnsettleUndoes` | crates/alaya-bridge/src/cypher.rs:430-455 | unsettling after settling restores the graph if and only if the edge did not carry that very stamp before, nor who and when beside no resolution |
| `Contradictions.VerdictsStay` | crates/alaya-bridge/src/cypher.rs:336-351 | over every run of writes that does not remove the edge a verdict is only ever replaced by a verdict, and the first refute's reason and the edge's age stay |
| `Contradictions.VerdictIff` | crates/alaya-bridge/src/cypher.rs:336-351 | over every run, node and edge deletes included, a pair carries a verdict if and only if it did before and was never removed, or some judgement found its edge and nothing removed it since |
| `Contradictions.LastJudgementWhole` | crates/alaya-bridge/src/cypher.rs:336-352 | over every run the six parts of an edge's judgement belong together: those of the last judgement that took effect since the edge was made, else what it had before, else nothing |
| `Contradictions.PerformAll` | crates/alaya-bridge/src/cypher.rs:29-48 | the queries, one after another, leave the graph the run of their writes leaves, every edge between nodes that are there |
| `Contradictions.SettledStaysOut` | crates/alaya-bridge/src/cypher.rs:247-252 | a settled pair is in no default queue page in either direction, whatever is judged, refuted, settled or detected again since, while its edge is not removed |
| `QueuePages.OneRanking` | crates/alaya-bridge/src/cypher.rs:321-330 | the tiebreak leaves one order only |
| `QueuePages.NewestFirst` | crates/alaya-bridge/src/cypher.rs:321-330 | newer edges come first, equal ages by the two hashes ascending |
| `QueuePages.PageLength` | crates/alaya-bridge/src/cypher.rs:264-269 | a page holds at most 500 edges, and is shorter than asked only at the end |
| `QueuePages.PagesJoin` | crates/alaya-bridge/src/cypher.rs:321-330 | consecutive pages of an unchanged graph join up without repeating or dropping an edge |
| `QueuePages.GrowingDropsNone` | crates/alaya-bridge/src/cypher.rs:321-330 | while edges only join the queue between pages, none matching from the start is passed over by a caller who reads on to a page that is not full |
| `QueuePages.ShrinkingRepeatsNone` | crates/alaya-bridge/src/cypher.rs:321-330 | while edges only leave the queue between pages, none is shown twice |
| `Hebbian.Graph.StrengthenEdge` | crates/alaya-bridge/src/cypher.rs:642-676 | the MERGE: a new edge at the initial weight, an existing one raised and clamped, nothing without both nodes |
| `Hebbian.StrengthenedFields` | crates/alaya-bridge/src/cypher.rs:642-676 | weight, count and dates after a strengthening, of a new edge and of one that is there; every other edge unchanged |
| `Hebbian.DecayedFields` | crates/alaya-bridge/src/cypher.rs:680-706 | a decay multiplies the picked weights and touches nothing else |
| `Hebbian.Graph.DecayEdges` | crates/alaya-bridge/src/cypher.rs:680-706 | up to limit edges not recalled since the bound are multiplied, all of them if the limit allows; no other changes |
| `Hebbian.Graph.PruneWeakEdges` | crates/alaya-bridge/src/cypher.rs:708-718 | up to limit edges below the threshold go, all of them if the limit allows |
| `Hebbian.WeightsBounded` | crates/alaya-bridge/src/cypher.rs:644-706 | weights stay in (0, max] under every run of strengthenings, decays and prunings |
| `Hebbian.PerformAll` | crates/alaya-bridge/src/cypher.rs:642-718 | any list of queries leaves the graph the run of their actions leaves, each with the edges its LIMIT picked, and the weights bounded |
| `Hebbian.GapShrinks` | crates/alaya-bridge/src/cypher.rs:660-662 | a strengthening of any spacing shrinks the gap to max by the factor 1 - rate * spacing / max, to nothing where that is negative |
| `Hebbian.GapAfter` | crates/alaya-bridge/src/cypher.rs:660-662 | after a batch the gap is the first gap times the product of the factors |
| `Hebbian.ConsumerGap` | crates/alaya-bridge/src/queue.rs:14-16 | with the consumer's constants the gap to 1 after n strengthenings lies between 0.85^n and 0.925^n of the first |
| `Hebbian.ConsumerUnclamped` | crates/alaya-bridge/src/queue.rs:14-16 | the consumer's strengthenings never reach the clamp |
| `Hebbian.OrderIrrelevant` | crates/alaya-bridge/src/cypher.rs:644-676 | a batch of any spacings leaves an existing edge at one weight in any order |
| `Hebbian.FreshOrderMatters` | crates/alaya-bridge/src/cypher.rs:657-659 | on an edge not there yet two orders agree if and only if they begin with the same factor or each goes on to a spacing that takes the edge to max |
| `Hebbian.ConsumerFresh` | crates/alaya-bridge/src/queue.rs:14-16 | with the consumer's constants: if and only if they begin with the same spacing |
| `Hebbian.EdgesIndependent` | crates/alaya-bridge/src/queue.rs:63-72 | a queue moves each existing edge by the pairs that name it and nothing else |
| `Hebbian.BatchOrderIrrelevant` | crates/alaya-bridge/src/queue.rs:60-78 | two queues with the same strengthenings of an edge leave it at one weight and one count |
| `Hebbian.ConsumerLoop` | crates/alaya-bridge/src/queue.rs:32-91 | the loop applies the applied items in queue order, and however its turns fall any 201 consecutive operations take a second or more; it makes a turn wait only when the last 100 operations began within a second, no longer than a second and what the sleep overran |
| `SpendLedger.Ledger.Add` | scripts/judge_tune/tune.py:1499-1503 | one call more, and the total grows by its price |
| `SpendLedger.Ledger.Usd` | scripts/judge_tune/tune.py:1505-1511 | the total over all rows, in whatever order they are visited |
| `SpendLedger.MillionTokens` | scripts/judge_tune/tune.py:1505-1511 | a model's prices are for a million tokens, input and output apart |
| `SpendLedger.RunDir.OweSpend` | scripts/judge_tune/tune.py:2102-2116 | the mark is there before a chunk's first request, or the chunk is not started |
| `SpendLedger.RunDir.BookSpend` | scripts/judge_tune/tune.py:2119-2135 | the mark is cleared only with the line in the log; a failed, torn or killed append leaves it |
| `SpendLedger.RunDir.Repair` | scripts/judge_tune/tune.py:2129-2133 | striking a torn line, adding the owed one and deleting the mark restores the books, nothing forgotten |
| `SpendLedger.BookCalls` | scripts/judge_tune/tune.py:2016-2024 | each returned call is booked once in both ledgers and its own verdict is appended to its own pair; no other pair changes |
| `SpendLedger.SendChunk` | scripts/judge_tune/tune.py:2012-2034 | whatever a chunk's calls and disk do, what returned is booked or owed, and each pair of the chunk has gained the verdict its call returned, no other pair anything |
| `SpendLedger.JudgePasses` | scripts/judge_tune/tune.py:1981-2044 | at every exit but a kill each vote of a pair is the judge's answer to that pair in its pass and every answer is a vote, and votes equal booked calls; spend stays below the cap plus the last chunk, a kill included; on a normal return every pair has exactly `passes` votes and no mark is left; the cap stops a run that has bought something only if some chunk's mean call cost over 10 % more than the first's |
| `SpendLedger.RunSpent` | scripts/judge_tune/tune.py:2138-2148 | refused while a mark or a torn line is there, else the log's total |
| `SpendLedger.Eval` | scripts/judge_tune/tune.py:2256-2265 | over earlier evals of the run the total stays below the cap plus one chunk, give or take the log's rounding; a marked run is refused untouched |
| `SpendLedger.Evals` | scripts/judge_tune/tune.py:2102-2148 | after any sequence of evals ending in any way and of repairs between them, no mark means the log holds every returned call's cost, crashed chunks' included, to four decimals a chunk |
| `SpendLedger.NearestIff` | scripts/judge_tune/tune.py:1513-1522 | rounding is to the nearest, of two equally near to the even one |
| `SpendLedger.LogTotalNear` | scripts/judge_tune/tune.py:1513-1522 | the log's total is within half a hundredth of a cent a line of the true one |
| `SpendLedger.LogExactIff` | scripts/judge_tune/tune.py:1513-1522 | it is exact after every chunk if and only if every chunk cost a whole number of hundredths of a cent |
| `SpendLedger.CheapChunksVanish` | scripts/judge_tune/tune.py:1513-1522 | chunks of $0.00004 are booked as $0, however many |
| `MigrationPlan.MakePlan` | scripts/migrate_from_mcp.py:258-291 | the plan: an entry for every movable record and no other, one a record, none of it live, with every copy's reasons; skipped plus conflicted plus planned is the number of supersessions |
| `MigrationPlan.MovesIff` | scripts/migrate_from_mcp.py:272-291 | told on the source memories alone: a record is planned to move to a survivor if and only if every copy of it is superseded, by that one other record and no second, with exactly the copies' non-empty reasons |
| `MigrationPlan.SoundMeans` | scripts/migrate_from_mcp.py:272-291 | likewise: a superseded memory is shadowed if and only if some copy of its record is live, in conflict if and only if all are superseded and by two other records; the rest are stored |
| `MigrationPlan.ResolveIff` | scripts/migrate_from_mcp.py:260-262 | a source hash stands for the record of the last memory scrolled under it, or for itself when none is or it is empty |
| `MigrationPlan.Scroll` | scripts/migrate_from_mcp.py:178-242 | keys and supersessions in scroll order; an empty marker is live |
| `MigrationPlan.ToAlaya` | scripts/migrate_from_mcp.py:260-262 | a source hash resolves to the record of the last memory scrolled under it, any other to itself |
| `MigrationPlan.Grouped` | scripts/migrate_from_mcp.py:265-267 | the supersessions grouped by record, none lost |
| `MigrationPlan.Decide` | scripts/migrate_from_mcp.py:272-291 | one record's supersessions are shadowed, in conflict, skipped or planned, and counted once |
| `MigrationPlan.TotalIsAll` | scripts/migrate_from_mcp.py:258-291 | every supersession is counted under exactly one record |
| `MigrationPlan.Migrate` | scripts/migrate_from_mcp.py:320-366 | every memory left in is sent to be stored once, in order, batch by batch; a record counts as stored if and only if one of its attempts was not refused; the counters are the numbers of each answer; the supersessions posted are exactly the accepted ones with both records stored |
| `MigrationPlan.StoreAll` | scripts/migrate_from_mcp.py:335-345 | the batches send each listed memory once, in order, and count each answer once |
| `MigrationPlan.SupersedeAll` | scripts/migrate_from_mcp.py:126-159 | posted are exactly the entries accepted with both records stored; every other one failed |
| `MigrationPlan.LiveSurvives` | scripts/migrate_from_mcp.py:272-278 | no live content is hidden: a live memory is stored and its record never superseded |
| `MigrationPlan.PlannedIsStored` | scripts/migrate_from_mcp.py:321-323 | every planned record is sent to be stored by one of its copies |
| `Resp.TableRoundTrip` | crates/alaya-bridge/src/resp.rs:65-72 | a table printed in compact form, each string quoted or bare and each double as text or as a number, as the printer likes, is refused if and only if a double is not finite or a row does not fit the columns, and parses to the same columns, rows and stats if and only if no bare string begins and ends with a quote and no text of a double reads as another |
| `Resp.HeadersRoundTrip` | crates/alaya-bridge/src/resp.rs:40-50 | the same for headers and stats alone: the columns and no row |
| `Resp.RowsAloneRoundTrip` | crates/alaya-bridge/src/resp.rs:51-62 | the same for compact rows alone, under numbered columns, unless they look like headers |
| `Resp.CompactRowsAreNoHeaders` | crates/alaya-bridge/src/resp.rs:102-118 | rows whose cells all carry their type are never mistaken for headers |
| `Resp.MistakenIff` | crates/alaya-bridge/src/resp.rs:102-118 | rows with untyped cells are mistaken for headers if and only if the first has two cells and begins with an untyped integer |
| `Resp.BareRowsMistaken` | crates/alaya-bridge/src/resp.rs:102-118 | bare rows are mistaken if and only if the first has two cells and begins with an integer |
| `Resp.BareListNeverRead` | crates/alaya-bridge/src/resp.rs:172-182 | a bare list never comes back as one: read as a typed cell if it looks like one, refused otherwise |
| `Resp.CellIff` | crates/alaya-bridge/src/resp.rs:172-248 | a printed cell, nested to any depth, is decoded if and only if its doubles are finite, and to what it stands for if and only if every string in it is legible and the text of each double reads as that number |
| `Resp.ScalarIff` | crates/alaya-bridge/src/resp.rs:251-285 | an untyped value comes back as itself, a bulk string that reads as a number as that number; refused is only a double that is not finite |
| `Resp.OddInners` | crates/alaya-bridge/src/resp.rs:186-250 | typed cells with an unexpected inside: null whatever it holds, no text in a string cell refused, other types read as if untyped; what an untyped value refuses |
| `Resp.CellsIff` | crates/alaya-bridge/src/resp.rs:235-241 | so is a list of cells |
| `Resp.RowsIff` | crates/alaya-bridge/src/resp.rs:143-164 | rows are accepted if and only if each fits the columns, and come back if and only if legible |
| `Resp.ParsedShape` | crates/alaya-bridge/src/resp.rs:28-72 | only one to three arrays are an answer; stats alone are one |
| `Resp.HeadersReadIff` | crates/alaya-bridge/src/resp.rs:123-142 | headers are read if and only if each is an array with text in second place |
| `Resp.ColumnNumbered` | crates/alaya-bridge/src/resp.rs:51-62 | unnamed columns are col and their number in decimal |
| `Resp.NamesIff` | crates/alaya-bridge/src/resp.rs:123-142 | column names come back if and only if legible |
| `Resp.SplitIff` | crates/alaya-bridge/src/resp.rs:291-306 | a stat line splits back into key and value if and only if the key holds no ": " |
| `Resp.StatsIff` | crates/alaya-bridge/src/resp.rs:291-306 | stats under distinct keys come back if and only if every line is legible |
| `Resp.OtherLinesPassed` | crates/alaya-bridge/src/resp.rs:291-306 | a stat line without a separator, and what is no text, is passed over |
| `Resp.ParseStats` | crates/alaya-bridge/src/resp.rs:291-306 | the loop builds the specified map |
| `Resp.TextIff` | crates/alaya-bridge/src/resp.rs:308-323 | a string survives the stripping of quotes if and only if it went out quoted or does not begin and end with a quote |
| `Sampler.StratifiedSample` | benchmarks/longmemeval_bench.py:265-293 | terminates with min(n, |data|) entries, none twice; of each type the first ones in dataset order; per-type counts differ by one at most unless the smaller type is used up |
| `Sampler.SamplesNest` | benchmarks/longmemeval_bench.py:265-293 | a smaller sample is the beginning of a larger one |
| `Sampler.WalkOfType` | benchmarks/longmemeval_bench.py:281-291 | after any part of the walk each type has given exactly its first entries |
| `Sampler.WalkStratified` | benchmarks/longmemeval_bench.py:265-293 | every part of the walk is a stratified sample of its length |
| `Sampler.TypesOk` | benchmarks/longmemeval_bench.py:277-277 | the types present, each once, in ascending order |
| `Sampler.ByType` | benchmarks/longmemeval_bench.py:273-275 | each type's entries in dataset order |

## Left out

- HTTP, authentication, timeouts, retries with sleeps, error texts and logging: I/O around the modelled steps.
- Replication inside Qdrant: a conditional write and a read are one step each on one copy.
- Payload.ParsePayload: the valence, the context and the provenance are kept as stored, not parsed, and the numbers of a summary vector are not cut to 32 bits; the audit log and the reason are read from the payload itself, as nothing writes them from a memory.
- Vectors of a point: a store writes them with its payload; no property here reads them.
- Overflow of the 64-bit access count and write counter: neither is reached by counting.
- UpdatePoints.UpdatePoints: a failed batch read aborts the call as in the program; the outcomes of its points are then not reported, only that they ran as the state machine does.
- MigratePoint.Store.Migrate: assumes of the other writers what Lifecycle.FlatStep proves of them, that none brings the flat key back.
- AccessTurn.WithinTwoRounds: one client and one point, as the program claims it; other clients' writes can cost further rounds, which VerdictExact covers.
- Reads and searches, filters, novelty and health queries, trait defaults and clients of other services: wrappers with no state.
- The sweep's holds and paging limits: bounds on how much one call deletes, easy beside the race.
- QueuePages.PagesJoin: speaks of a graph that does not change between pages; GrowingDropsNone and ShrinkingRepeatsNone say what is left when it only grows or only shrinks, and SKIP and LIMIT promise nothing when it does both.
- SpendLedger.Eval: the cap is met up to the log's rounding, because the log rounds each chunk; LogExactIff says when it is exact. A kill leaves the ledger in memory out of account, the mark and what is owed stay.
- The threads of a chunk: calls return in any order and are booked in chunk order, as the program does after the pool has drained.
- Float text parsing in the RESP decoder: a parameter. Bytes of strings are text or not UTF-8, nothing between.
- Cosine similarity: a parameter of the pipeline, without NaN. The similarity a group reports is at least 0, as the program folds from 0.
- Joining and sorting of a planned supersession's reasons into one text: the plan holds them as a set.
- Consensus, scoring and metrics of the eval and the benchmark (`score`, `dcg`, `ndcg_at_k`), trust and salience formulas: single expressions.
