# Laika, verified

Laika keeps search documents in step with upstream resources while changes,
builds, deletes and rebuild walks run concurrently. It holds no lock across a
fetch: correctness rests on one global Change Sequence, on guards that compare
its numbers, and on a fixed order of steps. This project models that logic and
proves what it promises. `dafny verify dfyconfig.toml` checks all of it.

## The parts

**The protocol.** `Rows` gives each store statement's effect on a row as a
function. `ConvergenceModel`, `ConvergenceProof` and `ConvergenceTheorems` are
a state machine over any number of resources: live builds, targeted rebuilds,
rebuild walks, probe passes, registrations in five phases with their second
fanout, sweeps and drift checks, one atomic statement a step, and an inductive
invariant of every reachable state. `RowProtocol` and `RowTheorems` are one
row with tombstones, notified deletes, recreates and hard deletes.

**The store and the registrations.** `StoreModel.Store` is the statements again
as methods that update rows, edge sets and the sequence in place, each proved
equal to the `Rows` function or to a specification of its batch.
`Register.Indexer` is the registration with its second fanout, the hand-over
of claims to the pool and the notified delete. `Locks` is the row locks.

**The rebuild flusher.** `FlusherClass.Flusher` is the class, method by
method. Its fields are the source's; three ghost fields record each id's
history of sightings, the documents not yet counted, and every effect outside
the flusher, the edge sets stored and the drift checks made among them.
`FlusherModel` holds the invariant, and `FlusherEffects`, `FlusherState`,
`FlusherSightings` and `FlushModel` one lemma a step. `WalkModel` states what a
walk of several plans owes each id from the listings alone, `WalkEdges` what
edge sets it leaves, and `Walks.WalkAll` proves that the streaming walk gives
exactly that for every chunk size. `Checkpoint` is the resumable walk of a
single plan, and series of aborted and resumed attempts.

**One Build call.** `Plans` is what the plans answer, `Batches` how ids are
cut, `BuildCall` the call itself with the order of its steps per id.

**The pool.** `Pool` is the build pool with a program counter per goroutine.

**Queries and relations.** `Query` compiles filters and scoped blocks to
clauses whose meaning on a document is defined; `Fanout` merges the legs of a
fan-out; `Federated` runs a whole federated search in each execution mode
against the documents its request means; `Relations` is the topological order
and the checks before it.

A call that may fail, an ended context, a lease that expired and a change that
arrives meanwhile are nondeterministic choices. In the flusher a crash is one
too: from a chosen call on, no call has an effect. `reliable` marks the runs
the batch answer is stated for, in which every call succeeds.

## Properties that are false, and when they hold

A rebuild that selects some of a type's versions ends in `complete`, which
clears the stale mark its begin captured. That mark may stand for a change
that a version outside the selection has not fetched; clearing it leaves that
version's document outdated with no mark. `ConvergenceTheorems.SelectionLosesMark`
is such a run, and `ConvergenceTheorems.ConvergesExactly` proves that a version
converges in every reachable state if and only if every rebuild selection runs
it.

The result of a walk is meant not to depend on where its chunks end, and how
each id fares does not. What an id's last plan stores does: once the id has
settled, a repeat of its document is ignored, so a chunk that ends between two
documents of the id keeps the first and a chunk that holds both keeps the
second. `WalkEdges.RepeatsShow` is such a listing, and `WalkEdges.LastStays`
says when the last document's children stay: for every chunk size if the last
plan's documents of the id never vary, and with a chunk size of one if and only
if the first and the last agree.

A drift check re-marks every root with a changed resource only while no checked
row vanishes between its queries: `FlushModel.MissedExactly` says when one is
passed over, and `FlushModel.VanishMisses` is such a check.

## Model

| member | source | states |
|---|---|---|
| ConvergenceTheorems.RunConverges | core/register.go:115-181 | In every run, an outdated kept document of a version every selection runs leaves its root marked, or its writer's drift check of the changed resource is still to come, or it is a child's change whose second fanout is; a root's own change leaves any but a walk's document marked at once, and a probe pass's waits for nothing |
| ConvergenceTheorems.ConvergesExactly | core/rebuild_flusher.go:467-478 | A version converges in every reachable state exactly when every rebuild selection runs it |
| ConvergenceTheorems.SelectionLosesMark | core/rebuild_flusher.go:188-204 | A selection without a live version reaches a state in which that version's document is outdated and nothing marks it |
| ConvergenceTheorems.EdgesFollowDocuments | storage/postgres/pg.go:126-270 | A set's stamp never exceeds its document's version, and once every writer has offered its set, set and document come from the same, highest build |
| RowTheorems.NoMarkLost | storage/postgres/pg.go:858-901 | A mark goes only with a finish that captured exactly its stale_seq and began after it; any other step keeps it or raises it, and an outrun owner is handed the row on |
| RowTheorems.SupersededRemovesNothing | core/handle.go:73-103 | A superseded delete removes no row, document or edge set |
| RowTheorems.DeleteSparesRecreated | core/handle.go:22-50 | No step of a delete touches a document or set written above a recreate that stands against it |
| RowTheorems.DeleteSparesRow | core/handle.go:22-103 | In every run no delete removes a row whose last registration is not a delete, its mark standing or long cleared by the recreate's build |
| RowTheorems.RowGoes | storage/postgres/pg.go:904-952 | A row goes only with a delete that takes a tombstone's at the mark it was started at, or with a build begun after the row's last mark and every registration |
| RowTheorems.RecreateKept | storage/postgres/pg.go:918-952 | While a recreate is the last registration, its mark goes only with a build begun after it |
| RowTheorems.Ownership | storage/postgres/pg.go:737-796 | An owner implies a mark, change_seq is at most stale_seq, and a failed owner leaves its row unowned and marked, waiting exactly when it already was or no registration came since the claim |
| RowTheorems.ClaimReads | storage/postgres/pg.go:311-318 | owner_seq equals stale_seq after a mark exactly when that mark claimed the row |
| RowTheorems.StampsFollowSlots | storage/postgres/pg.go:126-161 | With deletes too, a stored set never runs ahead of its document's version |
| RowTheorems.CappedExponent | storage/postgres/pg.go:766-796 | Holding the exponent at 62 changes no delay a duration can cap |
| StoreModel.Store.RegisterChanges | storage/postgres/pg.go:319-442 | An item is accepted exactly by its version check, gets a number of its own as change, mark and, unowned, token; exactly the Parents of accepted items, but for those, are marked |
| StoreModel.Store.MarkStale | storage/postgres/pg.go:545-597 | Each distinct resource is marked once at a fresh number, and with a lease exactly the rows without a live owner are claimed |
| StoreModel.Store.BeginBuild | storage/postgres/pg.go:618-642 | The Build Sequence is fresh, above every number of the row, and the captured mark is below it |
| StoreModel.Store.BeginDelete | storage/postgres/pg.go:654-671 | Begins exactly on a tombstone, and otherwise changes nothing |
| StoreModel.Store.ClearStale | storage/postgres/pg.go:858-870 | The mark goes, and the ownership with it, exactly when its stale_seq is the captured one; the backoff goes either way, and no other row or column moves |
| StoreModel.Store.FinishOwned | storage/postgres/pg.go:880-901 | Clears the captured mark whatever the token; a moved mark stays, and the owner still holding the row takes it over at that mark; a finish that lost its row changes nothing, the backoff included |
| StoreModel.Store.DeleteResourceIfSeq | storage/postgres/pg.go:918-952 | Removes exactly the row whose mark was captured; otherwise the mark stays, the backoff is reset, the owner still holding the row takes it over and any other keeps it |
| StoreModel.Store.RenewOwners | storage/postgres/pg.go:688-718 | Returns exactly the ownerships still held |
| StoreModel.Store.Release | storage/postgres/pg.go:722-796 | Each row an ownership still holds loses its owner and nothing of its mark; after a failure it waits with one more attempt, unless the resource itself was registered since the claim; a row not held does not move |
| StoreModel.Store.ListStale | storage/postgres/pg.go:954-1010 | Claims the earliest-turn eligible rows, as many as the limit allows, each at its own mark |
| StoreModel.Store.ParentsOf | storage/postgres/pg.go:449-470 | Every Parent a stored edge of the children names, across versions |
| StoreModel.Store.AnyChangedSince | storage/postgres/pg.go:830-851 | Whether some checked resource's change is above its start |
| StoreModel.Store.ReplaceEdges | storage/postgres/pg.go:172-270 | Deciding version by version leaves each offered set that no newer stamp outranks, and drops undeclared sets at or below the stamp |
| StoreModel.Store.RemoveResource | storage/postgres/pg.go:90-124 | Removes exactly the sets not stamped above the delete |
| StoreModel.ReplacesCommute | storage/postgres/pg.go:126-161 | Whichever of two builds' replaces runs first, the newer one's sets stand unless a still newer stamp outranks them; the two orders agree exactly when the older offers no version the newer one drops |
| StoreModel.RemovalSparesNewer | storage/postgres/pg.go:76-89 | A removal and a newer build's replace, declaring versions or not, leave the same sets in either order, and that build's among them |
| Register.Indexer.RegisterChanges | core/register.go:61-113 | Refuses exactly an unknown type or a repeated resource. In the store the accepted items are registered and their Parents marked, each at its own fresh number, and no other row moves; after the second fanout, which fails only with a call of it, every Parent an edge then names is marked too. Exactly the marked rows without a live owner are claimed, no claim before the marks, and every claim is submitted, as a delete exactly for a deleted item, or released |
| Register.Indexer.MarkMissedParents | core/register.go:144-181 | In the store, every Parent the edges name at its read that the statement did not mark is marked at a fresh number, claimed if it has no live owner, and no other row moves |
| Register.Indexer.ScheduleBuild | core/schedule.go:29-39 | In the store exactly the roots are marked, at fresh numbers; exactly those without a live owner are claimed; the mark lands before the submissions, and a claim still holds its row or was released |
| Register.Indexer.Commit | core/register.go:70-87 | What the statement leaves of the rows: items registered, Parents marked, each at its own fresh number, and the claims those marks took |
| Register.Indexer.SubmitBuildBatches | core/schedule.go:55-76 | Every claimed entry goes to the pool or back once, and an unclaimed one nowhere; the rows keep their marks, and exactly a claim given back loses its row |
| Register.Indexer.DeleteOne | core/handle.go:73-103 | Succeeds exactly when no call fails. Deletes only at the sequence drawn on a tombstone, nothing when superseded, the edge sets only after every document, and removes the row exactly if its mark did not move; a moved mark stays, its backoff reset and its ownership handed on or released; a failure keeps the mark and releases the ownership with a backoff |
| Locks.NoDeadlock | storage/postgres/pg.go:146-161 | In every reachable state of any number of transactions the wait-for graph, queueing included, has no cycle |
| Locks.ReplaceProgram | storage/postgres/pg.go:180-225 | A replace takes exactly its versions' rows in ascending order and the resources row last |
| Locks.RemoveProgram | storage/postgres/pg.go:76-124 | A removal takes exactly the stored versions' rows in ascending order |
| Walks.WalkAll | core/build.go:966-1226 | In a reliable walk of several plans every id fares as its listings alone say, for every chunk size, and its edge sets hold what the listings' documents fetched; in any walk no document is written and deleted at one sequence and a marked-failures error means every failed id is marked |
| Walks.AnswersHold | core/rebuild_flusher.go:861-880 | Refused ids are failed and marked, removed ones erased or left marked, rebuilt ones stored, every landed document's children and the root checked for drift and any change found marked, with their nils applied and their captured mark's clear issued |
| WalkModel.EndEntry | core/rebuild_flusher.go:119-168 | After the last flush an entry has failed or is unsettled exactly when some plan contradicted itself or never listed the id, and otherwise settled on what the plans said |
| WalkModel.MirrorSees | core/build.go:1120-1161 | A sighting keeps every entry's history equal to what the plans have listed so far |
| WalkEdges.LastStays | core/rebuild_flusher.go:250-258 | Over the whole walk a version ends with the children of its plan's last document, always for every plan but the last, and for the last if its documents of the id never vary; with a chunk size of one exactly if its first and last agree |
| WalkEdges.RepeatsShow | core/rebuild_flusher.go:327-347 | Two listings for which a chunk size of one and a single flush end with different edge sets |
| WalkEdges.TellSees | core/rebuild_flusher.go:327-401 | A sighting keeps each history's children those of its plan's last document so far, but for a settled id's repeats |
| FlusherClass.Flusher.Add | core/rebuild_flusher.go:327-347 | Enters the document in its id's history, or fails the id if its version said nil |
| FlusherClass.Flusher.Gone | core/rebuild_flusher.go:369-401 | Enters the nil in its id's history, or fails the id if its version returned a document, and settles the id on its last outcome |
| FlusherClass.Flusher.Flush | core/rebuild_flusher.go:628-791 | After a successful flush nothing is pending, every standing entry still awaits an outcome, each of its landed documents has had its children checked, and every change found has marked it |
| FlusherClass.Flusher.Group | core/rebuild_flusher.go:661-680 | Groups exactly the chunk's documents by id, and notes exactly the ids with a rejected one |
| FlusherClass.Flusher.IsRejected | core/rebuild_flusher.go:645-655 | A failure rejects the document it names, and one naming none of the chunk any of its id |
| FlusherClass.Flusher.EdgeSets | core/rebuild_flusher.go:693-711 | One set per landed version, holding its last document's relations |
| FlusherClass.Flusher.StoreOne | core/rebuild_flusher.go:692-718 | Each landed version's stored set holds the children of its last document, or the id fails |
| FlusherState.EdgeGood | core/rebuild_flusher.go:681-718 | Storing a queued version's or a nil's edge set keeps what every entry's edge sets owe its history |
| FlusherClass.Flusher.CountDocs | core/rebuild_flusher.go:728-752 | Each landed version counts once, in plan order, whatever its repeats, and the checks listed are exactly the root's, in a walk, and every child's, at the root's start |
| FlusherClass.Flusher.CheckDrift | core/rebuild_flusher.go:812-851 | Every root with a child, or itself, changed above its start is re-marked or failed while no row vanishes; even then a hit re-marks or fails some root, and with every query answered exactly ToRemark's roots are marked |
| FlushModel.MissedExactly | core/rebuild_flusher.go:825-842 | A changed root is passed over exactly when its own query no longer shows the change and another root's shows one |
| FlushModel.VanishMisses | core/rebuild_flusher.go:838-842 | A row deleted between the queries hides its root's change behind another root's |
| FlusherClass.Flusher.Narrow | core/rebuild_flusher.go:826-840 | The narrowing keeps every root whose checks show a change, as long as no row vanishes or it is the only root |
| FlusherClass.Flusher.DropNils | core/rebuild_flusher.go:425-445 | Deletes every nil version's document and empties its set, or fails the id |
| FlusherClass.Flusher.Complete | core/rebuild_flusher.go:470-478 | Settles an id whose outcomes have all arrived, its clear guarded by the captured stale_seq |
| FlusherClass.Flusher.RemoveGone | core/rebuild_flusher.go:522-535 | Erases an id every expected plan found gone and removes its row, or fails it |
| FlusherClass.Flusher.HandleDelete | core/handle.go:22-50 | Deletes each version's document in turn, then the edge sets; a failed call leaves exactly the documents before it deleted |
| FlusherClass.Flusher.LeaveGone | core/rebuild_flusher.go:494-507 | Applies the nils and leaves the id marked, or fails it |
| FlusherClass.Flusher.Fail | core/rebuild_flusher.go:561-576 | Counts and marks an id once, drops its queued documents, and records a failed mark |
| FlusherClass.Flusher.Finish | core/rebuild_flusher.go:861-880 | Nothing begun is forgotten: every life settled, or is marked, or a mark failed; exactly the unsettled ids are added to the failed |
| FlusherClass.Flusher.Salvage | core/rebuild_flusher.go:885-909 | After an abort every life settled, or is marked, or a mark failed, and no mark is said to have failed unless the one call did |
| FlusherClass.Flusher.ErrorIfFailed | core/rebuild_flusher.go:917-925 | No error exactly with no failed id; the error that is not retried counts each once and means every one is marked |
| FlusherEffects.AskKeeps | core/rebuild_flusher.go:416-445 | Deleting a nil's document clashes with no write at its sequence |
| FlusherEffects.EraseKeeps | core/rebuild_flusher.go:509-535 | Erasing a resource every expected plan found gone clashes with no write at its sequence |
| FlushModel.SendClash | core/rebuild_flusher.go:628-644 | A chunk writes no document asked to be deleted at its sequence |
| FlushModel.CountTied | core/rebuild_flusher.go:728-752 | Counting the next landed document keeps the entry's count equal to the outcomes outstanding |
| Checkpoint.SoloFlushed | core/build.go:1018-1039 | Right after a flush of a single-plan walk everything begun has settled or is marked, unless a mark failed |
| Checkpoint.AfterFlush | core/build.go:1018-1039 | Reports the last completed page boundary exactly when there is one and no mark of the walk has failed, and the cursor then is safe to resume from |
| Checkpoint.Attempt | core/build.go:974-1039 | At the last reported cursor, always a page whose token can be resumed from, every id listed before it and not from it on is kept; a done attempt kept every id it listed; and an attempt in which no call fails is done, its cursor at or past every such page whose later documents have landed |
| Checkpoint.AttemptResumes | core/rebuild.go:77-92 | An attempt resumed at a safe cursor leaves its last cursor safe |
| Checkpoint.Attempts | core/rebuild.go:77-92 | Any series of crashed, aborted and resumed attempts that ends in a done one leaves no listed id both unsettled and unmarked, and one with an attempt in which no call fails ends in a done one |
| Plans.ExecutePlan | core/rebuild_flusher.go:71-111 | One answer per asked id; the call fails exactly on a run's error or an id not asked or answered twice; an unanswered id is an error, never a nil |
| Plans.ExecuteAllPlans | core/build.go:787-812 | Each id's documents, nils or error are exactly what the active plans answered |
| Plans.DocsAndMissing | core/build.go:776-786 | Documents and nils partition the active versions of an id no plan failed |
| Plans.GoneMeans | core/build.go:289-318 | With no document and no error every active plan said nil |
| Plans.PlansForRebuild | core/rebuild_flusher.go:15-42 | Selects exactly the named versions' plans, and refuses an unknown version |
| Plans.RunsEveryActive | core/rebuild_flusher.go:49-62 | The counts agree exactly when every active plan is selected |
| Batches.IdBatches | core/build_batch.go:47-67 | The ids once each in order of first appearance, in full batches but for the last |
| Batches.OwnedBatches | core/build_batch.go:72-94 | Batches of one type, none above its size, that flatten to the claimed entries by type in order |
| Batches.BatchesKeepEvery | core/build_batch.go:72-94 | Every entry with a token is in the batches as often as given, and no other is |
| BuildCall.Build | core/build.go:89-142 | Every distinct owned id ends exactly once, and every id once the call got to all; nothing happens for an id after its end; an id every active plan found gone is removed or fails, and only such an id is erased; an id fails only on a failure of its own and is released with a backoff exactly while the context lasts; the call succeeds exactly if it got to every id and no failure met the context ended; what is submitted is exactly what the finishes re-claimed |
| BuildCall.BatchBuild.BuildOn | core/build.go:289-431 | Every answered id ends: one that stands, by a finish only after its writes, deletes, edges and checks succeeded in that order; one gone at source, by its removal; and otherwise by its own failure |
| BuildCall.BatchBuild.BuildBatch | core/build.go:201-270 | Every id of a batch ends, whichever begin or plan call fails, and an id whose calls all succeed does not end by a failure |
| BuildCall.BatchBuild.FinishGone | core/build.go:512-526 | An id is erased only when every active plan, one at least, said nil in so many words, and its row goes only after its documents did |
| BuildCall.BatchBuild.DeleteNils | core/build.go:341-362 | Deletes the nil versions' documents after the writes; the first failure fails the id |
| BuildCall.EmitSound | core/build.go:289-309 | A step with its ground, of an id not yet ended, keeps the record sound |
| BuildCall.AnsweredNow | core/build.go:764-786 | An entry's outcome is all of, and only, what its plans said: an error exactly from a plan that erred or left it out, and gone exactly when every active plan said nil |
| BuildCall.SortedBy | core/build.go:291-304 | An answered id stands, is gone at source or may fail, and which of them its outcome says |
| Pool.Drain | core/pool.go:93-126 | Once closed is set and pending reads 0, every accepted task has run and none is accepted later |
| Pool.ShutdownDrains | core/pool.go:191-207 | A shutdown that returns drained has drained |
| Pool.SubmitTells | core/pool.go:93-172 | A submission that has returned returned true exactly if its task was accepted |
| Pool.WorkersStay | core/pool.go:64-78 | A worker leaves only after some shutdown has stopped waiting, and the waiters of a closed pool are told |
| Pool.PendingCounts | core/pool.go:23-33 | pending is queued plus running plus submitters between their increment and their enqueue or undo |
| Pool.NoLostWakeup | core/pool.go:43-49 | A parked waiter below the mark of an open pool has a token, or someone about to signal or to pass it on |
| Query.SuffixPattern | backend/elasticsearch/search.go:674-680 | A suffix filter's pattern matches exactly the strings that end with the value, metacharacters included |
| Query.ContainsPattern | backend/elasticsearch/search.go:682-688 | A contains filter's pattern matches exactly the strings that hold the value |
| Query.FilterMeans | backend/elasticsearch/search.go:617-638 | A filter's clause holds of exactly the documents it means, a negation on a nested path meaning no entry matches, and fails to compile exactly when a value is missing or the op unknown |
| Query.NegationMeans | core/filter_ops.go:34-40 | Neq, not-in and not-exists compile exactly when eq, in and exists do, and hold of exactly the documents those do not, on a nested path too |
| Query.ScopedBlockFor | backend/elasticsearch/search.go:578-589 | Finds a scoped block exactly when some block's name is what stands before the first dot of the field |
| Query.ScopedNestedClause | backend/elasticsearch/search.go:591-615 | The clause holds exactly when one entry carries the scope and satisfies every filter, and never without a scope |
| Query.ScopedFilterClauses | backend/elasticsearch/search.go:541-574 | The clauses hold exactly when every other filter holds and each scoped block has one serving entry; with a scoped block and no scope they match no document |
| Query.IndexFilterGroups | backend/elasticsearch/search.go:503-531 | The groups' clause holds exactly when the document's own Type's group does |
| Query.SingleQuery | backend/elasticsearch/search.go:247-290 | The single query holds exactly when the shared filters, the text and the document's group hold |
| Query.LegQuery | backend/elasticsearch/federated_fanout.go:157-179 | A leg's query holds exactly when the shared filters, the text and its group hold |
| Query.LegAgrees | backend/elasticsearch/federated_fanout.go:17-35 | For distinct Types a document of a leg's index satisfies the leg exactly when it satisfies the single query |
| Fanout.PagingWindow | backend/elasticsearch/search.go:30-39 | Refuses exactly the windows past the limit, with no wrap-around in int64 |
| Fanout.SortedIs | backend/elasticsearch/federated_fanout.go:133-141 | The order of the hits: score descending, then index, then id, strings deciding at their first difference |
| Fanout.Page | backend/elasticsearch/federated_fanout.go:142-144 | Hit i of the page is hit from + i of the list, and the page is full unless the list ends |
| Fanout.MergeAgrees | backend/elasticsearch/federated_fanout.go:37-42 | A list of hits is a page of the merged first windows exactly when it is that page of the fully sorted union |
| Fanout.Merge | backend/elasticsearch/federated_fanout.go:112-147 | Merges every leg's window in the total order, counts each leg, and fails exactly on a leg's failure other than a missing index |
| Fanout.FederatedFanout | backend/elasticsearch/federated_fanout.go:36-147 | Hit i of page p is hit p * size + i of every leg's hits, fully sorted, and the page is as long as they reach |
| Federated.RunLegs | backend/elasticsearch/federated_fanout.go:43-84 | Refused exactly for a filter that does not compile; each leg answers with the documents of its index that its group means |
| Federated.LegsCover | backend/elasticsearch/federated_fanout.go:17-35 | The legs together hold exactly the documents the request means |
| Federated.SearchFanout | backend/elasticsearch/federated_fanout.go:36-147 | The page, total and each alias's count are those of the sorted documents the request means |
| Federated.SearchSingle | backend/elasticsearch/search.go:247-328 | The page, total and each index's bucket are those of the sorted documents the request means; a missing index empties the response |
| Federated.FederatedSearch | backend/elasticsearch/search.go:222-242 | Every mode refuses the same requests, fails otherwise exactly when a call of its own fails, and answers with the same page of the same documents in the order of its scores, and with the same tracked counts, a missing index aside |
| Relations.ResolveOrder | app/dsl/plan.go:154-197 | A permutation in which every relation follows its sibling; fails exactly on a missing sibling or a cycle |
| Relations.Resolver.Visit | app/dsl/plan.go:164-187 | Visits a relation after its sibling, terminating because each nested visit stacks one more |
| Relations.VerifySiblings | core/resource/validations.go:61-78 | Passes exactly when every key source is a sibling that is not a reference |
| Relations.VerifyNoCycles | core/resource/validations.go:99-140 | Passes exactly the versions with no dependency cycle |
| Relations.OrderValidated | core/resource/validations.go:92-95 | A config that passes both checks always gets an order |

## Left out

- Postgres: each statement is one atomic step, and `Store.ReplaceEdges` one transaction but for its locks. Rows of transactions still uncommitted when a statement starts (seams S4 and S14), and with them BeginBuild's second draw, are not modelled.
- Elasticsearch: HTTP, JSON, scoring, analyzers, refresh and index.gc_deletes (S16). A slot keeps the highest version, deletes included; a text query's matches, and the order of a range's values, are parameters of `Query.Engine`; values compare as strings.
- Time: an expired lease, a due backoff and a mark old enough are nondeterministic; pacing is a flush at any page or item.
- The metadata a row or plan carries, ReplaceEdges' report of it, and logging.
- ConvergenceTheorems.RunConverges: a batch's stale-version check is any accepted subset, and rows are not hard-deleted there; `RowTheorems` covers both on one row.
- RowTheorems.CappedExponent: exact integers, without the rounding of double precision.
- Walks.WalkAll: plans without an Executer are dropped before the walk, and the probe pass after a selected walk is not run.
- FlusherClass.Flusher.CheckDrift: the rows one batched query sees are one snapshot; a later query sees at least their changes, or, where rows vanish, anything.
- WalkEdges.LastStays: at a chunk size between one and a single flush, the last plan's set is stated to be one of its documents' only; which repeat stays depends on where the other ids' items end the chunk.
- Walks.WalkAll: the flusher's own effects are recorded, not other builds' between its calls; those interleavings are `ConvergenceModel`'s.
- Checkpoint.Attempts: the listing is the same in every attempt, as a cursor requires.
- BuildCall.Build: lease renewal, the count of failed ids and the Parents a plan derives are not recorded.
- Register.Indexer.RegisterChanges: a wait for a slot is a submission like any other (`Pool` models the wait), and the statement does not fail; one that did would change nothing and return its error.
- Register.Indexer.DeleteOne: its effect is stated without other statements between its own; `RowProtocol` interleaves them.
- Federated.FederatedSearch: a document scores by the text query alone, alike in the single query without DFS and in its leg, as on single-shard indexes; a partial response counts as a failed call.
- Query.FilterMeans: a clause's meaning is this project's reading of the Elasticsearch query DSL.
- Targeted rebuilds by id, the sweep's loop, BeginBuilds' batch form, aliases, capabilities, mapping diffs and scan tokens.
- Temporal workflows, schedules, servers, providers, command-line tools and configuration files.
