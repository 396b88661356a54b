# Ahead: verified model

Ahead is a local-first sync engine. Clients keep their rows in local tables, apply mutations
optimistically, push them in batches, and learn what the server has through receipts and pages of
changes. This project models its state machines in Dafny and proves, for every run, what its
simulator checks on random ones.

`dafny verify dfyconfig.toml` checks everything.

## The pieces

- **Slots** (`slots.dfy`): mutation arguments travel as a flat operation list; the compiler's ambiguity
  check is exactly what makes greedy decoding invert emission.
- **The optimistic engine** (`records`, `writing`, `queue`, `optimism`, `enqueueing`, `enacting`, `extending`,
  `cascades`, `graphs`, `deriving`, `authority`, `landing`, `folding`, `series`, `loose`, `schedule`, `upkeep`,
  `engine`, `receipts`, `rounds`): a class over the visible table, the before images, the queue of pending mutations,
  stamps and cursors. Its invariant: before images exist only for dirty records, a dirty record whose operations
  replay over its before image shows that replay, the queue and its counters are consistent, and every ordinal is one
  of queued, accepted or rejected. Methods state what happens to every record's *base* (its truth) and stamp, in every
  schema: `landing` says what a delivery does to all of them, cascades included, `folding` what an accepted mutation's
  companions do, `series` what pages and receipts come to over time. `writing` says independently of any replay what
  rows hold field by field, `receipts` what a receipt and a delivery come to without the functions that specify how.
- **Limits** (`orders`, `limits`, `leaks`): what the code does not do, each with an input and the exact extent.
- **The server** (`storage`, `pushing`, `batches`, `publishing`, `verdicts`, `server`, `paging`, `reading`): tables
  with stamps, heads and one compacting invalidation row per channel and record; pushes with a savepoint per mutation;
  pulls.
- **The protocol** (`messages`, `pages`, `protocol`, `delivery`, `convergence`, `replicas`): one server, any
  number of clients, and a network from which anything ever sent may be delivered any number of times,
  in any order, or never. `delivery` proves exactly-once and that receipts always complete, for any handlers and
  loaders; `convergence` proves what clients hold; `replicas` shows the engine's methods are the protocol's steps.
- **Live lanes** (`pulls`, `streams`, `lane`, `progress`, `live`): the ledger of issued pulls, the server's
  subscription stream, and the client's live session over its connection driver.

## Where the code does less than one would state

- A record created and touched again in one mutation is copied aside as if it were truth
  (`EnqueueTruth` gives the exact condition, `CreateThenUpdateLeaks` an instance). Such records, those moved by
  accepted local companions and those a deletion cascaded over are *leaked*: held with something else than their
  stamp says, until a newer stamp lands. The protocol's steps say exactly which records leak and which are whole
  again; a record whose model declares no cascading relation never leaks in a run without such drafts and
  companions (`NeverLeaks`).
- Such a leak may outlive its mutation: dropping the draft leaves the row it created as the record's truth, with nothing
  pending (`LeakOutlivesDraft`), so a client at the head may show something else than the server (`LeakedStaysAtHead`).
- A cascade deletes records without touching their stamps. The order of deliveries is irrelevant for a record, and
  truthful deliveries of it are never reported as conflicts, exactly when no state the schema accepts makes it a
  cascading child of another record (`OrderMattersExactly`, `ConflictsExactly`; `CascadeOrderMatters` and
  `CascadeConflicts` give the inputs); it is so whenever its model declares no cascading relation
  (`OrderIndependentSeries` and `SeriesNeverConflicts` then assume nothing about rows or other records). What a
  delivery or a receipt does is stated to the letter in every schema.
- A delivery the client cannot use is *missed* until it holds that stamp. At the head that is exactly why a record
  is not held at its current stamp (`Converged`).
- Cascade effects are stored after all operations of a mutation though they were applied before some of
  them (`EnqueueShown`, `DeleteParentThenCreateChildDiffers`). Such records are *loose*: they may show
  something else than their replay until they are next rebuilt; every one of them has a cascade effect pending
  (part of the engine's invariant).
- `refresh_pending` compares with the effects stored when its walk began: one walk stores an effect once for each
  deletion of the mutation that reaches the record (`WalkCounts`, twice in `WalkStoresTwice`). A second effect
  changes no replay (`SecondEffectIsSilent`).
- One walk covers exactly what its deletions reach at their stops (`WalkCovers`); extending a later deletion may
  bring a record back under an earlier one (`LateDescendant`).
- Starting the driver over under a running session leaves the session going with nothing in flight by
  the driver's account (`HandledKeeps` gives the exact condition).
- Dependencies are rows that disappear with either mutation, so what is in flight depends on nothing still
  queued; this is what makes rejections spare the accepted part of a batch.

## Model

| member | source | states |
|---|---|---|
| Slots.CheckAmbiguity | crates/compiler/src/validate.rs:832-851 | The nested backward scan accepts a slot list exactly when no later slot can be confused with an earlier non-single one without a single slot between them. |
| Slots.EmitOperations | crates/compiler/src/emit.rs:329-359 | The generated client emits the operations of the arguments slot by slot. |
| Slots.DecodeOperations | crates/server/src/lib.rs:304-394 | The server's greedy loop refuses a single slot without its operation and leftover operations, and otherwise groups as its specification does; payload refusals aside. |
| Slots.GroupOperations | crates/client/src/policies.rs:104-132 | The client's walk over the same slots, which never refuses. |
| Slots.GroupAgrees | crates/client/src/policies.rs:104-132 | Whatever the server accepts, the client groups the same way. |
| Slots.DecodeThenEmit | crates/server/src/lib.rs:304-394 | Arguments the server decodes would be emitted as exactly the operations it was sent. |
| Slots.EmitThenDecode | crates/server/src/lib.rs:304-394 | On an accepted slot list decoding gives back every assignment of arguments. |
| Slots.CodecExact | crates/compiler/src/validate.rs:828-851 | The ambiguity check is exact: it accepts if and only if greedy decoding inverts emission for every assignment of arguments. |
| Pulls.PullLedger.Absorb | crates/client/src/lib.rs:260-274 | Every subscription mark of a commit raises its channel's epoch once, whatever the order, and is stripped. |
| Pulls.PullLedger.Issue | crates/client/src/lib.rs:275-284 | A request is remembered with current epochs; the oldest of 1024 is forgotten. |
| Pulls.PullLedger.Stale | crates/client/src/lib.rs:291-317 | Which answers are stale, which request is consumed and which indistinguishable ones are refreshed. |
| Pulls.RemembersLast | crates/client/src/lib.rs:255-284 | The last 1024 requests are remembered. |
| Pulls.RequestedPageIsNeverStale | crates/client/src/lib.rs:291-317 | After a pull is issued no page answering its cursors is stale until one of its channels is resubscribed, whatever else is issued, answered, repeated or forgotten. |
| Pulls.SoundStep | crates/client/src/lib.rs:240-317 | The ledger never remembers more than 1024 requests nor an epoch from the future. |
| Pulls.ResubscribeMakesOld | crates/client/src/lib.rs:240-274 | A resubscription leaves no remembered request of the current subscription for cursors naming that channel. |
| Pulls.OldAnswersAreStale | crates/client/src/lib.rs:305-317 | From then until the cursors are requested again, answers are stale one by one, exactly as many as are remembered. |
| Records.HeldAbsent | crates/client/src/mutate.rs:262-267 | For a record that starts absent the before image stays absent exactly when no touch follows a create. |
| Records.HeldReplay | crates/client/src/mutate.rs:128-134 | Replaying over what holding aside left fails or shows what applying the touches showed. |
| Writing.LastWriterWins | crates/client/src/mutate.rs:12-39 | Operations that replay leave a record absent exactly after a deletion, and every field as the last operation that says something of it left it: a create of all its fields and its identity, an update of its patch only; a field no operation speaks of is as it was. |
| Writing.SingleWrite | crates/client/src/mutate.rs:12-39 | One update leaves exactly the fields of row and patch, the patched ones as patched and all others as they were; one create exactly its values and its identity. |
| Writing.ReplayFailsExactly | crates/client/src/mutate.rs:12-39 | Operations fail to replay exactly when one of them creates a record that exists, updates one that does not, or lacks values, where existing means not just deleted. |
| Extending.ReplaysAs | crates/client/src/mutate.rs:139-161 | A rebuild shows what the operations leave over the before image, field by field; if one cannot work, the mutation owning the first such is named and the before image shown. |
| Graphs.Closure | crates/client/src/mutate.rs:163-197 | The worklist ends on any graph, cycles included, with everything reachable, once each, without the start. |
| Cascades.Descendants | crates/client/src/mutate.rs:163-197 | Every record reachable from the parent through cascading relations in visible rows or before images, once each, without the parent. |
| Landings.LoneIsNotUnder | crates/client/src/mutate.rs:171-174 | Only a record whose model declares a cascading relation is ever under another one. |
| Optimism.RebuildKeeps | crates/client/src/mutate.rs:139-161 | Rebuilding a record makes it show its replay, or its truth when the replay fails, clears the image of a clean one, and moves no base. |
| Optimism.StageKeeps | crates/client/src/authority.rs:84-92 | Staging moves the base of that record alone, and only a dirty record then waits for a rebuild. |
| Optimism.FoldKeeps | crates/client/src/push.rs:222-235 | Folding an accepted local operation moves the base of its record alone, or nothing when it does not apply. |
| Optimism.DropKeeps | crates/client/src/push.rs:282-299 | Removing mutations leaves every base where it is; exactly the records they touched wait for a rebuild. |
| Optimism.EffectKeeps | crates/client/src/mutate.rs:219-232 | Holding a clean record aside and giving it its first delete effect moves no base. |
| Enqueueing.EnqueueTruth | crates/client/src/mutate.rs:260-282 | Exact leak: an enqueue keeps a record's truth if and only if it is not a clean, absent record that the mutation creates and touches again. |
| Enqueueing.EnqueueShown | crates/client/src/mutate.rs:260-288 | Exact order: a shown record stays shown if and only if no cascade effect on it is stored after its last create or update, unless the stored order does not replay. |
| Enqueueing.EnqueueKeeps | crates/client/src/mutate.rs:238-290 | The new mutation keeps the replay invariant for every record but the misordered ones. |
| Enqueueing.CreateThenUpdateLeaks | crates/client/src/mutate.rs:262-267 | Counterexample: creating and updating one record in one mutation copies the optimistic row aside. |
| Enqueueing.DeleteParentThenCreateChildDiffers | crates/client/src/queue.rs:138-147 | Counterexample: effects stored after all operations replay differently from the order they were applied in. |
| Looseness.EffectsWithout | crates/client/src/push.rs:282-300 | Removing mutations leaves loose only records that a remaining mutation has an effect on. |
| Enacting.StuckExactly | crates/client/src/mutate.rs:262-283 | An operation gets stuck exactly when it is malformed or is a create or update its visible row does not allow, cascade or not. |
| Authorities.HighestBound | crates/client/src/authority.rs:44-83 | The highest stamp is an upper bound of the usable deliveries and is reached by one of them. |
| Landings.LandBases | crates/client/src/authority.rs:44-83 | A landing record leaves its delivered content at its stamp, nothing for every record under its deletion, their stamps as they were, and every other base alone. |
| Landings.LandAllMoves | crates/client/src/authority.rs:154-164 | In every schema, after any delivery a stamp is the highest usable one, and a base moved only with a newer usable record of its own or, if its model declares a cascading relation, to nothing under a usable deletion. |
| Landings.LoneEvolves | crates/client/src/authority.rs:154-164 | A record no deletion can reach evolves by its own deliveries alone, whatever cascades among the others. |
| Series.SeriesEvolves | crates/client/src/authority.rs:154-164 | Over any course of pages, receipts and whatever the client does between them, a record no deletion can reach ends where everything delivered about it, in order, leads. |
| Series.OrderIndependentSeries | crates/client/src/authority.rs:36-83 | Two such courses from one version of the record that deliver the same usable truths about it end with the same version, whatever the order, the split into pages and receipts, the repeats, and what else they deliver. |
| Series.SeriesNeverConflicts | crates/client/src/authority.rs:115-150 | While only the truth is told about such a record, no delivery of the course reports it as a conflict, and the client always holds what its stamp means. |
| Landings.NeverReportsConflict | crates/client/src/authority.rs:115-150 | A record no deletion can reach is never reported as a conflict while the client holds what its stamp means and the delivery says nothing else of it, whatever it says of others and whatever could not be read. |
| Foldings.FoldEachBase | crates/client/src/push.rs:193-235 | Exactly what settling accepted companions does to one base: no stamp moves; the companions on the record settle in order, from its old base, or from nothing after the last mutation whose companion deletion drags it along; records the receipt covers stay. |
| Foldings.ReceiveMoves | crates/client/src/push.rs:193-241 | Truth isolation for receipts in every schema: a base moves only with a newer usable record of its own, under a usable deletion, by an accepted companion on its record, or under an accepted companion deletion. |
| Foldings.LoneReceives | crates/client/src/push.rs:193-241 | A record no deletion can reach ends with its settled companions, if the receipt is silent about it, and then its own deliveries. |
| Receipts.DraggedExactly | crates/client/src/push.rs:198-212 | A record is dragged along if and only if it is under a companion deletion of a record the accepted mutations did not upload. |
| Receipts.SettleShows | crates/client/src/push.rs:213-224 | Companions that work leave the base field by field as their last writers say; one that cannot work is skipped. |
| Receipts.CompanionsSettle | crates/client/src/push.rs:193-241 | So ends, after a receipt, the base of every record it is silent about and no deletion reaches. |
| Receipts.ReportsExactly | crates/client/src/authority.rs:115-150 | A delivery reports a record if and only if it could not be read, or the schema refuses its state, or it tells other content at the stamp held when its turn comes. |
| Receipts.ContentTells | crates/client/src/rows.rs:62-68 | Delivered authority says a record holds nothing, or exactly its state and its identity. |
| Receipts.CompletesExactly | crates/client/src/push.rs:129-184 | A receipt completes a push if and only if it names the client and the sequence after the last completed, a push is in flight, every rejection is of a mutation in it, and every upload of an accepted one is answered. |
| Receipts.StaleExactly | crates/client/src/push.rs:129-150 | It is stale if and only if it names the client and a completed sequence. |
| Engines.RecordsCodes | crates/client/src/push.rs:248-290 | What fell is recorded with its own code, or `dependency.rejected`; every other rejection stays. |
| Orders.OrderMattersExactly | crates/client/src/authority.rs:36-83 | The order of truthful deliveries, over all courses of a client that starts consistent, is irrelevant for a record if and only if no state the schema accepts makes it a cascading child of another record. |
| Orders.ConflictsExactly | crates/client/src/authority.rs:66-77 | No delivery of such a course ever reports the record as a conflict under the same condition, and only then. |
| Orders.CascadeOrderMatters | crates/client/src/authority.rs:78-82 | Counterexample, for every record that can hang: a client whose one pending mutation created it gets its delivery and its parent's deletion in one page; in one order it ends absent, in the other present. |
| Orders.CascadeConflicts | crates/client/src/authority.rs:66-82 | Counterexample, for every such record: delivered once more after its parent's deletion, it is reported as a conflict. |
| Orders.LoneCannotHang | crates/client/src/authority.rs:78-82 | A record whose model declares no cascading relation can hang under nothing. |
| Limits.WalkCounts | crates/client/src/mutate.rs:199-237 | A walk over queued deletions stores one effect on a record for each deletion of a mutation that reaches it, unless the mutation had one when the walk began. |
| Limits.WalkStoresTwice | crates/client/src/mutate.rs:210-218 | Counterexample: a mutation deleting a record twice gets two effects on a child that appeared. |
| Limits.SecondEffectIsSilent | crates/client/src/mutate.rs:210-232 | A second effect on a record leaves the replay of its operations over any row what it was. |
| Limits.WalkCovers | crates/client/src/mutate.rs:199-237 | After a walk a mutation has an effect on a record if and only if it had one or one of its deletions reached the record at its stop. |
| Extending.StopsExactly | crates/client/src/mutate.rs:199-211 | The walk stops at exactly the deletions a queued mutation has on the wire or among its companions. |
| Limits.LateDescendant | crates/client/src/mutate.rs:199-237 | Counterexample: extending a later deletion lets a creation replay that brings the record back under an earlier one, which has no effect on it. |
| Schedule.Select | crates/client/src/push.rs:87-115 | The selection loop chooses what `BatchTakesAll` characterizes. |
| Schedule.BatchTakesAll | crates/client/src/push.rs:60-115 | The batch takes all it can: every member is unsent, without prerequisite, waits for nothing unsent but earlier members in sequence; every other unsent mutation has a prerequisite, waits for an unsent mutation, for one in sequence not taken before it, would exceed the byte limit behind members before it, or comes after 20 members. |
| Schedule.ChooseIsSchedulable | crates/client/src/push.rs:87-115 | Every member of a batch was ready given the members before it; the batch is short and fits the limit unless it is a single mutation. |
| Schedule.NeverStuck | crates/client/src/push.rs:54-123 | With nothing in flight and no prerequisite before the first mutation a nonempty queue always yields a batch. |
| Schedule.CloseRejections | crates/client/src/push.rs:263-281 | The loop ends with what is rejected and everything that, round after round, comes to depend on it. |
| Schedule.FallenExactly | crates/client/src/push.rs:263-281 | That is exactly the mutations that reach a rejected one through lifecycle dependencies. |
| Schedule.RejectedCreateDooms | crates/client/src/policies.rs:13-35 | A doomed create dooms every later queued mutation with a wire operation on that record. |
| Schedule.FlyingFallsAlone | crates/client/src/push.rs:259-281 | A mutation in flight falls only if it is rejected itself. |
| Upkeep.AssignWell | crates/client/src/push.rs:116-122 | Freezing a schedulable batch keeps the queue's structure: what flies waits for nothing. |
| Upkeep.SteadyExtends | crates/client/src/queue.rs:161-168 | Added effects and divergence marks keep the bookkeeping and the encoded push in flight. |
| Upkeep.SteadyFreezes | crates/client/src/push.rs:54-123 | A freeze keeps the bookkeeping, takes the sequence after the last completed one, and what is encoded is exactly the batch, in order. |
| Upkeep.FreezeTakesAll | crates/client/src/push.rs:112-123 | Exactly this batch is assigned the push, and encoded mutation by mutation with ordinal, name, version and wire operations, without companions and effects. |
| Upkeep.AwaitingStays | crates/client/src/queue.rs:282-296 | A dependency stays as long as both mutations are queued. |
| Upkeep.AwaitingDooms | crates/client/src/push.rs:248-290 | What waits for a doomed mutation is doomed. |
| Upkeep.SteadyDropsFallen | crates/client/src/lib.rs:831-847 | Dropping unsent mutations with their dependents touches nothing in flight and keeps every ordinal accounted for. |
| Upkeep.SteadyReceipt | crates/client/src/push.rs:236-246 | A receipt's rejections drag down no mutation it accepts, its whole batch leaves the queue, and every ordinal is one of queued, accepted or rejected. |
| Deriving.DerivedHasCreates | crates/client/src/policies.rs:16-35 | A wire operation on a record depends on every queued mutation that creates that record. |
| Deriving.DerivedExactly | crates/client/src/policies.rs:10-36 | A draft waits for a queued mutation if and only if that creates a record one of its operations is on, or a record one of these refers to, or deletes one it creates. |
| Deriving.ReferenceNames | crates/client/src/policies.rs:152-184 | A row refers to a record through a relation if and only if every referring field is there and not null and together they are its identity. |
| Engines.CreatorDooms | crates/client/src/policies.rs:18-34 | When the creation of a record falls with a rejection, so does every draft enqueued behind it that operates on the record or refers to it. |
| Engines.Engine.constructor | crates/client/src/lib.rs:323-385 | A new client satisfies every invariant. |
| Engines.Engine.HoldTruth | crates/client/src/mutate.rs:128-134 | Holding aside copies a clean record's row unless an image exists, and nothing else. |
| Engines.Engine.CascadeOver | crates/client/src/mutate.rs:268-280 | A deletion sweeps exactly the records under it, once each, every one held aside before its row is deleted. |
| Engines.Engine.Derive | crates/client/src/policies.rs:13-35 | The walk over the queue finds exactly the dependencies `DerivedExactly` characterizes. |
| Engines.Engine.Enqueue | crates/client/src/mutate.rs:238-290 | A draft is refused exactly when it is invalid, names an unqueued dependency or gets stuck, and then leaves nothing behind; otherwise its operations are enacted one by one with their sweeps, the mutation joins the end of the queue with its effects and derived dependencies, every truth but a leaked one is kept, and the encoded push in flight is untouched. Every visible row then holds, field by field, what the last operation on it says and otherwise what it held; the stored mutation carries everything the draft came with and waits for exactly what it names or must wait for. |
| Engines.Engine.Rebuild | crates/client/src/mutate.rs:139-161 | The record shows, field by field, what its operations leave over its before image, or the image when one of them cannot work; the mutation owning the first such is marked; no other row and no truth moves. |
| Engines.Engine.ExtendDelete | crates/client/src/mutate.rs:209-233 | Every record under a queued deletion, and no other, is held, given a delete effect and rebuilt, unless that mutation had one for it; no truth moves. |
| Engines.Engine.RefreshPending | crates/client/src/mutate.rs:199-237 | The walk stops at every queued deletion in order and extends it to exactly the records under it by then; no truth moves, and only effects and marks are added. |
| Engines.Engine.StageAuthority | crates/client/src/authority.rs:44-83 | A usable record lands exactly as specified, only when its stamp is newer: its base, its stamp and, for a deletion, the bases of all records under it; exactly the pending ones among these are held. |
| Engines.Engine.StageAll | crates/client/src/authority.rs:115-164 | A delivery leaves tables and stamps exactly where landing its records one by one does, reports exactly what each of them calls for against what the ones before it left, and holds exactly the pending records reached, in every schema. |
| Engines.Engine.RebuildHeld | crates/client/src/authority.rs:97-110 | Held records are replayed from the final queue, exactly the failing ones are reported, then queued deletes are extended; nothing is left waiting and no base or stamp moves. |
| Engines.Engine.ApplyRecords | crates/client/src/authority.rs:154-164 | A whole delivery keeps every invariant, leaves every base and stamp exactly where landing its records does, and reports what they call for and exactly the held records that do not replay, in every schema. |
| Engines.Engine.MovingChannels | crates/client/src/downlink.rs:31-50 | Refuses exactly the pages that leave a gap and otherwise names the cursors they move. |
| Engines.Engine.ApplyCurrentPage | crates/client/src/downlink.rs:53-79 | A page is refused if and only if some channel of it starts and ends beyond the cursor, and covered if no cursor would move; both change nothing. Otherwise all changes land, every cursor the page starts at or before and reaches beyond is at its end, every other where it was, and the reports are those of the delivery. |
| Engines.Engine.SetChannel | crates/client/src/lib.rs:1027-1044 | Subscribing starts at zero only when not subscribed; records stay; a mark is left exactly on a change. |
| Engines.Engine.Freeze | crates/client/src/push.rs:54-123 | A push in flight is encoded again unchanged; otherwise a batch that takes all it can, and nothing else, is assigned the next sequence and encoded as stored, the declaration is frozen, and only an empty batch sends nothing; bases and stamps stay. |
| Engines.Engine.MarkRejected | crates/client/src/push.rs:257-300 | Exactly the rejected mutations and their lifecycle dependents leave the queue, recorded with their code or the dependency code. |
| Engines.Engine.RemoveRejected | crates/client/src/push.rs:250-256 | Removing unsent mutations keeps every base, stamp and the encoded push in flight. |
| Engines.Engine.DropMutation | crates/client/src/lib.rs:831-847 | A sent mutation is refused, an unknown one is a no-op, an unsent one leaves, recorded as dropped, with its dependents, recorded as rejected dependencies, and moves no truth. |
| Engines.Engine.ResolvePrerequisite | crates/client/src/queue.rs:371-377 | Resolving a prerequisite changes nothing else. |
| Engines.Engine.FoldAccepted | crates/client/src/push.rs:193-235 | Accepted companions settle exactly as specified, mutation by mutation, cascades included, and exactly the settled records wait for a rebuild. |
| Engines.Engine.Acknowledge | crates/client/src/push.rs:129-247 | A refused or stale receipt changes nothing, for the first reason that applies; otherwise the batch leaves the queue, rejected mutations fall with their dependents, every base and stamp is exactly where settling the accepted companions and landing the records leaves it, what cannot land and exactly the disturbed records that no longer replay are reported, and every invariant holds again, in every schema. |
| Engines.Engine.NothingPending | crates/client/src/mutate.rs:94-100 | With an empty queue there are no before images and every visible row is the truth. |
| Engines.Engine.VisibleIsReplay | crates/client/src/mutate.rs:139-161 | In every valid state a dirty record whose operations replay over its truth shows exactly that replay, unless a cascade effect on it is pending; even then unless an enqueue stored it out of order and the record was not rebuilt since. |
| Rounds.FrozenRespectsOrder | crates/client/src/push.rs:87-115 | What is frozen has no lifecycle dependency left, its sequence dependencies go with it, and the batch is short and fits the limit unless it is a single mutation. |
| Rounds.RoundsDrain | crates/client/src/push.rs:54-123 | Whatever the receipts decide, whatever is marked or extended on the way and however each batch is measured and limited, freezing and completing goes on exactly until the queue is empty, in at most as many rounds as mutations, once no prerequisite is left. |
| Rounds.PushRound | crates/client/src/push.rs:54-247 | Freezing a new batch and applying a receipt that completes it is such a round. |
| Storage.PublishKeeps | crates/sim/src/host.rs:396-420 | Publishing keeps one row per record and channel, in cursor order up to the head, at a stamp the record has. |
| Storage.ChangeKeeps | crates/sim/src/host.rs:370-380 | A business change keeps the tables well kept; content changes only with stamps if it names every record it changed. |
| Batches.IntentsKeep | crates/server/src/readback.rs:149-191 | Publications fail only for a channel without a name or a record nothing loads, never for a stale stamp; they move no row and raise no stamp. |
| Batches.LoadAllReads | crates/server/src/readback.rs:70-125 | Loaders that answer with the rows as they are make readback answer every changed record as it is stored. |
| Batches.LoadAllNames | crates/server/src/readback.rs:70-125 | Whatever the loaders say, readback answers every changed record and nothing else, at its current stamp. |
| Batches.MutateSettles | crates/server/src/lib.rs:507-609 | Whatever its handler and loaders do, an accepted mutation raises the stamp of exactly what it reports and uploads, once, and answers exactly these at their new stamps. |
| Batches.MutateTells | crates/server/src/lib.rs:507-609 | With an honest handler and faithful loaders it changes content only where it reports, and answers it as it leaves it. |
| Batches.BatchKeeps | crates/server/src/lib.rs:507-609 | Whatever handlers and loaders do, at commit every answered record carries the stamp it has in the tables. |
| Batches.BatchTells | crates/server/src/lib.rs:507-609 | With honest handlers and faithful loaders content changed only with stamps, and every answer carries the content its record has at commit. |
| Batches.BatchCovers | crates/server/src/lib.rs:507-609 | Rejections name mutations of the batch; every record an accepted mutation uploaded is answered, whatever handlers and loaders do. |
| Batches.OnlyAcceptedCount | crates/server/src/lib.rs:507-609 | What a batch commits and answers is what its accepted mutations alone would have committed and answered. |
| Publishing.IntentsAppear | crates/server/src/readback.rs:149-191 | Publications publish: on a channel one intent names, its members, the whole change set if it names none, get the next cursors in canonical order, each exactly one row at its current stamp, and the head rises by their number; on any channel a published record has exactly one such row above the old head; all other rows and channels stay, and only a record without a stamp gets one, which is 1. |
| Publishing.MutatePublishes | crates/server/src/lib.rs:507-620 | So does an accepted mutation, from the tables before it; a changed record has its next stamp. |
| Publishing.BatchPublishes | crates/server/src/lib.rs:507-620 | Every record an accepted mutation of a batch published on a channel has a row there at commit, above where the channel was before the batch. |
| Verdicts.KeptExactly | crates/server/src/lib.rs:507-620 | A mutation is accepted if and only if it decodes, its handler settles it naming loadable records, every changed record has a loader, a declared and a retained contract, every changed model reads back one valid state per record, and every publication names a channel and loadable records. |
| Verdicts.TurnedWhy | crates/server/src/lib.rs:507-620 | Each refusal carries its code: that of the decoder or handler, `handler.failed`, `model_version_unsupported`, that of the loader, `loader.failed` or `loader.invalid`, for its reason. |
| Verdicts.BatchRejects | crates/server/src/lib.rs:507-620 | The receipt rejects exactly the mutations turned down when their turn came, with their codes. |
| Verdicts.AnsweredExactly | crates/server/src/lib.rs:475-506 | A delivery is answered if and only if it comes from the owner and repeats the last batch or carries the next one, which no infrastructure error ends. |
| Verdicts.ErredWhy | crates/server/src/lib.rs:475-506 | Every other delivery fails for the reason it names. |
| Servers.Server.AllocateStamps | crates/server/src/readback.rs:129-144 | Every changed record is advanced exactly once and its new stamp is returned. |
| Servers.Server.PublishAll | crates/server/src/readback.rs:149-191 | The publication loops leave the tables `IntentsAppear` characterizes, at the allocated stamps. |
| Servers.Server.RunMutation | crates/server/src/lib.rs:549-609 | A refusal by handler, loader or contract restores the tables; an accepted mutation leaves exactly its specified tables; savepoints balance. |
| Servers.Server.RunAll | crates/server/src/lib.rs:507-609 | The batch loop accumulates exactly the specified refusals and last authorities, or ends at the first infrastructure error. |
| Servers.Server.ProcessPush | crates/server/src/lib.rs:475-620 | The claim decides repeats, overlaps and gaps; a new batch is run and its receipt stored with its sequence. |
| Servers.Server.Push | crates/sim/src/host.rs:313-355 | A failed delivery leaves tables and savepoints as they were; a successful one leaves what the delivery specifies. |
| Servers.NextBatchCompletes | crates/server/src/lib.rs:507-620 | Whatever handlers and loaders do, the receipt of a new batch rejects only its mutations, answers each record once at its current stamp, covers every record the accepted ones uploaded, and is remembered. |
| Servers.NextBatchTells | crates/server/src/lib.rs:507-620 | With honest handlers and faithful loaders every answer is as it is stored. |
| Servers.DeliveredKeeps | crates/server/src/lib.rs:475-620 | Whatever a delivery answers, and whatever handlers and loaders do, tables only grow; a failed one changes none. |
| Servers.DeliveredTells | crates/server/src/lib.rs:475-620 | With honest handlers and faithful loaders a delivery changes content only with stamps. |
| Paging.WindowIsRange | crates/server/src/lib.rs:638-688 | A scan holds exactly the rows of the range it reports, ends at its last row or the head, and advances unless nothing is left. |
| Paging.PagesAreValid | crates/core/src/protocol.rs:392-417 | Every page a server builds passes the page's own validation, the record limit included. |
| Paging.PageCarries | crates/server/src/lib.rs:635-790 | A page holds every record with a row in its ranges at a stamp no older than the row's, and only current stamps. |
| Paging.PageTells | crates/server/src/lib.rs:690-790 | With faithful loaders every change that was read carries the content its record has. |
| Reading.PageReads | crates/server/src/lib.rs:690-790 | Every changed record is answered as its loader answers it: in one call with the changed records of its model, or by itself when that does not answer them all; refused states and failures carry their codes. |
| Reading.WindowIsFull | crates/server/src/lib.rs:645-688 | A scan holds at most 50 rows, and fewer only when it reaches the head. |
| Paging.PullsEndAtHead | crates/server/src/lib.rs:674-687 | On a quiet server repeated pulls end at the head after as many pulls as full pages remain. |
| Paging.CaughtUp | crates/client/src/downlink.rs:53-79 | A client that pulls from all its cursors, applies the page and pulls again gets no page with a gap, and after as many pulls as full pages remain on its longest channel every cursor is at its head, on a quiet server. |
| Paging.ScanAll | crates/server/src/lib.rs:635-688 | The channel loop refuses a cursor ahead of its head or a record without a loader, and otherwise finds every range and every changed record. |
| Paging.ProcessPull | crates/server/src/lib.rs:626-790 | A pull is served exactly when it is well formed, retained, not ahead and readable; the page is then valid and carries what it must, contents too when loaders are faithful. |
| Delivery.FittingCompletes | crates/client/src/push.rs:129-184 | A receipt that fits the push in flight passes every check of its completion. |
| Delivery.ReceiptsAreNeverRefused | crates/client/src/push.rs:129-184 | No receipt the network may deliver is refused: it completes the push in flight or is stale. |
| Delivery.NeverAGap | crates/server/src/lib.rs:495-506 | No upload is ever ahead of the server, and the push in flight is new or answered from storage, never an overlap. |
| Delivery.NextKeeps | crates/server/src/lib.rs:475-620 | Every step of clients, network and server keeps the delivery invariant. |
| Delivery.RepeatsGetTheSameReceipt | crates/server/src/lib.rs:498-500 | In every run two receipts for one batch are the same receipt. |
| Delivery.ExactlyOnce | crates/sim/src/invariants.rs:12-26 | In every run, with any handlers and loaders, no mutation takes effect twice, what took effect is what receipts accepted plus the batch under way, and every ordinal is one of queued, accepted or rejected. |
| Convergence.RecordedKeeps | crates/sim/src/host.rs:370-420 | As an honest server moves on, the content a record had at each stamp stays what it was. |
| Convergence.PageRow | crates/client/src/downlink.rs:53-79 | After a page the client holds every row up to its moved cursors at least as new as the row, or missed a delivery of it that was. |
| Convergence.NextTrue | crates/sim/src/invariants.rs:133-190 | Every step keeps stamps, misses and cursors true to the server, and the contents of what did not leak when the server is honest. |
| Convergence.AtTheCursor | crates/sim/src/invariants.rs:133-190 | In every run, with any handlers and loaders, a client at a cursor holds every record with a row up to there at least as new as that row unless it missed such a delivery; unless it leaked, as an honest server had it at that stamp, and absent if it never received it. |
| Convergence.Converged | crates/sim/src/invariants.rs:133-190 | In every run, at the head, a record published at its current stamp is held at that stamp if and only if no delivery of it is missed; unless it leaked, it is held exactly as an honest server has it under the same condition. |
| Convergence.NoPendingMeansConverged | crates/sim/src/invariants.rs:133-190 | In every run of an honest server, at the head with nothing pending, the visible row of such a record, neither missed nor leaked, is the server's row. |
| Leaking.LeakOutlivesDraft | crates/client/src/lib.rs:831-847 | A draft that creates and updates an absent record, enqueued and dropped unsent, leaves nothing pending, no stamp or cursor moved, and the created row visible; both are steps of the protocol. |
| Leaking.LeakedStaysAtHead | crates/sim/src/invariants.rs:133-190 | Counterexample to convergence without the condition on leaks: every run that brings a client to the head of a record the server deleted goes on, by such a draft and its dropping, to one where it shows the record with nothing pending and nothing missed. |
| Convergence.NeverLeaks | crates/sim/src/invariants.rs:133-190 | In every run a record whose model declares no cascading relation never leaks, unless a draft of the client creates and touches it again or a companion on it is pending. |
| Convergence.QuietlyConverged | crates/sim/src/invariants.rs:133-190 | In such runs, at the head, it is held exactly as an honest server has it if and only if no delivery of it is missed. |
| Convergence.NothingConflicts | crates/client/src/authority.rs:66-77 | In every run of an honest server no page and no receipt in the network makes a client report a conflict on a record whose model declares no cascading relation, unless it leaked. |
| Convergence.RunIsCourse | crates/client/src/authority.rs:154-164 | In every run, between any two moments, what a client holds of a record it is quiet on moves by one course of deliveries as `Series` describes them, so order independence and conflict freedom hold of protocol runs. |
| Replicas.EnqueueSteps | crates/client/src/mutate.rs:238-290 | Enqueueing is a local step of the protocol; the records it leaks are exactly those whose truth moved, none when the draft is refused. |
| Replicas.DropSteps | crates/client/src/lib.rs:831-847 | Dropping is a local step of the protocol that leaks nothing. |
| Replicas.ResolveSteps | crates/client/src/queue.rs:371-377 | Resolving a prerequisite is a local step of the protocol that leaks nothing. |
| Replicas.FreezeSteps | crates/client/src/push.rs:54-123 | Freezing is a protocol step and returns what the protocol says the client sends. |
| Replicas.ReceiptSteps | crates/client/src/push.rs:129-247 | Acknowledging is the protocol's receipt step, which determines what is leaked and missed afterwards. |
| Replicas.PageSteps | crates/client/src/downlink.rs:53-79 | Applying a page is the protocol's page step, which determines what is leaked and missed afterwards. |
| Replicas.SubscribeSteps | crates/client/src/lib.rs:1027-1044 | Subscribing and unsubscribing are protocol steps. |
| Replicas.PullServes | crates/server/src/lib.rs:626-790 | A served pull is a page the protocol may send. |
| Replicas.OutsideSteps | crates/server/src/lib.rs:803-833 | A settlement outside any push is a protocol step; an honest one when it reports what it changed. |
| Streams.Subscriptions.Opening | crates/server/src/live.rs:159-192 | A session first listens on every scope, each once, then acknowledges the negotiated heads, then pulls every scope from exactly these. |
| Streams.Subscriptions.Committed | crates/server/src/live.rs:204-210 | A commit marks its scope and starts a pull exactly when none is outstanding; an unknown scope is refused. |
| Streams.Subscriptions.Pulled | crates/server/src/live.rs:211-238 | A page is sent exactly when it advances, moves its cursors, and the next pull covers every pending scope; a page for other cursors is refused and ends the pull, one no pull is outstanding for changes nothing. |
| Streams.Subscriptions.NextPull | crates/server/src/live.rs:251-273 | The next pull asks for exactly the pending scopes at their cursors and clears their flags. |
| Streams.CommitAsks | crates/server/src/live.rs:204-210 | A commit on an open stream without a pull starts one for exactly the pending scopes and its own, from their cursors, and clears the flags; otherwise it only flags its scope. |
| Streams.PageAsks | crates/server/src/live.rs:211-273 | After an answering page its scopes are at the ends of its ranges, and the next pull asks for exactly the scopes that were flagged or whose range ends before the head. |
| Streams.MovesSound | crates/server/src/live.rs:142-247 | Every step of stream and host keeps the obligation of every scope behind its head; a commit may move any scopes by any number of rows, and scopes are listened on one by one. |
| Streams.NoLostWakeUp | crates/server/src/live.rs:142-273 | In every run, whatever each transaction publishes, a scope behind its head has a flag, an undelivered event or an outstanding pull that will see it; with none of these it is at its head; what was sent leads from the negotiated head to the cursor without a hole. |
| Lanes.BackoffIsBounded | crates/client/src/connection.rs:55-71 | A retry waits between 200 and 36000 milliseconds whatever the attempts and entropy. |
| Lanes.BackoffGrows | crates/client/src/connection.rs:62-67 | One failure more never shortens the delay. |
| Lanes.BackoffDoubles | crates/client/src/connection.rs:55-71 | The delay is 250 milliseconds doubled with every failure up to 30 seconds, spread by a fifth either way. |
| Lanes.FailingWaits | crates/client/src/live.rs:133-143 | A failed session leaves the driver waiting for its backoff, one failure richer, due between 200 and 36000 milliseconds later. |
| Lanes.BackoffHolds | crates/client/src/connection.rs:39-54 | Over every run of wakes, frames, responses, closings and subscription changes before that moment no session begins and the driver stays as it is. |
| Lanes.BackoffEnds | crates/client/src/live.rs:212-241 | The first such event from then on opens a session if and only if there are channels to follow. |
| Lanes.TakenAdvances | crates/client/src/transport.rs:136-186 | A page moves a cursor only when it is applied, only forward, and only from a range that starts at or before it. |
| Lanes.AppliedOnce | crates/client/src/transport.rs:136-186 | An applied page is covered when it arrives again. |
| Lanes.CursorsOnlyAdvance | crates/client/src/live.rs:144-208 | No event of the lane moves a cursor back or forgets a channel. |
| Lanes.DrainingGates | crates/client/src/live.rs:305-326 | Draining keeps the session and leaves pages only behind a pull. |
| Lanes.OverflowingGates | crates/client/src/live.rs:331-345 | An overflow empties the queue and leaves a pull in flight and, unless that pull is new, another owed. |
| Lanes.FrameKeeps | crates/client/src/live.rs:242-301 | Any frame leaves the session gated or ends it cleanly, and an owed pull stays owed until one is issued. |
| Lanes.ResponseKeeps | crates/client/src/live.rs:367-405 | Any response does too, and when a pull was owed or a channel continues the next one is issued at once. |
| Lanes.HandledKeeps | crates/client/src/live.rs:144-208 | After every successful event frames wait only behind a pull, at most 64, and the driver is in flight exactly while a session exists, if and only if the driver was not started over under a current session. |
| Lanes.LostFramesAreOwed | crates/client/src/live.rs:296-345 | Frames lost at the socket or in a full queue are recovered by a pull issued now, or owed one after the pull in flight. |
| Lanes.LostFramesStayOwed | crates/client/src/live.rs:296-405 | In every run, at every turn after frames were lost, their session has ended, a pull was issued since, or one is still owed behind the pull in flight. |
| Lanes.GateAlways | crates/client/src/live.rs:144-208 | The gate holds after every run of events and subscription changes that never starts the driver over under a current session. |
| LaneProgress.AcknowledgedPulls | crates/client/src/live.rs:259-281 | An acknowledgement the current session waits for is taken up with a pull of every channel from its cursor if and only if some acknowledged head is beyond its cursor. |
| LaneProgress.HeadsAreChased | crates/client/src/live.rs:242-405 | In every run, once a session acknowledged heads, and while no response tells of less, at every later turn that session has ended, a pull is in flight, or every cursor has reached its head. |
| LaneProgress.AskingAlways | crates/client/src/live.rs:367-405 | In every run a pull in flight of a current session asks from where the cursors are, and its answer will not be stale. |
| LaneProgress.AnswerLands | crates/client/src/live.rs:367-405 | A valid page that answers it moves every cursor to the end of its range. |
| LaneProgress.StreamedWaits | crates/client/src/live.rs:282-326 | A streamed page that comes while a pull is in flight waits behind it, in order. |
| LaneProgress.StreamedIsTaken | crates/client/src/live.rs:305-326 | Without one, a page that leaves a gap stays queued and every channel is pulled from its cursor; any other is taken at once and, unless stale, moves its cursors to its ends. |
| LaneProgress.StreamedOverflows | crates/client/src/live.rs:296-345 | The 65th waiting page drops all that wait and has everything pulled again after the pull in flight. |
| LaneProgress.WakesExactly | crates/client/src/live.rs:144-208 | An event wakes the push if and only if it moved cursors. |
| LaneProgress.SessionsClose | crates/client/src/live.rs:144-241 | A session is closed exactly when it is over, and a new one opened on every channel there is. |
| LaneProgress.StopsResting | crates/client/src/live.rs:163-174 | A stop or a pause ends and closes the session. |
| LaneProgress.RestsOn | crates/client/src/connection.rs:20-50 | In every run no session begins from then on until a start or resume. |
| LaneProgress.RousedOpens | crates/client/src/live.rs:212-241 | A start, or a resume of a started driver, opens a session at once on every channel there is. |
| LaneProgress.PauseForgives | crates/client/src/live.rs:168-174 | A pause under a session leaves no failures counted and no delay. |
| LaneProgress.ResubscribedReopens | crates/client/src/live.rs:152-162 | After a subscription change the next event closes the session and opens one on the channels there are, without delay. |
| LaneProgress.SubscriptionStartsOver | crates/client/src/lib.rs:1027-1044 | A new subscription starts at zero and outdates the pulls of its channel; one that changes nothing leaves cursors, epochs and generation. |
| LiveLanes.LiveSession.Drain | crates/client/src/live.rs:305-326 | The loop applies pages from the front until a pull is in flight or none is left, as specified. |
| LiveLanes.LiveSession.Receive | crates/client/src/live.rs:242-301 | Acknowledgement and page handling move the objects as the lane values that `AcknowledgedPulls`, `StreamedWaits` and `StreamedIsTaken` characterize. |
| LiveLanes.LiveSession.Caught | crates/client/src/live.rs:367-405 | A response without a pull is refused and changes nothing; otherwise the lane moves as specified, the remembered pull consumed only when no channel continues. |
| LiveLanes.LiveSession.Handle | crates/client/src/live.rs:144-208 | One event moves driver, session and cursors, and answers the actions, exactly as the lane's values say; an awaited acknowledgement is answered with a request for all cursors, and a pull for them is in flight, if and only if some head is beyond its cursor. |

## Left out

- SQL, the client's file handling, sessions, watchers and the write fence: tables are maps, a transaction is all or nothing.
- JSON, canonical text and the normalization of values: keys and states are values with equality; the encoded size of a batch is any function of the request.
- Counters are unbounded; the source refuses counters beyond the safe integer range.
- Direct writes: they move truth outside the queue by design.
- Unique indexes and other local constraints: a visible write is never refused by the store, so the fallback of a rebuild to the truth row does not occur.
- Sequence dependencies and prerequisites that policies derive from data: they come with the draft; only lifecycle derivation is modelled.
- Failing and resetting prerequisites, tasks, and dismissing recorded rejections.
- Slots.DecodeOperations: covers which operations go to which slot; identities, patches, bindings and their refusals are inside the payload and inside what the backend refuses.
- Handlers and loaders are any functions; only claims about contents assume that handlers report every record they change and that loaders answer with the stored rows. A loader that projects to an older contract is covered by everything else.
- Engines.Engine.RefreshPending: states what one walk does; that every descendant existing after it has an effect is false (`LateDescendant`), `WalkCovers` says which have.
- Convergence.NoPendingMeansConverged: leaked records are outside; without that condition it is false of the code (`LeakedStaysAtHead`).
- Orders.OrderMattersExactly: assumes that the rows a client holds of the record are ones the schema accepts; the half for models without a cascading relation is `Series.OrderIndependentSeries`, which does not.
- Orders.ConflictsExactly: the same assumption; without it `Series.SeriesNeverConflicts`.
- Convergence.Converged: a record a channel was not told about at its current stamp is covered by AtTheCursor only, since being at that head says nothing about it.
- The lane holds its own view of the cursors; that pages move the engine's cursors by the same ranges is stated of `Engines.Engine.ApplyCurrentPage`.
- Streams.NoLostWakeUp: events and pulls may be delayed without bound; that a scope is eventually drained needs a fair host and is not stated.
- LiveLanes.LiveSession.Handle: errors of the local store during an event, which leave the session to its host, are not modelled.
- The push and pull cycle over plain HTTP, bindings, code generation text, schema versions and compatibility.
