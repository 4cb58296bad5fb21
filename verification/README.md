# Teamster: a model of its protocols, and what holds of them

Teamster relays alerts into Microsoft Teams. It runs as several replicas over one database, and its
hardest guarantees are about replicas that race, die and take over from each other. This project
models those protocols and the stateful code around them, and proves what the code and its design
documents promise. `dafny verify dfyconfig.toml` checks all of it.

The protocols between replicas are step systems. A `World` holds the shared rows, every attempt's
place in its code, and what happened so far; an `Action` is one store statement, one call to Teams
or to a sink, or one crash; a run is any sequence of actions. Results are about every run, or every
reachable world. Beside each of them a class holds such a world, and the source's methods and loops
are methods that change it only by their own actions, with any number of other replicas' actions in
between: their contracts say what a call can come to, and the invariants say what everyone's steps
together keep.

| module | what it models |
|---|---|
| `Claims`, `ClaimsInv`, `ClaimsRuns`, `ClaimsTakeover`, `ClaimsIdless`, `Deliver` | one card per channel and one chat message per person: claims, takeovers, edits, replacements and closes |
| `Broadcast`, `BroadcastInv`, `BroadcastRuns`, `BroadcastRepeats`, `Runner`, `Audience` | a broadcast claimed by one replica at a time, walked in chunks with a recorded cursor, and the audience it walks |
| `Relay`, `RelayRetention`, `RelayRunner` | several relays feeding one sink from the trail through a compare-and-swap cursor, beside retention |
| `Snapshot`, `SnapshotInv`, `SnapshotRuns`, `Engine` | the authorization snapshot: a generation, a torn load, and a lock |
| `Groups`, `Principals` | memberships as entities, the worklist that walks them, and agreement with Cedar's `in` |
| `Routes`, `Endpoints`, `Reconcile` | webhook endpoints and their linked routes, the five writes and the reconcile |
| `AuditTx` | audited transactions under retries |
| `Recorder`, `RecorderDrops`, `RecorderWrites`, `Recording` | the audit recorder's bounded queues, its primary sink, and their close |
| `Pacer`, `KeySet` | token buckets with eviction, pauses, and the limit on unknown signing keys |
| `Addressed`, `Fanout`, `FanoutReport`, `Personal` | who a message names, the fan-out to them, and each person's copy |
| `Order`, `Places`, `Text` | the order of strings, places in a list, and the string operations the others use |

## Where the code and what is said of it differ

The model follows the code. Where a promise fails, the condition under which it holds is proved, in
most cases with the run or the input that breaks it.

* A claim is three statements (`internal/store/adapter.go:949-994`), not one transaction as its
  comment says. The results hold for the three.
* A chat message that Teams recorded without an id is deleted by an empty message id, which also
  matches a claim in flight (`internal/httpserver/webhooks.go:637-641`). A claim survives exactly
  when the card deleted has an id: `ClaimsRuns.InFlightSurvivesForget`, `ClaimsIdless.EmptyIdCloseSweepsClaim`.
  Channel rows cannot be recorded without one.
* Creating or deleting an access token and bumping the generation are two statements outside a
  transaction (`internal/store/adapter.go:743-807`), unlike group and permission writes. A request
  in between, or any request if the writer dies there, decides by the old tokens:
  `SnapshotRuns.TokensSinceBump`, `SnapshotRuns.SeesEveryChangeIff`, `SnapshotRuns.UnannouncedIsUnseen`,
  `SnapshotRuns.RevokedTokenStillSeen`.
* A heartbeat's stamp is a parameter of its statement (`internal/httpserver/broadcast.go:264`), so it
  may land long after its clock was read. Then a replica that had looked before it carries on from
  the older cursor, and the promise of at most a chunk of repeats per takeover
  (`internal/httpserver/broadcast.go:38-40`) fails. It holds in every run in which each heartbeat lands
  no later than the stale time after its stamp (`BroadcastRuns.RepeatsPerTakeover`), which is exactly
  when it blocks such a claim (`BroadcastRuns.HeartbeatBlocks`). Whenever one is about to land later,
  a takeover can repeat its chunk, recorded a second time, and the one after it:
  `BroadcastRuns.LateHeartbeatMisleads`, `BroadcastRepeats.LateHeartbeatRepeats`,
  `BroadcastRepeats.LateHeartbeatDoubles`; the stored cursor can move back:
  `BroadcastRuns.CursorMovesBack`. The bound is then two chunks (`BroadcastRuns.RepeatsAnyway`), and
  `BroadcastRepeats.FiftyTwice` meets it.
* Retention prunes by age and count (`internal/store/audit.go:70-87`), not by what the relay has
  delivered. Once a cursor is placed, and going by what retention can read (the trail, the cursor and
  the clock), a prune is safe exactly when it drops nothing beyond that cursor; beyond it, what the
  sink is still owed can be lost for good and the order can break:
  `RelayRetention.RetentionBehindCursor`, `RelayRetention.BehindIsExact`,
  `RelayRetention.PruneBeyondCursor`, `RelayRetention.PrunedEventArrivesLate`.
* `PoliciesFor` misses a grant for the user "anonymous" that Cedar applies to a request without a
  subject, and one for the provider group "*" that Cedar applies to a session with a nameless group:
  `Principals.NamesIsMatches`, `Principals.AnonymousIsMatched`, `Principals.NamelessGroupIsMatched`.
* Updating an endpoint that is not stored is accepted and leaves a dangling link:
  `Routes.NextKeeps`.
* An alert whose recipient label is only commas names nobody, yet is dropped from every copy:
  `Personal.KeptIsPersonOrNobody`, `Personal.CommaIsDropped`.
* A `Sink` is documented as never written concurrently (`internal/audit/audit.go:14-19`). This holds
  of the queued sinks: `RecorderWrites.QueuedWritesOneByOne`. The primary sink is written by every
  caller of `deliver` without a lock, concurrently exactly when two such calls overlap:
  `RecorderWrites.PrimaryWritesOverlap`, `RecorderWrites.SerialCallsNeverOverlap`.

## Model

| member | source | states |
|---|---|---|
| ClaimsRuns.EveryPostAccounted | internal/httpserver/webhooks.go:380-449 | over every run of any number of attempts, with crashes anywhere, each message that went out is recorded under its own id, or its claim was taken over no sooner than the claim TTL, or was swept (chats only), or its attempt died, failed, or is about to record it; no attempt sends two messages, and the row that is there is the one recorded for its owner |
| ClaimsRuns.LostMeansTakenOver | internal/httpserver/webhooks.go:325-338 | a claim is reported lost if and only if the row is somebody else's by then (a channel post without an id fails instead), and only to an attempt whose claim had been taken over after the TTL, or swept from a chat |
| ClaimsRuns.OnePostPerLife | internal/httpserver/webhooks.go:380-449 | without takeover, crash or store failure, posts equal removals plus the one message still out; so exactly one post between two moments at which the row is gone |
| ClaimsRuns.NoSecondCopy | internal/httpserver/webhooks.go:1092-1170 | once a message is recorded, even with an empty id, and until it is removed, only claims won before can send; the row stays what it was |
| ClaimsRuns.NoCopyAtAll | internal/httpserver/webhooks.go:1092-1170 | if no claim was ever taken over or swept, nothing at all is sent between the record of a message and its removal |
| ClaimsRuns.RemovalIsJustified | internal/httpserver/webhooks.go:497-547 | a recorded row leaves only with its unlinked recipient or through an attempt that names its message id and for which Teams took the edit or the answer that closes it, or the card cannot be edited, or its recipient was not found, or its chat refused for good; with a non-empty id it is the very row that attempt read, so a newer card survives |
| ClaimsRuns.EveryRemovalJustified | internal/httpserver/webhooks.go:497-644 | every row an attempt ever deleted as a card was deleted for such a reason, under the message id it meant, and the attempt reported what that reason calls for |
| ClaimsRuns.InFlightSurvivesForget | internal/httpserver/webhooks.go:554-644 | a claim in flight survives the deletion of a card if and only if that card has a message id, which every channel card has; unlinking a chat's recipient takes it in any case |
| ClaimsRuns.FailureKeepsRow | internal/httpserver/webhooks.go:504-537 | in every continuation, an attempt that reported a claim in flight never removes a row, one that reported a failure has removed one only for a chat that refused for good, and nothing either may still do changes anything |
| ClaimsRuns.FailedCloseRemovesNothing | internal/httpserver/webhooks.go:504-537 | a close that lists a claim in flight, finds no delivery for a card, cannot render it, or is refused otherwise than by a chat for good, changes no row then and removes none in any continuation |
| ClaimsIdless.EmptyIdCloseSweepsClaim | internal/httpserver/webhooks.go:634-641 | the run that shows why a chat message without an id is different: a later close deletes the next claim, and two copies go out with nothing taken over and nothing dead |
| ClaimsTakeover.WinsIff | internal/store/adapter.go:944-994 | in every reachable world, an attempt undisturbed while it claims wins if and only if there is no row, or only an unposted claim whose time to live has run out; otherwise the row stays as it was |
| ClaimsTakeover.NeverStuck | internal/httpserver/webhooks.go:325-338 | whatever has happened and whoever has died, once the time to live has passed an undisturbed attempt posts and records a message wherever none is recorded |
| ClaimsInv.StepKeeps | internal/httpserver/webhooks.go:380-459 | no step of any attempt breaks the invariant the results above rest on |
| Deliver.Target.Claim | internal/store/adapter.go:944-994 | the three statements of a claim, with others in between: after the first no claim is left whose time to live had run out; it is won exactly when the second met no row; otherwise what the third met decides between in flight, an edit, a restamp and a replacement |
| Deliver.PostAndComplete | internal/httpserver/webhooks.go:425-449 | the winning half of an attempt: post, then record it as it went out or hand the claim back; what each outcome requires of Teams and the store, and what it leaves in the row |
| Deliver.EditAndRestamp | internal/httpserver/webhooks.go:407-419 | the half that found a message: edit and restamp it, or forget it when the chat is blocked |
| Deliver.Attempt | internal/httpserver/webhooks.go:1092-1170 | one attempt ends, in one of the outcomes its luck explains, as a state the protocol can reach |
| Deliver.DeliverToChannel | internal/httpserver/webhooks.go:380-459 | a card nothing can edit is replaced under a new claim; the outcome is the last attempt's |
| Deliver.CloseOne | internal/httpserver/webhooks.go:505-600 | one turn of a close loop: what a closed, failed or in-flight outcome requires, a delivery that cannot be found, a message that cannot be rendered and a recipient who is gone included; the attempt has deleted a row only if it reports it closed, or its chat refused for good |
| Deliver.CloseAll | internal/httpserver/webhooks.go:491-644 | a close lists every row once, closes each whatever became of the others, its failures are those to report, and a reported target has kept its row unless its chat refused for good |
| Deliver.FailuresAreReported | internal/httpserver/webhooks.go:497-644 | a close reports exactly the targets that are not closed (a gone recipient whose row stayed is only logged), in order |
| BroadcastRuns.CursorOnlyGrows | internal/httpserver/broadcast.go:240-273 | as long as every heartbeat lands within the stale time of its stamp, the stored cursor never moves back, whatever any replica does |
| BroadcastRuns.ClaimCarriesOn | internal/httpserver/broadcast.go:189-203 | under the same condition, a claim that succeeds starts from the row's present cursor and counts, although it read them before the swap |
| BroadcastRuns.ChunksDisjoint | internal/httpserver/broadcast.go:240-273 | under the same condition, recorded chunks are disjoint key ranges in order |
| BroadcastRuns.RepeatsPerTakeover | internal/httpserver/broadcast.go:38-40 | under the same condition, each claim leaves at most one chunk unrecorded, and repeated sends number at most 25 per takeover |
| BroadcastRuns.RepeatsAnyway | internal/httpserver/broadcast.go:38-40 | however late heartbeats land, repeated sends number at most 50 per takeover |
| BroadcastRuns.ClaimIsOneBehind | internal/httpserver/broadcast.go:189-203 | a claim succeeds if and only if the broadcast is waiting, or running without a heartbeat for longer than the stale time at the clock its replica read; it stamps the row with that clock, leaves its progress, and however late heartbeats land starts from it or from what it was before the last heartbeat |
| BroadcastRuns.HeartbeatBlocks | internal/httpserver/broadcast.go:264 | the owner's heartbeat makes every claim asked for before it fail if and only if it lands within the stale time of its stamp |
| BroadcastRuns.LateHeartbeatMisleads | internal/httpserver/broadcast.go:189-273 | whenever the owner's heartbeat is about to land later than that, there is a continuation in which another replica carries on from the cursor before it |
| BroadcastRepeats.LateHeartbeatRepeats | internal/httpserver/broadcast.go:240-273 | from every such world there is a continuation with one takeover more in which the chunk is recorded twice, and the chunk and the one after it are repeated in full |
| BroadcastRepeats.LateHeartbeatDoubles | internal/httpserver/broadcast.go:38-40 | with a full chunk about to be recorded late and a full one left, that takeover adds at least 50 repeated sends |
| BroadcastRepeats.FiftyTwice | internal/httpserver/broadcast.go:38-40 | the run with an audience of 50, one takeover and 100 sends: more than 25 repeats, and exactly the bound of 50 |
| BroadcastRuns.RecordedTwice | internal/httpserver/broadcast.go:189-273 | the run in which a late heartbeat makes another replica send and record the same person again |
| BroadcastRuns.CursorMovesBack | internal/httpserver/broadcast.go:189-273 | the run in which a late heartbeat makes the stored cursor move back |
| BroadcastRuns.DoneReachedEveryone | internal/httpserver/broadcast.go:215-273 | a broadcast stored as done attempted everyone who was in every claim's audience |
| BroadcastRuns.DoneCountsAddUp | internal/httpserver/broadcast.go:318-358 | with one audience throughout, delivered, unreachable and failed add up to the total and to the audience's size, however many takeovers |
| BroadcastInv.StepKeeps | internal/httpserver/broadcast.go:189-273 | no step of any replica breaks the invariant the results above rest on |
| Runner.DeliverTo | internal/httpserver/broadcast.go:328-355 | one person fails if any of their deliveries fails, else is unreachable if any finds the bot blocked, else is delivered |
| Runner.TallyCounts | internal/httpserver/broadcast.go:318-358 | a tally is the count of each fate, in whatever order |
| Runner.DeliverToAudience | internal/httpserver/broadcast.go:318-358 | the goroutines of a chunk, in any order under the lock, add to each count exactly the people who had a delivery fail, those who had none fail but the bot blocked, and those all of whose deliveries arrived |
| Runner.SendChunks | internal/httpserver/broadcast.go:240-273 | the chunk loop, each heartbeat's clock read before its statement, goes to the end of its audience and has counted everyone on the way once, or stops where it was cancelled, could not record, or had lost the run |
| Runner.OnlyOwnersHeartbeat | internal/httpserver/broadcast.go:263-270 | a heartbeat is refused exactly when another replica owns the run, and then changes nothing |
| Runner.Execute | internal/httpserver/broadcast.go:215-238 | a replica that completes as the owner stores done with the audience's size as total, and with the counts it started from plus everyone in the audience after its cursor, each by the worst of their deliveries |
| Runner.BroadcastStep | internal/httpserver/broadcast.go:189-203 | looking, claiming and executing: which outcomes are possible and what each leaves in the row |
| Audience.BroadcastAudience | internal/httpserver/broadcast.go:284-313 | exactly the reachable directory users and the linked recipients with a chat whom the directory does not know, in key order, each once |
| Audience.ReadDirectory | internal/httpserver/broadcast.go:285-300 | paging after the last id reads every reachable user once |
| Relay.AcceptedUpToCursor | internal/audit/relay.go:68-111 | however relays race and die, every unpruned event after the first cursor and up to the stored one is with the sink |
| Relay.StreamIsTrail | internal/audit/relay.go:68-111 | unless an event still owed has been pruned, the stream without its repeats is the trail in (time, id) order, without a gap up to its last event |
| Relay.CursorOnlyAdvances | internal/audit/relay.go:98-107 | the stored cursor only moves forward |
| RelayRetention.RetentionBehindCursor | internal/audit/relay.go:22-24 | over every run in which each prune drops only events up to the stored cursor, nothing the sink is owed is lost, and the stream without its repeats is the trail in order without a gap |
| RelayRetention.PruneBehindCursor | internal/store/audit.go:70-87 | a prune of nothing beyond the stored cursor loses nothing |
| RelayRetention.BehindIsExact | internal/store/audit.go:70-87 | once a cursor is placed, that condition is exact in what retention can read: a prune is safe in every reachable world with this trail, cursor and clock if and only if it drops nothing beyond the cursor |
| RelayRetention.PruneBeyondCursor | internal/store/audit.go:70-87 | an event the sink is owed lies beyond the cursor; pruning it always has a continuation that loses it for good, and one that still delivers it if and only if a relay holds it |
| RelayRetention.ArrivesIfHeld | internal/audit/relay.go:86-111 | an event pruned before the sink had it still arrives in some continuation if and only if a relay has it next in its page, or in its page with the stored cursor its own |
| RelayRetention.PrunedEventArrivesLate | internal/audit/relay.go:86-111 | the run in which pruning makes the sink miss an event the cursor has passed, and then get it out of order |
| Relay.DedupKeeps | internal/audit/relay.go:104-107 | dropping repeats keeps exactly the events |
| RelayRunner.FindNewest | internal/audit/relay.go:114-127 | the cursor a new relay starts from is the newest event's, or now |
| RelayRunner.PlaceCursor | internal/audit/relay.go:72-82 | a relay without a cursor stores the newest event it met as the cursor and the start, or the clock for an empty trail, unless another has placed one meanwhile, which then stays |
| RelayRunner.ListPage | internal/audit/relay.go:86-90 | a page is the first hundred due events after the cursor, in order |
| RelayRunner.DeliverPage | internal/audit/relay.go:91-108 | the inner loop delivers the page in order and counts what it wrote, until the sink refuses or another relay got further |
| RelayRunner.RelayStep | internal/audit/relay.go:68-112 | a step writes in order from its cursor and reports as many; when it caught up, everything it saw as due is with the sink; when it gave way, the stored cursor was no longer where it had left it |
| SnapshotRuns.NoRevokedGrant | internal/authz/engine.go:64-91 | under every interleaving of writers and requests, torn loads and older labels over newer included, each membership and grant a request decides by was in the tables when it read the generation, or later |
| SnapshotRuns.TokensSinceBump | internal/httpserver/authorize.go:122-151 | the tokens a request decides by are exactly those of the state its snapshot's loader read, which is no older than the last bump the request saw; all it misses are token changes that had not been announced when it asked |
| SnapshotRuns.SeesEveryChangeIff | internal/store/adapter.go:743-807 | a request asked while no other is under way sees every token change so far if and only if the engine's snapshot is of another generation than the store, or no token change lies after the state its tokens were read in |
| SnapshotRuns.UnannouncedIsUnseen | internal/store/adapter.go:743-807 | a token change without its bump reaches no request in any run without a bump |
| SnapshotRuns.RevokedTokenStillSeen | internal/store/adapter.go:801-807 | the run in which a deleted token is still in the snapshot of a later request |
| SnapshotRuns.OneLoader | internal/authz/engine.go:75-90 | at most one request of a replica loads at a time |
| Engine.Authorizer | internal/authz/engine.go:64-91 | both comparisons, the lock and the rebuild: the engine's own snapshot is returned when it is of the generation asked for at the first look or at the second under the lock, and only otherwise is one loaded; what is returned carries the generation read and serves it as above |
| Engine.Rebuild | internal/authz/engine.go:80-90 | three reads with writers in between, then the swap of the engine's snapshot |
| Groups.AddGroupEntities | internal/authz/engine.go:113-136 | an entity is in a group exactly when it was before or some membership of a group or provider group puts it there, with an empty id standing for "*"; each user's groups are those of their memberships, in order |
| Groups.AddGrants | internal/authz/render.go:149-163 | at increasing places, exactly the valid grants come out as policies, each with its own id and grant, and the holders are exactly those they name |
| Groups.ValidIff | internal/authz/render.go:37-110 | a grant is valid if and only if it names a principal of a known kind and some actions, each among those that can be granted on its resource |
| Groups.KeyNames | internal/authz/render.go:144 | the index key tells kind and id apart |
| Groups.GroupsOf | internal/authz/render.go:249-277 | terminates on any membership graph and returns exactly the groups reachable from the principal, sorted, without repeats |
| Groups.PoliciesFor | internal/authz/render.go:281-295 | exactly the generated policies that name the principal, in order |
| Groups.NamedIsListed | internal/authz/render.go:281-295 | some grant names the principal in one of the four ways if and only if the list is not empty |
| Groups.HasGrants | internal/authz/render.go:174-214 | true if and only if PoliciesFor lists something |
| Groups.DoneWalking | internal/authz/render.go:257-275 | when the stack is empty, what was seen is what some path up reaches |
| Groups.Build | internal/authz/engine.go:93-108 | the snapshot's entities, users' groups and policies (every valid grant in order, then every token), and its holders; groups lie under groups only |
| Principals.PrincipalEntity | internal/authz/principal.go:25-45 | the principal joins the entities with parents that all exist, and no other entity gets other parents |
| Principals.Ensure | internal/authz/principal.go:49-56 | an unknown parent gets an entity without parents; nothing else changes |
| Principals.InIsReaching | internal/authz/engine.go:138-150 | Cedar's in over the overlay, from the principal, is reachability in the snapshot from its parents |
| Principals.NamesIsMatches | internal/authz/render.go:113-131 | for user, group and provider-group grants Cedar's principal clause matches if and only if PoliciesFor names the grant, or it is one of two strays: user "anonymous" without a subject, provider group "*" with a nameless group |
| Principals.RolesMatch | internal/authz/render.go:286-290 | a role grant that is listed matches too |
| Principals.AnonymousIsMatched | internal/authz/principal.go:26-29 | a grant for the user "anonymous" matches a request without a subject and is not listed |
| Principals.NamelessGroupIsMatched | internal/authz/principal.go:25-45 | a grant for the provider group "*" matches any session whose one provider group has no name, and is not listed |
| Routes.NextKeeps | internal/httpserver/endpoint_routes.go:52-109 | endpoint create, update and delete and route save and delete keep exactly one agreeing linked route per endpoint; a link is left dangling if and only if an absent endpoint is updated |
| Routes.RunKeeps | internal/httpserver/admin_ui.go:476-516 | the same over any sequence of writes from a reconciled state: every endpoint has one route, which agrees with endpointRoute on every locked field |
| Routes.UpdateKeeps | internal/httpserver/endpoint_routes.go:80-90 | an update keeps the invariant, and leaves no dangling link if and only if the endpoint is stored |
| Routes.DeleteTakesItsOwn | internal/httpserver/access.go:224-235 | deleting an endpoint removes its own route and no other, and the permissions on both and no others |
| Routes.DeleteTakesPermissions | internal/httpserver/admin_ui.go:566-593 | deleting a route removes exactly it and the permissions on it |
| Endpoints.Server.SyncEndpointRoute | internal/httpserver/endpoint_routes.go:50-78 | the endpoint ends with one agreeing route: a new one, or its own with name, priority and greedy kept |
| Endpoints.Server.AlignEndpointRoute | internal/httpserver/endpoint_routes.go:67-78 | the locked fields are rewritten; the name only if it was the automatic one |
| Endpoints.Server.CreateEndpoint | internal/httpserver/access.go:212-222 | succeeds exactly for a free id and free slugs, and is the write above; else nothing changes |
| Endpoints.Server.UpdateEndpoint | internal/httpserver/endpoint_routes.go:80-90 | succeeds also for an absent endpoint, and is the write above; else nothing changes |
| Endpoints.Server.DeleteEndpoint | internal/httpserver/access.go:224-235 | is the write above, or refused because its route has children, and then nothing changes |
| Endpoints.Server.SaveRouteChecked | internal/httpserver/admin_ui.go:476-516 | accepted exactly when the locked fields of a linked route are unchanged and the checks hold; the stored link stays |
| Endpoints.Server.DeleteRouteChecked | internal/httpserver/admin_ui.go:566-593 | refused exactly for a route with children or one whose endpoint is stored |
| Reconcile.ReconciledIsKept | internal/httpserver/endpoint_routes.go:114-203 | given at most one link per endpoint, every endpoint ends with one agreeing route and no link dangles |
| Reconcile.CleanUp | internal/httpserver/endpoint_routes.go:141-160 | the first loop: which routes go, which lose their link, and the counts |
| Reconcile.CopyOwners | internal/httpserver/endpoint_routes.go:178-194 | the endpoint's owners own its new route; no other permission changes |
| Reconcile.ReconcileEndpointRoutes | internal/httpserver/endpoint_routes.go:117-203 | the whole reconcile: a link to no stored endpoint goes, and its route with it exactly when nothing hangs under it; a route that does not agree with its endpoint does afterwards and keeps priority, greedy and a chosen name; every other stays as it was; owners of an endpoint own its new route; the four counts are the numbers of routes made, changed, gone and unlinked; a second run changes nothing |
| AuditTx.CommittingIsFirst | internal/audit/store.go:68-82 | the run that commits is the first that does not end in a conflict, if it ends well |
| AuditTx.OutcomeIs | internal/audit/store.go:59-82 | a run ends well if and only if no call fails by itself or over its record and the commit succeeds, and in a conflict if and only if its first failure is one |
| AuditTx.EachOnce | internal/audit/store.go:78-81 | each event of the committed run is in the trail once if it was written in its transaction or the primary sink took it, and else not at all |
| AuditTx.AuditedStore.RunBody | internal/audit/store.go:59-66 | one run starts from an empty queue, and collects changes, records and events in order up to its first error |
| AuditTx.AuditedStore.InTx | internal/audit/store.go:68-82 | retried any number of times: on commit, the changes of the committed body, and one event delivered for each of its calls that changed something, in call order with that call's action, critical or not; the critical ones' records were written inside the transaction, each event is in the trail once if so or if the primary sink took it; on rollback nothing is delivered or changed |
| AuditTx.AuditedStore.Standalone | internal/audit/store.go:88-123 | a critical change commits with its one record or not at all, and its event is delivered once |
| AuditTx.AuditedStore.DeliverPending | internal/audit/store.go:78-81 | the queue goes out in order, and only unwritten records go to the primary sink |
| Recorder.NeverPanics | internal/audit/audit.go:136-159 | no call ever sends on a closed queue |
| Recorder.QueuedOrDropped | internal/audit/audit.go:147-158 | a call that is over before Close has its event, for every sink, either queued once or dropped; a refused one nowhere |
| RecorderDrops.DropsIffFull | internal/audit/audit.go:147-158 | in every reachable world, a call's event is dropped for a sink if and only if as many events as the queue's capacity are waiting there, and else is queued last; no other queue changes |
| RecorderDrops.NeverFullDropsNothing | internal/audit/audit.go:147-158 | over every run, a queue never found full has dropped nothing, and holds the event of every accepted call |
| RecorderDrops.EndsIff | internal/audit/audit.go:161-170 | a sink's goroutine can end exactly when its queue is closed and empty and all it took has been written |
| Recorder.HandedInOrder | internal/audit/audit.go:161-170 | a sink has been handed what was queued, once and in order, but for at most the queue's capacity |
| Recorder.DrainedClose | internal/audit/audit.go:177-217 | after a drained Close every sink had all its queued events by the time it was closed |
| Recorder.OnlyOffered | internal/audit/audit.go:147-158 | nothing is queued that no call offered |
| Recorder.UndrainedCloseWritesLate | internal/audit/audit.go:197-203 | without the drain, a sink can be handed an event after it was closed |
| RecorderWrites.QueuedWritesOneByOne | internal/audit/audit.go:161-170 | a queued sink is in at most one Write at a time |
| RecorderWrites.PrimaryWritesOverlap | internal/audit/audit.go:136-145 | the primary's Write is called concurrently for two events in some continuation if and only if neither call has left it yet |
| RecorderWrites.SerialCallsNeverOverlap | internal/audit/audit.go:14-19 | over every run in which no call that goes to the primary is made while another is on its way through, its Write is never called concurrently |
| Recording.Deliver | internal/audit/audit.go:136-159 | the event is written to the primary exactly when it is not there already and there is a primary; then, under the read lock, it is offered to every queue, or to none after Close |
| Recording.DrainRest | internal/audit/audit.go:161-170 | the goroutine of a closed queue hands over all that is left and ends |
| Recording.Close | internal/audit/audit.go:177-217 | a second Close does nothing; the first reports the queues undrained only when its deadline comes, and drained only when every goroutine has ended, and then every sink has its whole queue |
| Pacer.BetweenReleases | internal/bot/pacer.go:69-81 | from one release to a later one there are at most burst + rate T calls |
| Pacer.WindowBound | internal/bot/pacer.go:69-81 | in any window of length T a limiter lets at most burst + rate T calls go |
| Pacer.ReleaseIs | internal/bot/pacer.go:69-81 | the exact release time, in both directions: a call goes at once, unless for some call up to it a full bucket and what has been earned since do not pay for the calls from there on; then it goes at the latest moment at which such a debt is paid |
| Pacer.BurstGoesAtOnce | internal/bot/pacer.go:69-81 | the first calls of a conversation, as many as the burst, are not held up |
| Pacer.RefilledIsFresh | internal/bot/pacer.go:116-124 | a limiter that has refilled behaves from then on like a new one |
| Pacer.SameRelease | internal/bot/pacer.go:104-114 | a call through the map is released when a limiter never dropped would release it |
| Pacer.InTokens | internal/bot/pacer.go:69-76 | the same reservation in tokens at a rate |
| Pacer.ConversationBound | internal/bot/pacer.go:69-124 | the window bound for every conversation at any point of any run, whatever was evicted |
| Pacer.ProcessPacer.EvictIdle | internal/bot/pacer.go:116-124 | exactly the refilled limiters go, and no later release changes |
| Pacer.ProcessPacer.TakeToken | internal/bot/pacer.go:69-81 | one token under the lock, at the release time of the never-evicted limiter |
| Pacer.ProcessPacer.Throttled | internal/bot/pacer.go:83-89 | the pause only ever grows |
| Pacer.ProcessPacer.Wait | internal/bot/pacer.go:54-65 | returns no sooner than its conversation's release, nor than any pause asked for before it began |
| KeySet.AtMostTwice | internal/httpserver/bot_auth.go:510-557 | at most 2 burst attempts in any interval no longer than a window |
| KeySet.AttemptsBounded | internal/httpserver/bot_auth.go:510-557 | the same at any point of any run, with at most burst in each window |
| KeySet.RateLimitedKeySet.Admit | internal/httpserver/bot_auth.go:533-546 | a known kid is let through uncounted; an unknown one is let through exactly while its window has attempts left |
| KeySet.RateLimitedKeySet.VerifySignature | internal/httpserver/bot_auth.go:525-557 | a kid that verified once is never refused again; a verified kid is remembered; a lookup that reaches the inner key set with a kid nobody has verified has been counted |
| Addressed.AddressesAreDistinct | internal/models/models.go:512-535 | addresses are trimmed, not blank, no two alike but for case, and miss no entry |
| Addressed.EveryAddressOnce | internal/httpserver/addressed.go:105-147 | every address lands in exactly one of a person's delivery, the misses or the failures |
| Addressed.PeopleOnce | internal/httpserver/addressed.go:124-145 | each person appears once, and exactly those some address was resolved to |
| Addressed.CarriesItsOwn | internal/httpserver/addressed.go:136-139 | a person's delivery carries exactly the addresses that name them |
| Fanout.Resolver.ResolvePerson | internal/httpserver/addressed.go:151-169 | a key is looked up once and remembered; a person found for the first time is made sure of, with the app installed exactly when they have no chat with it, budget is left and the tenant allows it, and only then does the budget shrink, by one |
| Fanout.ExpandOne | internal/httpserver/addressed.go:122-145 | the inner loop with its updates in place comes to one delivery per person, and names each person by the first address that does |
| Fanout.ExpandAddressed | internal/httpserver/addressed.go:101-147 | the whole expansion, with misses and failures in order, and addressOf: everyone found, each under the first address that names them; without a people finder the plan stays; an event that names nobody is one miss for each addressed delivery; the others keep their order; installs stay within the budget, and no key is looked up twice |
| Fanout.OthersKeepTheirOrder | internal/httpserver/addressed.go:113-117 | deliveries that are not addressed stay, in order |
| Fanout.EveryDeliveryCounts | internal/httpserver/addressed.go:182-229 | delivered, undelivered and failures add up to the plan |
| Fanout.DeliverEvent | internal/httpserver/addressed.go:182-229 | any order of the goroutines comes to the same report: delivered are exactly the sends that arrived, undelivered are the people who blocked the bot, each by the address they are known by, and all else is a failure |
| FanoutReport.DeliverPlan | internal/httpserver/webhooks.go:307-313 | expanding, delivering and adding the reports: the sends that arrived, the misses of the expansion and the people who blocked the bot, and the failures of both, each counted once; the report names nobody but by an address of the event |
| FanoutReport.PersonIsNamed | internal/httpserver/addressed.go:138-147 | everyone a delivery of the expanded plan is for is known by the first address that names them, which is one the delivery carries |
| Personal.OnlyOwnNamesLeft | internal/httpserver/personal.go:16-36 | labels, common labels, alert labels and recipients name the person alone |
| Personal.Idempotent | internal/httpserver/personal.go:16-36 | a person's copy of their copy is their copy, through splitting and rejoining the list |
| Personal.AlertsInOrder | internal/httpserver/personal.go:38-58 | the alerts left are exactly those kept, in order, each with its detail; the flat fields are those of the only one left, or empty |
| Personal.KeptMeans | internal/httpserver/personal.go:42-48 | an alert is kept if and only if it names the person or its label is blank |
| Personal.KeptIsPersonOrNobody | internal/httpserver/personal.go:42-48 | that is "the person or nobody" if and only if the label is not a list of nothing |
| Personal.CommaIsDropped | internal/httpserver/personal.go:42-48 | the label "," names nobody, and its alert is dropped from everyone's copy |
| Personal.OwnLabelNamesOnly | internal/httpserver/personal.go:60-74 | narrowing keeps every other label, and the recipient label exactly when it names the person |
| Personal.MakePersonal | internal/httpserver/personal.go:16-36 | the person's names are their id, UPN, mail and the addresses used, trimmed and in lower case; recipients and recipient labels keep exactly the entries naming the person, trimmed and in order; the alerts kept are those whose label is blank or names the person, in order; flat fields repeat a single alert; nothing else changes |
| Personal.CollectNamed | internal/httpserver/personal.go:76-83 | at increasing places, exactly the entries that name the person, trimmed |
| Text.SplitParts | internal/httpserver/personal.go:67-73 | splitting at commas is undone by joining |
| Text.SplitJoin | internal/httpserver/personal.go:67-73 | entries without commas survive being joined and split |

## Left out

What the modelled code does that the model does not:

- Teams and Bot Connector calls: one atomic step that succeeds with an id or fails without effect; a call that takes effect and then reports an error is not modelled.
- A message id, unless it is empty, is given once: that Teams never repeats one is assumed.
- One target at a time in `Claims`: keys, teams and channels of other rows do not appear, since no statement touches two rows. `Deliver.CloseAll` closes many such targets.
- Card rendering, templates, marking recipients as blocked in the store, metrics and logging; a render failure before the claim ends a delivery without any step of the protocol.
- A close whose listing fails, or that lists chat rows without a bot to write to: it reports one failure and takes no step of the protocol.
- The state and time that a restamp (`TouchActiveEvent`) writes: the row keeps what the protocol reads.
- Deliveries of events without a lifecycle (`deliverToChannelOnce`, `sendToChatOnce`): they send without a claim.
- Closed cards staying closed when an open edit races between a close's edit and its delete: the code does not promise it.
- One common clock: a timestamp may reach the store late, but clock skew between replicas is not modelled.
- Audience.BroadcastAudience: the directory does not change while it is paged through; a user's id is a string and its order is by code unit.
- Deliver.DeliverToChannel: recursion on an uneditable card is a loop over a given number of attempts, so nothing is said of a run that finds one forever.
- RelayRunner.RelayStep: it is followed for a given number of pages, since commits by others may keep pages full forever.
- Recording.Close: it is followed until it has the lock or others hold it; that readers let go in the end is not stated.
- Engine.Authorizer: waiting for the lock ends because whoever holds it publishes or gives up; that every holder does is not stated. An engine without a source is left out.
- Groups.Build: the base entities (roles, actions, webhooks) are a parameter of which only their layering is used, and token policies are their ids; the action and resource clauses of a policy are not modelled.
- Role nesting in `PoliciesFor`: it compares direct roles only, so agreement with Cedar is claimed for the other kinds; for roles only one direction is.
- Endpoints.Server.SaveRouteChecked: the tree rules of `internal/routing` and the template's sources are parameters; the check for children is modelled.
- Configuration import, which writes routes as well, and route listing order, which matters only for an endpoint without an id.
- Reconcile.ReconcileEndpointRoutes: the ids of new routes are given, distinct and unused, as `newID` makes them.
- AuditTx.AuditedStore.InTx: other writers' changes do not appear, since a transaction sees none of them half way; nested transactions and functions that swallow an error are left out.
- Stamping beyond the id: actor, request and time of an event.
- Recorder: what a sink's Write does with the event, a refusal included; and a capacity of zero, with which the model always drops while an unbuffered channel may hand over to a waiting goroutine (`internal/config/config.go:292` requires a positive one).
- Pacer.ProcessPacer.Wait: the process-wide limiter and cancelled reservations are the rate library's; time is real, and durations are not rounded.
- KeySet.RateLimitedKeySet.Admit: an attempt counts at the time the limiter read the clock; how long it takes to reach the inner key set after that is not bounded.
- Signature verification, token parsing, JSON and cryptography.
- Fanout.DeliverEvent: the concurrency limit is not modelled, since the result does not depend on it.
- Lower case is a map of single characters, the same throughout; Unicode normalisation is left out.
- HTTP handlers, pages, forms, sessions, OIDC login, Graph and Keycloak: input and output around the protocols.
