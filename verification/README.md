# A verified model of the VGate VLESS node

This project models vgate-server, a VLESS proxy node that takes its configuration and users from a
manager over HTTP, forwards its users' connections, and reports their traffic back. The model
covers how octets are counted, reported and charged against quotas, how connections end when a user
is removed or cut, how the node's byte-level formats are parsed, and how shaping, configuration
pulls, listener rebinding and the callback listener behave under interleaving.

`dafny verify dfyconfig.toml` checks everything.

## How it is built

- **Server state.** `State` gives every critical section of `vless.Server` as a function on the
  fields it guards; `Server` has the class with those fields, whose methods run the loops of the
  source and are proved equal to the functions. The order of Go's map iterations is an output
  (`order`, `index`) about which only what Go promises is known.
- **Accounting.** `Accounting` is the state machine of traffic, user lists, connections, the
  sub-steps of `sync`, and the manager. A step may fall between any two others; a report may be
  applied by the manager any number of times before its answer, whatever the answer is. The book
  logs history: `counted`, `emitted`, `dropped`, `delivered`, `received`, `repeated`, and, as they
  stood when the last snapshot was applied, `gap` and `again`. `SyncLoop` has the loop body as
  methods over the `Server`, `Client` and `Inbound` objects and proves that each call is a run of the
  state machine, so the run theorems of `Conservation`, `EndToEnd` and `Quota` hold of the code.
  `SyncScript` says to the letter which run, and `SyncEffects` what it comes to. `Counters` says what
  each operation does to each bucket and each user.
  Theorems take a selection of buckets or accounts and a direction, so one statement covers a bucket,
  a user, or everything. `PendingKeys` and `Mixing` say when distinct accounts stay apart.
- **Connections.** `Streams` has the client connection as a stream cut into arbitrary chunks, whose
  reads and writes are charged once it is registered. `Header`, `Forward` and `Udp` are the handlers
  over it, `Rounds` what two directions that take turns deliver; `Billing` connects its charges to the server's counters. `Lifecycle` is the state machine
  of lookup, quota gate and registration against user updates, traffic and snapshots; `Admission`
  has these sections as methods over the `Server` object, with anything happening between them, and
  proves that they are runs of that machine.
- **The rest.** `TokenBuckets`, `RateLimit` and `Shaping` (rate limits), `Config`,
  `ConditionalSync` and `Rebind` (configuration), `ChanListener` (bridge), `Uuid`, `ShortIds`,
  `ClientVersion` and `Hex` (formats). `Sums` has sums over sequences and sets.

## Assumptions

- The manager is a ledger that adds every report it applies and answers `/usage` with the totals of
  that moment. A success answer means that the report was applied at least once.
- `WaitN` of golang.org/x/time/rate keeps its documented contract, over real-valued time and tokens.
- The manager's ETags obey sections 8.8.3, 13.1.2 and 15.4.5 of RFC 9110, equal ETags mean equal
  bodies, and bodies decode.
- `Accept` fails only on a closed listener, and closing a listener makes it fail.

## What the code does not do

Each of these is a result of the model, with the exact condition or a witness.

- A payload is handed on only if the octets held cover the address; otherwise a slice expression
  runs out of range. Nothing recovers from that panic, so it ends the whole process
  (`Header.RequestInverts`, `Header.HeaderInverts`). It happens to every header whose first chunk ends
  between the address type and the end of the address (`Header.UncoveredPanics`).
- The addons are decoded before the buffer is topped up: unless the first read covers them, or what
  it misses is zero, the decoder sees other octets (`Header.AddonsSeen`).
- A datagram over 2048 octets is cut on its way to the client (`Udp.RelayedRoundTrip`).
- The comments of `UpdateConfig` say that flow must be empty without security or off tcp, but a
  change of the stream alone does not clear it (`Config.FlowCleared`, `Config.FlowKept`).
- `streamEqual` compares network and security as one string: with a plus sign in them, a stream can be
  mistaken for the one in force and is not taken over (`Config.MistakenStream`; exactly when:
  `Config.StreamEqualExact`, `Config.RebindsExactly`). The securities in use have none.
- A Mux request needs three more octets behind its command before it is looked at, like a request with
  an address; a client that sends fewer and stops is dropped (`Header.CommandOutcome`).
- An update between `Start`'s snapshot and its publication of the listener leaves a listener open
  on the old port (`Rebind.UpdateInWindow`).
- If a report is applied although its answer failed, the manager counts it again and a user may be
  cut before reaching the cap (`Premature.CutTooEarly`). A cut is premature exactly when the cap lies
  above what was moved by at most again - slack, which some cap does iff the manager holds more of
  the user's octets again than the snapshot misses (`Quota.PrematureExactly`).
- A connection past the gate registers and stays open even if its user was removed or cut meanwhile
  (`Lifecycle.RevokedStaysOpen`, `Lifecycle.CutStaysOpen`). An open connection's user is absent, or
  cut, exactly if that was so when it registered and has lasted (`Lifecycle.RevokedExactly`,
  `Lifecycle.CutExactly`); no later list or traffic closes such a connection while its user stays
  absent (`Lifecycle.OrphanStays`).
- Two accounts share a pending entry exactly when one email goes on with a NUL where the other ends
  and the node IDs make up for it, so it takes a NUL in an email and one in a node ID
  (`PendingKeys.PendingKeyExact`). Account by account, conservation holds throughout a run iff no
  merge mixes accounts (`Mixing.BalanceExact`), which some runs do (`Mixing.MixingRun`); NUL-free
  emails or NUL-free node IDs see to it that none does (`PendingKeys.CleanRun`).
- `handleTCP` and `handleUDP` return, and both connections close, as soon as one direction has ended,
  although the comments in `handleTCP` have the half-close let the other one finish. A direction is
  complete exactly if the pieces of its turns before that cover all there is or fill its receiver; in
  other words, if nothing of it is left or its receiver takes no more (`Rounds.DeliveredExactly`). If a
  direction has nothing to copy and the first turn, nothing arrives of the other (`Rounds.OtherLost`).
- A snapshot that cuts a user closes none of the user's connections, and no traffic does until the next
  snapshot (`Lifecycle.SnapshotCutStays`, with a run in `Lifecycle.SnapshotStaysOpen`).

## Model

| member | source | states |
|---|---|---|
| `EndToEnd.EndToEndConservation` | cmd/root.go:124-162 | After every run with one-to-one, stable emails whose merges mix no accounts, octets counted for a user on an entry node equal, per direction, acknowledged + pending + being merged + live + dropped, and the manager's ledger is the acknowledged part unless a report was applied again |
| `Conservation.BucketConservation` | proxy/vless/traffic.go:57-157 | After every run and for any selection of buckets: counted = live + swapped out + dropped, and what was counted since the last swap is what is live |
| `Conservation.AccountConservation` | cmd/root.go:126-161 | After every run, over all accounts, or account by account if no merge mixed accounts: swapped out = delivered + pending + being merged, and the manager received what was delivered plus exactly the repeats |
| `Mixing.BalanceExact` | cmd/root.go:126-161 | For every run: the books balance for every account after every step iff no merge put octets of one account into another's entry |
| `Mixing.MixingLoses` | cmd/root.go:127-140 | A merge that mixes accounts leaves some account short |
| `Mixing.MixingRun` | cmd/root.go:126-140 | For every two users with overlapping emails and every node: a run from the start that mixes them |
| `Conservation.SwapSplits` | proxy/vless/traffic.go:128-155 | A swap turns every octet of the visited buckets into a record or a drop |
| `Conservation.PendingMergedFrom` | cmd/root.go:126-140 | Merging swapped records moves every octet into the pending map |
| `Conservation.ReportIsPending` | cmd/root.go:143-146 | A report carries exactly what is pending, whatever the iteration order |
| `PendingKeys.PendingKeyExact` | cmd/root.go:128 | Two accounts share a pending key iff they are one, or one email is the other, NUL and x, with the node IDs the other way round |
| `PendingKeys.PendingKeyInjective` | cmd/root.go:128 | Hence NUL-free emails keep accounts apart, and so do NUL-free node IDs |
| `PendingKeys.PendingKeyCollision` | cmd/root.go:128 | For every e, x and n: the accounts (e, x NUL n) and (e NUL x, n) share a key |
| `PendingKeys.CleanRun` | cmd/root.go:126-140 | NUL-free emails in every pulled list, or NUL-free entry nodes, keep accounts apart in every merge of the run |
| `EndToEnd.DroppedOnlyUnresolved` | proxy/vless/traffic.go:129-147 | Drops grow only in swaps, by whole buckets that have no email and whose user has none |
| `EndToEnd.NeverBelow` | cmd/root.go:142-156 | The ledger plus what is on its way never falls below what was swapped out; settled, it is that plus the repeats |
| `EndToEnd.LedgerCovers` | cmd/root.go:126-156 | After every run, whatever failed reports were applied: ledger + pending + being merged + live + dropped is at least what was counted, per user, entry node and direction |
| `EndToEnd.RunIsReplay` | proxy/vless/traffic.go:123-157 | What a run swaps out depends on traffic, user lists and when it swaps alone, not on the order in which swaps visit the buckets |
| `EndToEnd.FailuresOnlyDelay` | cmd/root.go:147-154 | Two runs with the same traffic, user lists and swaps, in whatever iteration order and however their reports failed, leave the same ledger once settled if nothing was applied twice |
| `EndToEnd.EmissionsUnordered` | proxy/vless/traffic.go:128-147 | Any two orders of visiting the buckets emit the same records |
| `EndToEnd.LedgerIsTraffic` | cmd/root.go:147-154 | Settled, with nothing live, dropped or repeated, the ledger of an account is what was counted, whenever the swaps were |
| `Quota.QuotaLedger` | proxy/vless/quota.go:42-102 | After every run, for every limited snapshot: octets moved + held twice = base + accrual + gap + dropped |
| `Quota.CutNotPremature` | proxy/vless/quota.go:86-95 | A cut user has moved the cap, counting what the manager was handed again; without repeats, outright |
| `Quota.PrematureExactly` | proxy/vless/quota.go:86-95 | After every run, for every limited snapshot: cut below the cap iff moved < cap <= moved + again - slack, which some cap meets iff again > slack |
| `Quota.CutWithinOneChunk` | proxy/vless/quota.go:91-95 | When a chunk cuts a user, the octets moved are below cap + chunk + gap + dropped |
| `Quota.CutIsExact` | proxy/vless/quota.go:57-60 | In every reachable state: cut iff the cap is not negative and base + accrual reaches it |
| `Quota.CutStays` | proxy/vless/quota.go:42-64 | Only a new snapshot or the user's removal ends a cut |
| `Quota.TotalsDecide` | proxy/vless/traffic.go:73-75 | After any addTraffic calls, a user's accrual and cut are a function of the user's total |
| `Quota.SameTotalsSameQuota` | proxy/vless/quota.go:86-95 | Hence order, chunking, direction and entry node do not matter |
| `Quota.NothingAgain` | cmd/root.go:147-154 | Without repeats no snapshot holds an octet twice |
| `Quota.RunAgrees` | proxy/vless/user.go:15-85 | In every reachable state quota keys are users, limiter tables have the users' keys and exact rates (none iff no limit), and no connection set is empty |
| `Quota.ApplyLedger` | proxy/vless/quota.go:46-63 | A new snapshot meets the ledger equation; what it misses is the gap |
| `Quota.SwapLedger` | proxy/vless/traffic.go:128-155 | A swap drops nothing of a user who has a snapshot |
| `Premature.CutTooEarly` | cmd/root.go:147-155 | For every chunk n and cap between n and 2n: a run in which a failed report was applied cuts a user who moved n |
| `Premature.Attempted` | cmd/root.go:124-147 | One swap, merge and POST brings the waiting octets to the manager and keeps them pending |
| `Server.Server.AddTraffic` | proxy/vless/traffic.go:57-76 | New state: the bucket made if missing and raised, quota accrued by the sum, connections closed if it cuts |
| `Server.Server.Count` | proxy/vless/traffic.go:60-69 | The bucket part of the same, nothing else changed |
| `Server.Server.AccrueQuotaLocked` | proxy/vless/quota.go:86-102 | Accrual, cut latch and closed connections, and what makes it a no-op |
| `Server.Server.CloseAll` | proxy/vless/quota.go:99-101 | Every connection of the set is closed, no other |
| `Server.Server.GetAndResetTraffic` | proxy/vless/traffic.go:123-157 | Visits every bucket once; returns the busy, resolvable ones; zeroes the busy ones and deletes idle ones of unknown users |
| `Server.Server.VisitBucket` | proxy/vless/traffic.go:129-154 | One round of the same |
| `Server.Server.ApplyUsage` | proxy/vless/quota.go:42-64 | The quota table becomes the last-wins snapshots of the entries an email index resolves |
| `Server.Server.IndexByEmail` | proxy/vless/quota.go:46-49 | Every email is indexed, to some user that has it |
| `Server.Server.UpdateUsers` | proxy/vless/user.go:15-65 | New user set and limiters by the fold; removed users' connections closed and their entries gone |
| `Server.Server.BuildTables` | proxy/vless/user.go:22-44 | The loop over the list equals the fold, skipping unparsable IDs |
| `Server.Server.Limiter` | proxy/vless/user.go:34-38 | A bucket of the very same rate is reused, otherwise a new one, or none without limit |
| `Server.Server.CloseRemoved` | proxy/vless/user.go:51-64 | All removed users are closed and forgotten, in any order |
| `Server.Server.CloseUser` | proxy/vless/user.go:52-63 | One removed user |
| `Server.Server.AddConn` | proxy/vless/user.go:67-74 | The connection joins its user's set |
| `Server.Server.RemoveConn` | proxy/vless/user.go:76-85 | It leaves the set, and an empty set leaves the index |
| `Users.UpdateUsersSet` | proxy/vless/user.go:25-31 | A user is in the set iff some entry parses to the key, and is then the last such entry |
| `Users.FoldUsers` | proxy/vless/user.go:25-31 | The fold's user set does not depend on the state before |
| `Users.LastEntryWins` | proxy/vless/user.go:31 | The last parsable entry of an ID is the one kept |
| `Users.OnlyListedUsers` | proxy/vless/user.go:26-30 | Every user comes from an entry that parses |
| `Users.EntriesMerge` | proxy/vless/user.go:26-31 | Entries merge iff their IDs agree up to dashes and case |
| `Users.UpdateUsersAgrees` | proxy/vless/user.go:15-65 | A user update keeps the tables in agreement |
| `Users.ApplyUsageAgrees` | proxy/vless/quota.go:46-63 | So do snapshots, which only name users |
| `Users.ApplyUsageExactly` | proxy/vless/quota.go:52-63 | A user has a snapshot iff some entry's email leads to the user, whatever other entries there are; it is the last such entry's cap and used total, nothing accrued, cut iff the cap is a limit and used up |
| `Users.AddTrafficAgrees` | proxy/vless/traffic.go:57-76 | So does traffic |
| `Users.ConnsAgree` | proxy/vless/user.go:67-85 | So do connection registration and removal |
| `Users.UpdateUsersKeepsBuckets` | proxy/vless/user.go:32-43 | A user who stays with the same positive limit keeps the very same bucket |
| `Counters.CountedExactly` | proxy/vless/traffic.go:60-69 | A bucket is made with the email its user has then and keeps it; it is raised by what is counted, and nothing of any other bucket or user changes |
| `Counters.ResetExactly` | proxy/vless/traffic.go:128-155 | A bucket survives a swap iff it was busy or its user is known; a busy one is zero after it, under the email it was reported as |
| `Counters.SwapExactly` | proxy/vless/traffic.go:131-147 | A swap returns a record iff it is a busy bucket's, with its node and counters and an email of its own or its user's |
| `Counters.UpdateExactly` | proxy/vless/user.go:50-64 | An update forgets snapshot and connections of exactly the users it removes, and closes exactly those connections |
| `Counters.UpdateUsersApart` | proxy/vless/user.go:32-43 | No two users and no two directions share a bucket, and an update gives no bucket that was in use to anyone else |
| `Quota.RunApart` | proxy/vless/user.go:32-43 | So in every reachable state |
| `SyncLoop.SyncLoop.Run` | cmd/root.go:85-98 | The initial sync and the ticks are, one by one, syncs to the letter, together one run of the state machine from its start; and if the manager is honest, configuration, users and rates end as those of a node that pulls full bodies every time |
| `SyncLoop.SyncLoop.Sync` | cmd/root.go:101-162 | One sync takes exactly the steps of its script: arrivals, a list if one is pulled, one swap, one merge, one POST iff anything is pending, its landings and its answer, and the refresh unless the POST failed; its pulls are one Pull of the conditional node |
| `SyncLoop.SyncLoop.Pull` | cmd/root.go:104-122 | Both pulls do to configuration, users and limiters what Pull does, whatever reaches the server in between, and take exactly the script's steps |
| `SyncLoop.SyncLoop.PullUsers` | cmd/root.go:114-122 | A list is one step of the machine, 304 and errors none |
| `SyncLoop.SyncLoop.Account` | cmd/root.go:124-162 | The part of the script after the pulls, with the state in which the merge leaves the machine |
| `SyncEffects.SyncDoes` | cmd/root.go:124-162 | What that comes to: every bucket swapped out once; if anything is due, the manager gets it once per landing, and with a success answer it is delivered and nothing stays pending, else all of it does; the snapshots are those of the answer if the sync gets that far |
| `SyncEffects.SyncReports` | cmd/root.go:142-155 | The same in octets, for all accounts or, unless the merge mixes, account by account: received grows by landings times what was pending and swapped out, delivered by it once iff posted, and pending is nothing or all of it |
| `SyncLoop.SyncLoop.SwapAndMerge` | cmd/root.go:126-140 | Exactly swap, arrivals, merge |
| `SyncLoop.SyncLoop.MergeStats` | cmd/root.go:127-140 | The loop equals the fold over the records |
| `SyncLoop.SyncLoop.BuildReport` | cmd/root.go:143-146 | The report lists every pending entry once, and nothing else |
| `SyncLoop.SyncLoop.Post` | cmd/root.go:147-154 | Exactly the POST, arrivals, its landings, arrivals and its answer; on success pending is cleared, on failure kept |
| `SyncLoop.SyncLoop.Clear` | cmd/root.go:152-154 | The deleting loop empties the map |
| `SyncLoop.SyncLoop.ApplyUsage` | cmd/root.go:172-185 | With an answer exactly its arrival, arrivals and the snapshots, else none; the missing-endpoint flag is set only by that answer and stays |
| `SyncLoop.Deliver` | proxy/vless/traffic.go:57-76 | Calls of addTraffic, addConn and removeConn are the machine's steps, one each and in order, and leave the loop's own state alone |
| `Lifecycle.RevokedOnlyInWindow` | proxy/vless/handler.go:87-105 | An open, registered connection of an absent user was looked up before the removal and registered after it |
| `Lifecycle.CutOnlyInWindow` | proxy/vless/handler.go:98-105 | One of a user cut in this snapshot epoch passed the gate before the cut and registered after it |
| `Lifecycle.RemovalCloses` | proxy/vless/user.go:50-64 | A removal closes every connection already registered |
| `Lifecycle.CutCloses` | proxy/vless/quota.go:95-101 | So does a cut by accrual |
| `Lifecycle.ClosedStays` | proxy/vless/user.go:50-64 | No step reopens a connection |
| `Lifecycle.TrafficClosesExactly` | proxy/vless/quota.go:86-101 | Traffic closes an open registered connection iff it is its user's, who is limited and not cut, and takes base + accrual to the cap |
| `Lifecycle.ClosesExactly` | proxy/vless/user.go:50-64 | A step closes it iff it ends it, removes its user, or is such a chunk |
| `Lifecycle.StaysOpenExactly` | proxy/vless/quota.go:86-101 | From every reachable state, over every continuation: it is open at the end iff no step of it was one of these |
| `Lifecycle.Reachable` | proxy/vless/handler.go:87-105 | The invariant behind these in every reachable state: the index holds every open registered connection, and times are ordered |
| `Lifecycle.RevokedExactly` | proxy/vless/handler.go:87-105 | In every reachable state, an open registered connection's user is absent iff the user was absent when it registered and no later list restored the user |
| `Lifecycle.CutExactly` | proxy/vless/handler.go:98-105 | Likewise for a cut by accrual, within the snapshot epoch |
| `Lifecycle.OrphanStays` | proxy/vless/user.go:50-64 | A connection left over from a removal stays open over every continuation that neither ends it nor restores its user |
| `Lifecycle.RevokedStaysOpen` | proxy/vless/handler.go:98-105 | For every user and connection: a run that ends with the removed user's connection open |
| `Lifecycle.CutStaysOpen` | proxy/vless/quota.go:86-101 | For every user, connection and cap: a run that ends with the cut user's connection open |
| `Lifecycle.SnapshotCutStays` | proxy/vless/quota.go:57-63 | A user cut by a snapshot keeps every open connection over every continuation without another snapshot whose lists keep the user and that does not end the connection |
| `Lifecycle.SnapshotStaysOpen` | proxy/vless/quota.go:57-63 | For every user, connection and cap: a run that ends with the connection of a user cut by a snapshot open |
| `Admission.Admit` | proxy/vless/handler.go:84-105 | Lookup, gate and registration are a run of the machine of exactly these steps and of what happens before each; the verdict is that of the states lookup and gate met, and only an admitted connection is registered |
| `Admission.Lookup` | proxy/vless/handler.go:87-94 | The lookup answers for the state in which what happens before it ends |
| `Admission.PassGate` | proxy/vless/handler.go:98-101 | So does the gate, for its own state |
| `Admission.Enrol` | proxy/vless/handler.go:104 | Whoever is past the gate is registered, whatever happened since |
| `Admission.Bill` | proxy/vless/traffic.go:39-55 | A connection's charges reach the server as addTraffic calls, in order, each after what happens before it, and nothing else does |
| `Admission.Depart` | proxy/vless/handler.go:46-105 | The deferred calls take the connection out of the index and close it |
| `Admission.Do` | proxy/vless/user.go:15-85 | Whatever else goes on at the server is one step of the machine each, or none where a handler cannot take it, and leaves this handler's stage alone |
| `Header.HandleConnection` | proxy/vless/handler.go:71-245 | Outcome and reads on every stream and chunking, with lookup and gate answered by their own states of a server on which other things go on; registered iff both let it pass; then every octet read or written is charged once, and the charges are addTraffic calls of the server's run |
| `Header.Exchange` | proxy/vless/handler.go:71-245 | The same exchange with the client, before its charges are billed |
| `Header.Answer` | proxy/vless/handler.go:78-245 | What follows a first read that was long enough |
| `Header.ReadRequest` | proxy/vless/handler.go:120-245 | What follows the greeting: top-up, then dispatch |
| `Header.ReadAddons` | proxy/vless/handler.go:108-120 | The flow, from the addons as the first read left them |
| `Header.FirstRead` | proxy/vless/handler.go:72-76 | The buffer holds what was read, zero after it |
| `Header.Greet` | proxy/vless/handler.go:78-120 | Version, lookup, gate, registration and addons, with each refusal; the server's part is a run of its machine, the first charge is the octets read so far |
| `Header.TopUp` | proxy/vless/handler.go:121-128 | A second, charged read only when the first was too short |
| `Header.Dispatch` | proxy/vless/handler.go:130-245 | Vision rules and command switch, then Mux or the single target, in the source's order |
| `Header.SingleTarget` | proxy/vless/handler.go:182-245 | Port, address, the UDP rule for Vision, response and hand-off, with each refusal |
| `Header.ReadAddress` | proxy/vless/handler.go:187-205 | The address switch equals the parse of the whole buffer |
| `Header.HeaderInverts` | proxy/vless/handler.go:71-245 | For every header, payload and chunking whose first read covers the addons: relayed with its exact fields and the stream after it iff the octets held cover the header, else out of range |
| `Header.UncoveredPanics` | proxy/vless/handler.go:187-205 | For every header: a first chunk that ends behind the address type and before the address does runs out of range |
| `Header.RequestInverts` | proxy/vless/handler.go:130-245 | The same for command, port, address and payload |
| `Header.GreetingInverts` | proxy/vless/handler.go:84-120 | User and flow come back once the first read covers the addons |
| `Header.GreetingOutcome` | proxy/vless/handler.go:73-101 | Fewer than 18 octets, another version, an unknown and a cut user are each refused as such, in this order, and nobody else is |
| `Header.AddonsOutcome` | proxy/vless/handler.go:113-117 | Addons that do not decode end the connection |
| `Header.CommandOutcome` | proxy/vless/handler.go:130-205 | For every command and tail: Vision refused iff not allowed or encrypted; Mux dropped iff off, else handed on with its user, flow and exactly the stream behind the command; other commands and address types dropped |
| `Header.HeaderOutcome` | proxy/vless/handler.go:130-245 | For every TCP or UDP header, flow and setting, once covered: Vision refused where not allowed, encrypted or over UDP, dropped if the answer does not go out, else relayed with its exact fields and stream |
| `Header.AddressInverts` | proxy/vless/handler.go:187-205 | The address comes back, with its end |
| `Header.HandOff` | proxy/vless/handler.go:233-245 | Payload handed on plus later reads is the stream after the header |
| `Header.FitsBuffer` | proxy/vless/handler.go:72-128 | A header fits the buffer iff it has no domain or addons and domain stay within 489 octets |
| `Header.AddonsSeen` | proxy/vless/handler.go:111-118 | The decoder sees the client's addons iff what the first read misses of them is zero |
| `Forward.Relay` | proxy/vless/handler.go:265-290 | For every interleaving of both directions' rounds: the relay stops when the first direction has ended, what has arrived on either side is a function of the inputs, and all octets are charged once |
| `Forward.HandleTCP` | proxy/vless/handler.go:258-290 | The octets read with the header go first; if the destination does not take them all, nothing else happens |
| `Rounds.DeliveredExactly` | proxy/vless/handler.go:265-290 | On the inputs of a relay: never have both directions ended; each is complete iff the pieces of its turns cover all there is or fill its receiver, iff nothing is left or there is no room; one that has ended is |
| `Rounds.ArrivedExactly` | proxy/vless/handler.go:267-288 | The same for one direction after k rounds, which has ended iff k is the number it needs |
| `Rounds.OtherLost` | proxy/vless/handler.go:290 | A direction with nothing to copy and the first turn ends the relay, and nothing has arrived of the other |
| `Forward.UpRound` | proxy/vless/handler.go:270 | One round of the upload: the next piece is delivered as far as there is room, and the direction ends iff there is no piece or not enough room |
| `Forward.DownRound` | proxy/vless/handler.go:282 | The same for the download |
| `Forward.RelayUp` | proxy/vless/handler.go:267-277 | On its own the upload ends, and the destination has the client's octets in order up to its first failed write |
| `Forward.RelayDown` | proxy/vless/handler.go:279-288 | The same for the download |
| `Streams.ClientConn.Read` | proxy/vless/traffic.go:39-46 | One chunk at most, in order, charged once when counting |
| `Streams.ClientConn.Write` | proxy/vless/traffic.go:48-55 | The accepted part is charged once |
| `Streams.ClientConn.Register` | proxy/vless/handler.go:103-107 | From here on everything read so far is charged |
| `Streams.ClientConn.ReadAtLeast` | proxy/vless/handler.go:73 | Reads until the minimum or the end, losing nothing |
| `Billing.ConnectionBilled` | proxy/vless/traffic.go:39-76 | A connection raises its bucket by exactly what it read and wrote, and its user's quota figures by the sum |
| `Billing.CountersAfter` | proxy/vless/traffic.go:57-69 | After any interleaved calls a counter is up by the sum of the calls on it |
| `Udp.TcpToUdp` | proxy/vless/udp.go:30-48 | The datagrams sent are the complete frames of the stream, however it is split, up to the first failed write |
| `Udp.ReadFrame` | proxy/vless/udp.go:33-42 | One frame, or the end of the complete ones |
| `Udp.UdpToTcp` | proxy/vless/udp.go:51-70 | The client gets the wire form of the datagrams as the buffer takes them, up to the first failed write |
| `Udp.SendFrame` | proxy/vless/udp.go:59-68 | Length and datagram, charged |
| `Udp.FrameReads` | proxy/vless/udp.go:59-68 | A frame is the length, high octet first, and the datagram |
| `Udp.Relay` | proxy/vless/udp.go:27-72 | For every interleaving of both directions' rounds: the relay stops when the first has ended, what has arrived on either side is a function of the inputs, and all octets are charged once |
| `Udp.UpRound` | proxy/vless/udp.go:33-46 | One frame is read and its datagram sent; ends iff there is no complete frame or the write fails |
| `Udp.DownRound` | proxy/vless/udp.go:54-68 | One datagram is received and its frame written; ends iff there is none or the write fails |
| `Udp.MultiReader.ReadFull` | proxy/vless/udp.go:31-42 | Exactly k octets of initial data and stream, or the end |
| `Udp.RoundTrip` | proxy/vless/udp.go:30-70 | Decoding the wire form returns the datagrams iff all lengths fit 16 bits |
| `Udp.TruncatedStream` | proxy/vless/udp.go:33-42 | A truncated stream yields exactly the datagrams that arrived in full |
| `Udp.RelayedRoundTrip` | proxy/vless/udp.go:51-70 | What the writer produced decodes to the datagrams iff none exceeds 2048 octets, else to their cut form |
| `Shaping.UserShaped` | proxy/vless/ratelimit.go:56-88 | After every run, and over any further run whose lists (any number) keep a user and a positive limit: the user's calls begun in it, of at most 1 MiB, that returned by time t moved at most burst + limit times the age of the user's bucket, and at most the same of the global bucket while no configuration update replaces it |
| `Shaping.CapturesKept` | proxy/vless/user.go:32-43 | Over such a run the user's bucket stays the same and all the user's calls capture it |
| `Shaping.UserShapedBothWays` | proxy/vless/ratelimit.go:56-88 | The bound in octets up against the upload limit, and in octets down against the download limit |
| `Shaping.GlobalsNew` | proxy/vless/server.go:151-152 | Every configuration update makes new, full global buckets of its limits, by direction, or none |
| `Shaping.ShapedByBoth` | proxy/vless/ratelimit.go:56-88 | In every reachable state, any calls of at most 1 MiB that captured these two buckets and returned by time t moved at most burst + rate times age of either |
| `Shaping.ShapedByBucket` | proxy/vless/ratelimit.go:65-83 | The same bound for one bucket |
| `Shaping.WaitsAreServed` | proxy/vless/ratelimit.go:65-83 | Every wait that is due can proceed, asks for no more than its bucket's burst, and for all of up to 1 MiB |
| `Shaping.UpdatesKeepUserBucket` | proxy/vless/user.go:32-43 | A user update leaves existing buckets untouched, and a user with the same positive limit goes on with the same one |
| `Shaping.Reachable` | proxy/vless/ratelimit.go:56-88 | Every reachable state keeps buckets bounded, grants matched to calls one to one, and passed waits granted |
| `TokenBuckets.BurstOf` | proxy/vless/ratelimit.go:32-43 | The burst lies within 1 and 8 MiB, and departs from the rate only down to the upper or up to the lower bound |
| `TokenBuckets.ReserveBounded` | proxy/vless/ratelimit.go:77-82 | A wait keeps tokens and grants within burst + rate times age |
| `TokenBuckets.ServedExactly` | proxy/vless/ratelimit.go:77-82 | A wait returns at once if the tokens are there, else at the first moment at which what accrues has paid for it |
| `TokenBuckets.AvailableExactly` | proxy/vless/ratelimit.go:42 | At hand is what was left and has accrued, up to the burst; a new bucket has its burst |
| `TokenBuckets.ThroughBy` | proxy/vless/ratelimit.go:77-82 | Whatever calls returned by t, their grants fit the allowance of t |
| `TokenBuckets.OctetsGranted` | proxy/vless/ratelimit.go:65-83 | The octets of calls that have their grants are at most those grants |
| `RateLimit.RateBucket.constructor` | proxy/vless/ratelimit.go:32-43 | A new bucket is full and within its bound |
| `RateLimit.NewRateBucket` | proxy/vless/ratelimit.go:21-26 | No bucket iff no positive rate |
| `RateLimit.RateBucket.WaitN` | proxy/vless/ratelimit.go:77-82 | The tokens left and the time of return, keeping the bound |
| `RateLimit.Wait` | proxy/vless/ratelimit.go:65-83 | Nothing without bucket or octets, else a clamped wait |
| `RateLimit.ApplyLimits` | proxy/vless/ratelimit.go:56-88 | Among any waits of other calls on the same buckets: in each bucket it passes, the call is granted its octets exactly once and served by the time it returns, and all buckets keep their bounds |
| `RateLimit.ApplyLimitsAlone` | proxy/vless/ratelimit.go:56-88 | With no other call in between: what the four waits leave of each bucket, and when each begins |
| `RateLimit.WaitIsStep` | proxy/vless/ratelimit.go:65-87 | A wait step of the state machine is this wait on its bucket and touches no other |
| `ConditionalSync.ConditionalRefinesWhole` | cmd/root.go:104-122 | After every sync a node that pulls with ETags equals one that pulls full bodies: configuration view, users, and every user's rates |
| `ConditionalSync.PullBoth` | cmd/root.go:104-122 | The two pulls over client, inbound and server do exactly what Pull says |
| `ConditionalSync.PullConfig` | cmd/root.go:104-112 | A full answer is configured and its ETag kept; 304 and errors leave configuration and ETag alone |
| `ConditionalSync.PullUsers` | cmd/root.go:114-122 | The same for users |
| `ConditionalSync.Kept` | api/client.go:56-71 | A kept ETag belongs to a version that the node's state reflects |
| `ConditionalSync.ETagsKept` | api/client.go:71-100 | The ETags kept are those of the last full answers; 304 and errors do not lose them |
| `Config.Inbound.UpdateConfig` | proxy/vless/server.go:114-173 | The whole new view, and the listener is closed iff port or stream changed |
| `Config.ConfigTaken` | proxy/vless/server.go:118-168 | Field by field: port, stream unless mistaken, limits by direction, every vless field with the flow allowed or empty, what decryption was built from, and every short ID's node |
| `Config.RebindsExactly` | proxy/vless/server.go:118-134 | The listener is closed iff the port or a field of the stream differs and the stream is not mistaken; with plain securities it never is |
| `Config.StreamEqualExact` | proxy/vless/server.go:288-302 | Streams count as equal iff network (with its default), security, settings, tls and reality agree, or the blocks do and the names merge |
| `Config.MistakenStream` | proxy/vless/server.go:278-302 | A family of streams that differ, count as equal, and are not taken over |
| `Config.BuiltStaysFit` | proxy/vless/server.go:135-148 | Decryption is always built from the block in force |
| `Config.Inbound.NodeForShortID` | proxy/vless/traffic.go:113-117 | The node of the last configured entry that has the key, or the empty string if none has |
| `Config.ConfigureIdempotent` | proxy/vless/server.go:114-173 | Pulling the same configuration again changes nothing and rebinds nothing |
| `Config.FlowCleared` | proxy/vless/server.go:135-148 | The flow left is allowed iff it was allowed as pulled or the vless block changed |
| `Config.FlowKept` | proxy/vless/server.go:135-148 | A stream change from tls to none keeps a flow that a fresh node would clear |
| `Rebind.AtMostOneOpen` | proxy/vless/server.go:235-274 | At most one listener is open in every reachable state |
| `Rebind.AcceptingMatches` | proxy/vless/server.go:235-274 | An open accepting listener matches the configuration iff it did at publication, and it did unless an update fell between snapshot and publication |
| `Rebind.AcceptingFields` | proxy/vless/server.go:235-274 | The same field by field where no security holds a plus sign: port, network, security, settings, tls and reality are those in force iff they were at publication |
| `Rebind.UpdateInWindow` | proxy/vless/server.go:237-262 | Such an update leaves a listener open on the old port |
| `ChanListener.Conservation` | transport/xraybridge/bridge.go:46-72 | At every step offered connections split into blocked, buffered (at most 32), accepted in enqueue order, and closed by AddConn; nothing is closed before Close, and the inner listener once |
| `ChanListener.EachOnce` | transport/xraybridge/bridge.go:47-62 | A connection offered once is in exactly one of these places, once |
| `ChanListener.StepsCount` | transport/xraybridge/bridge.go:46-72 | Closed from the first Close on; offers, sends and refusals are the calls' own; receives return what was sent, oldest first |
| `ChanListener.ChanListener.AddConn` | transport/xraybridge/bridge.go:47-53 | A call is offered, and its first attempt sends, is refused, or stays blocked, as steps of the machine |
| `ChanListener.ChanListener.TryAddConn` | transport/xraybridge/bridge.go:47-53 | A further attempt of a blocked call is a step of the machine, or blocks |
| `ChanListener.ChanListener.ValidConserves` | transport/xraybridge/bridge.go:46-72 | Whatever is called on the object, Conservation holds of it: buffer within 32, refusals only after Close, inner closed once |
| `ChanListener.ChanListener.TryAccept` | transport/xraybridge/bridge.go:55-62 | The same for Accept |
| `ChanListener.ChanListener.Close` | transport/xraybridge/bridge.go:64-72 | The same for Close, with its once flag |
| `ShortIds.BuildTable` | proxy/vless/server.go:157-168 | The loop builds the last-wins table of the valid entries |
| `ShortIds.LookupLastEntry` | proxy/vless/traffic.go:113-117 | A lookup returns the node of the last entry that has the key |
| `ShortIds.LookupUnknown` | proxy/vless/traffic.go:113-117 | And the empty string if none has |
| `ShortIds.DecodeShortIds` | transport/security/reality.go:84-109 | Rejected iff some string item fails; else the set of keys, or the empty ID alone |
| `ShortIds.AttributionIsAdmission` | proxy/vless/server.go:159-166 | A short ID has an attribution key iff its trimmed form is non-empty and admissible, and it is the admission key |
| `ShortIds.RealityKeyExact` | transport/security/reality.go:90-103 | A short ID is admitted with a key iff in hex it spells at most eight octets, which come first in the key, with zeros behind them |
| `ShortIds.SidKeyExact` | proxy/vless/server.go:159-166 | It has an attribution key iff that holds of it trimmed, and that is not empty |
| `ShortIds.TrimSplits` | proxy/vless/server.go:159 | Trimming takes spaces off both ends and nothing else |
| `ShortIds.AdmittedIsAttributed` | transport/security/reality.go:84-105 | Every non-empty admitted string is attributed under its admission key |
| `ShortIds.AdmittedClientNode` | proxy/vless/handler.go:54-57 | A client admitted on a configured short ID is billed to its last entry |
| `ClientVersion.ParseClientVer` | transport/security/reality.go:134-150 | The nested loops terminate and compute the reference parse, with octet and int64 wrap-around |
| `ClientVersion.ParseDotted` | transport/security/reality.go:134-150 | Parsing inverts dotted-decimal printing for every octet sequence |
| `ClientVersion.ParseEveryInput` | transport/security/reality.go:138-148 | On every input each dot-separated component yields one octet, except an empty one at the end |
| `ClientVersion.ParseJoined` | transport/security/reality.go:138-148 | The same for given components |
| `Uuid.ParseAccepts` | proxy/vless/protocol.go:35-47 | Accepted iff 32 hex digits remain without dashes; the key has 16 octets |
| `Uuid.ParseExact` | proxy/vless/protocol.go:35-47 | Parses to b iff it spells b in hex, with dashes anywhere and either case |
| `Uuid.SameUser` | proxy/vless/protocol.go:35-47 | Two accepted IDs give one key iff they agree up to dashes and case |

## Left out

- TLS and Reality handshakes, the v2 AEAD layer and `rebuildDecryptionLocked`'s key parsing: cryptography outside the repository. `Config` keeps which block the decryption was rebuilt from.
- Vision and Mux.Cool forwarding (`proxy/vless/vision.go`, `proxy/vless/mux.go`): frame logic of xray-core. The header's dispatch into them is modelled; exactly-once charging is stated for plain TCP and UDP only.
- Protobuf decoding of the addons: any function from octets to a flow or an error.
- Sockets, dialing, DNS, deadlines, half-close, HTTP retries, logging and start-up. EOF and read errors are both the end of a connection's chunks.
- The directions of a relay take turns by whole rounds (a read and its write). They share no state but the charges, which are sums, so finer interleavings deliver the same.
- Rounds that the other direction still gets in between the end of the first one and the closing of the connections.
- Text form of IP addresses and `JoinHostPort`: addresses stay tagged octets.
- int64 wrap-around of traffic and quota counters: they are unbounded. `parseClientVer` does wrap.
- `Server` is modelled in two classes, `Server.Server` (users, traffic, quota, connections) and `Config.Inbound` (port, stream, vless, short IDs, listener); no method of the source touches both parts.
- `countingConn` and its connection are one object, `Streams.ClientConn`; its `applyLimits` calls are modelled in `RateLimit` and `Shaping`.
- Bucket objects inside the user tables are identities with rates; their tokens are in `TokenBuckets`.
- User expiry, level and other fields that these functions do not read.
- A report applied by the manager only after its failure answer has arrived: application is modelled before the answer.
- Go strings are sequences of runes; invalid UTF-8 in IDs is not modelled, and in a pending key it would not matter.
- `transport/*` adapters, JSON and protojson decoding, `ParseXrayAddress`: field-by-field copying.
- Connections still buffered in `ChanListener` when it closes may never be accepted, and nothing closes them; `ChanListener.Conservation` counts them as buffered.
- `Start` is the state machine of `Rebind`, whose steps are its critical sections, its bind and its accepts; it has no method of its own.
- A connection's reads do not look at the server, so its `addTraffic` calls are made from its charges at the end of the header exchange, in their order (`Admission.Bill`); those of the relay stay charges (`Billing`). That a closed connection reads nothing more is in the input: its chunks end.
- RateLimit.ApplyLimitsAlone: covers a call that no other interrupts; `RateLimit.ApplyLimits` and `Shaping` have the interleaved ones.
