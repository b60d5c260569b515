# V2bX runtime: a verified model

V2bX connects proxy cores (Xray, sing-box) to a panel that manages nodes, users and traffic. This
project models the parts of its runtime where state, interleaving or byte-level work makes mistakes
easy, and proves what those parts are for. Run `dafny verify dfyconfig.toml` in this directory.

| files | what they model |
|---|---|
| `Frames`, `SessionWriter`, `SessionReader` | the AnyTLS frame layout, the padded sending side with its pending buffer, the receive loop |
| `SessionClose` | openStream, stream closes and session close as interleaved steps |
| `ClientPool`, `IdleCleanup` | the AnyTLS client's session pool and the trimming of its idle list |
| `Traffic`, `Reload` | merging and pushing of traffic, the transactional VLESS node reload |
| `XrayTraffic`, `TrafficPath` | the Xray core's counters and retired records, and the whole way of a byte to the panel |
| `ConfigMigration` | the migration of legacy sing-box configurations and what a routing configuration means |
| `SingUsers`, `SingRevocation` | the sing core's user tables, and connection setup against revocation |
| `LinkManager` | the Xray core's link managers, and connection setup against revocation and re-admission |
| `DeviceLimiter` | admission by device limit over reporting windows |
| `Json5`, `Json5Text` | the comment and trailing-comma stripper, on bytes and on whole texts |
| `Basics`, `Seqs`, `MapSums`, `Panel`, `Format` | shared types and helpers |

Two kinds of model occur. Code that runs under one lock from start to end is a class whose methods
are proved against functions on the state, and the results are lemmas about those functions and about
runs of them. Code that several goroutines run at once is a labelled transition system: `Enabled`, `Do`
and `Run` say what an interleaving is, an invariant is proved step by step, and the results hold for
every interleaving. Sockets, clocks, third-party cores and the panel appear as arbitrary answers: a
parameter, a field the model never constrains, or a label.

## Where the code does less than it promises

Each of these has a lemma that names a run or an input, and one that says exactly when the promise holds.

- A peer's SYN under an id that openStream hands out later can take that stream out of reach of session close
  (`SessionClose.CollidingSynLeavesAStreamOpen`); openStream's k-th stream is safe if and only if the peer gets
  no stream registered under k (`SafeExactlyWhen`). The peer's own streams can be missed too, when their SYN
  comes after the sweep or their id is used again; they are safe if and only if neither happens
  (`PeerSafeExactlyWhen`).
- A session that closes while its stream is giving it back can stay in the client's idle list, closed
  (`ClientPool.ClosedSessionCanStayIdle`); an idle session is open if and only if nobody is closing it and it
  was not given back after its die hook ran (`IdleIsOpenExactlyWhen`).
- A stream's creation that was let in before the client closed can dial afterwards and leave an open session
  behind (`ClientPool.LateSessionOutlives`); Close of the client is complete if and only if no session is made
  after it has collected them (`ClientCloseIsCompleteExactlyWhen`).
- Traffic that a block outbound dropped as the implicit default goes out through the next outbound after the
  migration (`ConfigMigration.BlockedDefaultOpens`); routing is kept if and only if the implicit default is not
  a removed block outbound (`MeaningIsKeptExactlyWhen`).
- Re-adding an Xray user under another UID moves its unreported bytes to that UID, and a separator character
  in a tag loses bytes (`XrayTraffic.NewUidTakesBytesAlong`, `SeparatorInTagLosesBytes`); an event conserves
  every UID's bytes if and only if each UID gains as many bytes by it as it gives up, and no other node has
  bytes under the names it takes (`ConservesExactlyWhen`).
- A tag that starts with another tag and the key separator shares keys with it, and retiring the one node
  takes UIDs of the other (`SingUsers.PrefixLosesUid`); they are spared over every run if and only if neither
  tag starts the other in this way (`UidsAreSparedExactlyWhenApart`).
- The Xray core's AddUsers drops a user's link manager without closing it
  (`LinkManager.AdmissionCanLoseALink`); a link that is lost when an admission completes can survive the next
  revocation (`LostLinkCanSurviveRevocation`), and without such an admission none does
  (`NoLinkSurvivesRevocation`).
- A connection whose setup finds no limiter is handed back untracked
  (`SingRevocation.UnwrappedConnectionSurvives`); of a revoked user's connections exactly these stay open
  (`OpenExactlyWhenBypassed`).
- A user without a speed limit of its own is forgotten when its dynamic limit expires, and refused from then on
  (`DeviceLimiter.ExpiryForgetsAUser`); a known user is forgotten if and only if a check finds its dynamic
  limit over and no limit of its own (`ForgottenExactlyWhen`).
- A bucket keeps its first rate, so a lower limit set later has no effect
  (`DeviceLimiter.LowerLimitIsIgnored`); a check hands out a bucket of the rate now called for if and only if
  the first bucket has it (`BucketIsCurrentExactlyWhen`).
- A block comment is erased if and only if every star inside it has a space behind it
  (`Json5.BlockCommentIsErasedExactlyWhen`); one that ends in two stars and a slash does not end there
  (`TwoStarsDoNotEnd`).
- A payload of 65536 bytes is read back as an empty one (`Frames.LongPayloadIsLost`); frames survive the wire
  if and only if their payload fits the 16-bit length field and their command carries it
  (`RoundTripExactlyWhenWellFormed`).

## Model

| member | source | states |
|---|---|---|
| Frames.RoundTripExactlyWhenWellFormed | runtime/patches/anytls/session/session.go:394-401 | A frame written to the wire is read back as itself if and only if its payload is below 65536 bytes and its command carries a payload or the payload is empty. |
| Frames.LongPayloadIsLost | runtime/patches/anytls/session/session.go:394-401 | A payload of exactly 65536 bytes is read back as an empty one. |
| Frames.EncodedBytes | runtime/patches/anytls/session/session.go:394-401 | Byte by byte: command, the stream id and then the length with their high bytes first, payload. |
| Frames.ParseEncoded | runtime/patches/anytls/session/session.go:186-193 | Reading the concatenation of well-formed frames gives exactly these frames and leaves no byte. |
| Frames.ParseConcat | runtime/patches/anytls/session/session.go:186-193 | Reading two stretches of bytes one after the other is reading their concatenation, whenever the first ends on a frame boundary. |
| Frames.DropWasteConcat | runtime/patches/anytls/session/session.go:260-268 | Dropping waste frames distributes over concatenation. |
| SessionWriter.Session.WriteConn | runtime/patches/anytls/session/session.go:417-491 | A successful write puts its whole plan of records on the wire, or everything into the pending buffer while buffering, and returns the length of pending bytes plus payload; a failed one leaves a beginning of the plan and loses the buffer. |
| SessionWriter.Session.WritePadded | runtime/patches/anytls/session/session.go:434-484 | The padded branch writes exactly the planned records in order; a failed write cuts the plan short within one record. |
| SessionWriter.Session.NextRecord | runtime/patches/anytls/session/session.go:444-476 | One record is all payload, the last payload with its padding, or all padding, and what remains is the rest of the plan. |
| SessionWriter.Session.WriteDataFrame | runtime/patches/anytls/session/session.go:377-392 | A data frame is submitted as one PSH frame and the payload's length returned; a failed write returns zero, loses the pending bytes and leaves a cut-short plan on the wire. |
| SessionWriter.Session.WriteControlFrame | runtime/patches/anytls/session/session.go:394-415 | A control frame that cannot be written closes the session and leaves what a failed write leaves; while buffering it cannot fail. |
| SessionWriter.Session.Run | runtime/patches/anytls/session/session.go:80-97 | The settings frame and everything after it is held back. |
| SessionWriter.Session.AnnounceStream | runtime/patches/anytls/session/session.go:158-162 | The SYN is submitted, then buffering is switched off. |
| SessionWriter.RecordsCarryPayloadThenWaste | runtime/patches/anytls/session/session.go:434-484 | Whatever the schedule of sizes and check marks, the records' bytes are the payload in order and after it only complete waste frames. |
| SessionWriter.RecordCount | runtime/patches/anytls/session/session.go:444-477 | A write makes one record for each scheduled size up to the check mark at which no payload is left, and one bare record of what outlasts the schedule. |
| SessionWriter.RecordSizes | runtime/patches/anytls/session/session.go:444-477 | Under any schedule of sizes and check marks record i has the i-th size used, except that the last payload record stays bare when no waste header fits behind it and an all-padding record is longer by one header. |
| SessionWriter.WasteIsZeros | runtime/patches/anytls/session/session.go:454-470 | Waste goes out on stream 0 and its payload is zeros. |
| SessionWriter.PaddingIsOnExactlyWhile | runtime/patches/anytls/session/session.go:430-487 | Over every run padding is on exactly as long as every unbuffered write was below the scheme's limit, and until then every unbuffered write is counted. |
| SessionWriter.WritesArePaddedExactlyWhile | runtime/patches/anytls/session/session.go:421-490 | In every run an unbuffered write sends the pending bytes and its frame at once: below the limit in records of the scheduled sizes, from the first write at the limit on as one bare record. |
| SessionWriter.BufferedWritesStay | runtime/patches/anytls/session/session.go:421-427 | While buffering, a write sends nothing and joins the pending bytes. |
| SessionWriter.PlanBytes | runtime/patches/anytls/session/session.go:421-484 | A write outside buffering adds the pending bytes, the payload, then well-formed waste frames to the wire. |
| SessionWriter.CutShortIsABeginning | runtime/patches/anytls/session/session.go:445-448 | What a failed write leaves on the wire is a beginning of the planned bytes. |
| SessionWriter.PerformKeepsFrames | runtime/patches/anytls/session/session.go:377-427 | One write keeps: frames on the wire, then frames pending, are the frames submitted, in order. |
| SessionWriter.RunKeepsFrames | runtime/patches/anytls/session/session.go:377-427 | The same over every error-free run, with buffering switched on and off at will: none lost, repeated or reordered. |
| SessionWriter.FlushDeliversEverything | runtime/patches/anytls/session/session.go:421-427 | The first write after buffering ends puts everything submitted so far on the wire. |
| SessionWriter.FailedRunKeepsABeginning | runtime/patches/anytls/session/session.go:417-491 | When the last write of a run fails, the frames on the wire are a beginning of the frames submitted, no shorter than before that write. |
| SessionReader.ReadSide.Handle | runtime/patches/anytls/session/session.go:193-359 | One frame changes the receiving half exactly as its command demands, in every branch of the switch. |
| SessionReader.ReadSide.ReadFrames | runtime/patches/anytls/session/session.go:186-361 | Whatever bytes arrive, the loop handles exactly the complete frames in them, in order, up to the first that stops it. |
| SessionReader.ReadSide.RecvLoop | runtime/patches/anytls/session/session.go:178-364 | The same, and when the loop ends the session is closed: the table is empty, every stream that was in it is retired exactly once with the bytes it had, closed, and nothing else is retired by that. |
| SessionReader.StepKeepsEveryone | runtime/patches/anytls/session/session.go:193-359 | Of the streams in the table and the retired ones together, a frame adds the one it registers and changes the one it feeds, by exactly its payload; all others stay, bytes and number. |
| SessionReader.NoStreamIsLost | runtime/patches/anytls/session/session.go:178-364 | Over every sequence of frames each stream that was ever registered is in the table or retired, and there are no others: the two together grow by one stream for each registration. |
| SessionReader.AnswersGoOut | runtime/patches/anytls/session/session.go:210-359 | For each frame and each number of control frames the connection still takes: exactly the answers called for go out, in order, and settings and version are remembered; if one cannot go out, the session is closed and its table empty. |
| SessionReader.ErrorRetiresTheStream | runtime/patches/anytls/session/session.go:237-251 | A SYNACK with a text retires an open stream with exactly the payloads before it, and one FIN for it goes out. |
| SessionReader.WasteIsInert | runtime/patches/anytls/session/session.go:260-268 | Waste frames have no effect on the receiver, wherever they stand. |
| SessionReader.StreamReceivesItsPayloads | runtime/patches/anytls/session/session.go:194-209 | An open stream that no frame ends has received exactly the concatenation of its PSH payloads. |
| SessionReader.FinRetiresTheStream | runtime/patches/anytls/session/session.go:252-259 | A FIN retires a stream with exactly the payloads that came before it. |
| SessionReader.LoopRunsExactlyWhen | runtime/patches/anytls/session/session.go:210-216 | From any state, also a server's that has had no settings, and on a connection that takes the answers, the loop runs to the last frame if and only if no frame is an alert with a text or a SYN to a server before settings. |
| SessionReader.PaddingIsInvisible | runtime/patches/anytls/session/session.go:417-491 | Sender and receiver compose over every error-free run: the padded wire bytes leave the receiver in the state that the frames which have left the sender alone would. |
| SessionReader.FailureOnlyCuts | runtime/patches/anytls/session/session.go:417-491 | After a run whose last write fails the receiver is as after some beginning of the frames submitted. |
| SessionReader.SynThenPayloads | runtime/patches/anytls/session/session.go:217-229 | A stream that a SYN registers receives exactly the payloads after that SYN. |
| SessionReader.DeliveredEndToEnd | runtime/patches/anytls/session/session.go:158-209 | Over every error-free run of a new session a stream announced in it receives at the other end exactly the payloads submitted for it that have left the sender. |
| SessionReader.RetiredEndToEnd | runtime/patches/anytls/session/session.go:217-259 | One that also ends in it is retired at the other end with exactly the payloads between its SYN and its FIN. |
| SessionReader.ReceiveAndClose | runtime/patches/anytls/session/session.go:110-209 | When the input of such a run ends, the receive loop of the other end leaves the table empty and has retired that stream, closed, with exactly the payloads that have left the sender. |
| SessionReader.FirstStreamArrives | runtime/patches/anytls/session/session.go:80-173 | From the start of both ends: settings, first SYN, then data leave a fresh server with that stream open and holding exactly the data. |
| SessionReader.Deliver | runtime/patches/anytls/session/session.go:80-173 | The same for the imperative session: what Run, AnnounceStream and data writes without error put on the wire, a fresh server's loop turns into that stream. |
| SessionClose.NoStreamSurvivesClose | runtime/patches/anytls/session/session.go:110-173 | In every interleaving, once Close's sweep is done only streams whose SYN came later are in the table, and every other stream that was alone under its id is closed or in the hands of the FIN that took it out. |
| SessionClose.HookRunsAtMostOnce | runtime/patches/anytls/session/stream.go:72-103 | Over every mix of local close, FIN, error close and session close a die hook runs at most once, and once the guard's winner is through exactly once. |
| SessionClose.NothingIsLeftOpen | runtime/patches/anytls/session/session.go:110-131 | When every goroutine has finished after a session close, each such stream is closed and its die hook has run exactly once. |
| SessionClose.SweepHasClaimedEveryEntry | runtime/patches/anytls/session/session.go:121-126 | When the sweep empties the table every stream in it has had its guard won. |
| SessionClose.StaysOpen | runtime/patches/anytls/session/session.go:110-156 | Nothing but its own close, its FIN or a session close closes a stream, in any interleaving. |
| SessionClose.EntriesStay | runtime/patches/anytls/session/session.go:217-259 | A stream is found under its id until its FIN comes, a stream of that id is removed or openStream registers one, or the sweep is done; a SYN of the peer never displaces it. |
| SessionClose.LateEntryStays | runtime/patches/anytls/session/session.go:144-156 | After a session close a late stream stays in the table through every close of a stream, also its own; a FIN alone takes it out. |
| SessionClose.CollidingSynLeavesAStreamOpen | runtime/patches/anytls/session/session.go:217-229 | For every id k a run in which a peer's stream under k and session close leave openStream's k-th stream open. |
| SessionClose.SafeExactlyWhen | runtime/patches/anytls/session/session.go:110-173 | Whatever ids a peer may get streams registered under, openStream's k-th stream is safe from surviving a session close if and only if k is none of them. |
| SessionClose.LateSynLeavesAStreamOpen | runtime/patches/anytls/session/session.go:210-229 | A SYN handled after the sweep registers a stream that session close never reaches. |
| SessionClose.ReusedIdLeavesAStreamOpen | runtime/patches/anytls/session/session.go:217-259 | The close of a stream whose FIN came first takes the peer's next stream under the same id out of the table, and session close misses that one. |
| SessionClose.PeerSafeExactlyWhen | runtime/patches/anytls/session/session.go:110-259 | The peer's streams are safe from surviving a session close if and only if no SYN comes late and no id is used for two streams. |
| ClientPool.OneUserPerSession | runtime/patches/anytls/session/client.go:74-150 | In every reachable state a pooled session is idle, held by one goroutine or used by one live stream, never two of these. |
| ClientPool.IdleKeysAreDistinct | runtime/patches/anytls/session/client.go:100-103 | Idle sessions have distinct keys, each its session's own. |
| ClientPool.NumbersAreNeverReused | runtime/patches/anytls/session/client.go:132-133 | A new session's number was never given before. |
| ClientPool.TakesTheNewest | runtime/patches/anytls/session/client.go:115-124 | The idle session taken is the newest one. |
| ClientPool.UseReturnsTheSession | runtime/patches/anytls/session/client.go:74-124 | From every reachable state an open client's newest idle session, when open, can be taken for a stream, and when that ends the session is idle again and the pool as before. |
| ClientPool.IdleIsOpenExactlyWhen | runtime/patches/anytls/session/client.go:90-103 | In every reachable state an idle session is open if and only if nobody is closing it and it was not put back after its die hook had run. |
| ClientPool.ReuseCanSucceedExactlyWhen | runtime/patches/anytls/session/client.go:81-112 | CreateStream can succeed with the idle session it takes under exactly that condition. |
| ClientPool.ClosedSessionCanStayIdle | runtime/patches/anytls/session/client.go:90-103 | A run that leaves a closed session in the idle list with no goroutine about to take it out. |
| ClientPool.DeadClientPoolsNothing | runtime/patches/anytls/session/client.go:92-97 | Once the client is closed, a hook that comes to its checks pools nothing and goes on to close the session, unless that is closed. |
| ClientPool.OpenSessionsAreLate | runtime/patches/anytls/session/client.go:152-168 | In every interleaving, when Close of the client is done, a session that is still open was made after its collection and is in the client's table. |
| ClientPool.LateSessionOutlives | runtime/patches/anytls/session/client.go:76-90 | A run in which a CreateStream let in before the close dials after it and leaves an open session behind. |
| ClientPool.ClientCloseIsCompleteExactlyWhen | runtime/patches/anytls/session/client.go:152-168 | Close of the client closes every session, in all runs that make at most a given number of sessions after its collection, if and only if that number is zero. |
| ClientPool.RunKeepsInv | runtime/patches/anytls/session/client.go:74-204 | Creation, stream close, session close, client close and cleanup keep the right to a session single. |
| IdleCleanup.Pool.IdleCleanupExpTime | runtime/patches/anytls/session/client.go:174-204 | The cleanup loop leaves and closes exactly what the cleaned list says, in order. |
| IdleCleanup.KeepsTheMinimum | runtime/patches/anytls/session/client.go:185-197 | At least the smaller of the configured minimum and the list's length is kept. |
| IdleCleanup.Pool.Insert | runtime/patches/anytls/session/client.go:100-102 | An insertion keeps the list ordered by falling session number and puts the session in the place of one with the same number. |
| IdleCleanup.ClosedExactlyWhen | runtime/patches/anytls/session/client.go:180-197 | In the list's order a session is closed if and only if it is expired and at least the configured minimum of idle sessions are newer; otherwise it is kept, renewed if expired. |
| IdleCleanup.StaysFalling | runtime/patches/anytls/session/client.go:180-197 | Cleanup keeps the list's order. |
| IdleCleanup.CleanupIsAStep | runtime/patches/anytls/session/client.go:174-204 | Cleaning the list is one of the cleanup steps of the pool's interleavings and leaves its idle sessions listed. |
| IdleCleanup.KeptAreFresh | runtime/patches/anytls/session/client.go:185-194 | Every kept session is idle since no earlier than the expiry time. |
| IdleCleanup.NoSessionIsLost | runtime/patches/anytls/session/client.go:180-198 | Kept and closed sessions together are the sessions there were, none twice. |
| Traffic.MergeUserTraffic | runtime/node/reload.go:97-113 | The merged list has one entry for each UID mentioned, with the exact sums of both batches. |
| Traffic.SumOfOnePerUid | runtime/node/reload.go:97-113 | In a list with one entry per UID that entry is the UID's sum. |
| Reload.PanelClient.ReportUserTraffic | runtime/api/panel/user.go:126-141 | A push that succeeds credits the per-UID map built from the list; one that fails credits nothing. |
| Reload.BodyOverwritesNothing | runtime/api/panel/user.go:127-130 | The per-UID map loses no entry if and only if no UID occurs twice. |
| Reload.BodyCreditsSums | runtime/api/panel/user.go:127-130 | From a merged list the map credits each UID its exact sum. |
| Reload.Controller.FlushUserTraffic | runtime/node/reload.go:80-95 | The core is asked once; what it hands over is merged into what is pending; a nonempty result is offered to the panel once, and it is cleared if and only if the panel's answer is yes. Nothing is offered otherwise. |
| Reload.FlushKeepsBalance | runtime/node/reload.go:80-95 | A flush keeps: per UID, credited plus pending is what was taken from the core. |
| Reload.TrafficIsConserved | runtime/node/reload.go:80-95 | The same over every run of flushes with pushes that succeed or fail. |
| Reload.Controller.ReplaceVLESSNode | runtime/node/reload.go:12-78 | All or nothing for every pattern of failing steps: success puts core, controller and registry on the candidate; failure leaves controller and registry as before, the core untouched before the deletion and put back when recovery works. The log of the core's calls and answers explains each outcome: no step is skipped, repeated or out of order. |
| Reload.Controller.Preflight | runtime/node/reload.go:13-23 | It refuses for a missing validator, a node the core rejects or a rule that does not compile, and for nothing else; the core sees one validation at most. |
| Reload.Controller.Prepare | runtime/node/reload.go:13-36 | Checks, flush and snapshot come in this order, each only after the one before succeeded, and change neither nodes nor state of the core. |
| Reload.Controller.TakeOver | runtime/node/reload.go:53-77 | Installation, limiter, rules, then the controller's own fields; a failed installation is rolled back. |
| Reload.Controller.SwitchTo | runtime/node/reload.go:37-77 | The part that changes the core, with both recoveries. |
| Reload.Controller.Recover | runtime/node/reload.go:48-52 | Recovery reinstalls the old node and users and the snapshotted state, and says whether it worked. |
| Reload.Limiter.UpdateRule | runtime/limiter/rule.go:31-43 | Expressions and protocols are replaced together, if every expression compiles, and otherwise neither is. |
| XrayTraffic.Xray.GetUserTrafficSlice | runtime/core/xray/user.go:64-101 | For either value of reset, the report holds per UID the node's retired records and its counters above the minimum. A resetting read leaves these at zero and no retired record of the node; counters up to the minimum, other nodes and the table stay. |
| XrayTraffic.Xray.DelUsers | runtime/core/xray/user.go:33-62 | The listed names leave the table with their counters, each with counted bytes leaves one retired record under its UID, in order, and nothing else changes; an error stops after the users done. |
| XrayTraffic.Xray.AddUsers | runtime/core/xray/user.go:103-151 | Only if all users could be installed, every listed name gets the UID last listed for it; other names, counters and records stay. |
| XrayTraffic.Xray.RetireNodeUsers | runtime/core/xray/user.go:153-170 | All names with the node's prefix leave the table, each with counted bytes leaves one retired record, and the node's counters and minimum go; nothing else does. |
| XrayTraffic.Xray.AddTraffic | runtime/core/xray/app/dispatcher/default.go:210-222 | A connection adds its bytes to the user's counter at its node, which is made on first use, and touches no other. |
| XrayTraffic.ReadTrafficHolds | runtime/core/xray/user.go:64-101 | A resetting read moves exactly what it reports out of the core, per UID and direction. |
| XrayTraffic.ReadTrafficReadsOut | runtime/core/xray/user.go:64-101 | What a read reports and leaves, as the row on GetUserTrafficSlice says, for counters visited in any order. |
| XrayTraffic.ReadingEmptiesTheNode | runtime/core/xray/user.go:64-101 | Progress: with minimum zero a resetting read leaves no retired record and no counted byte of the node. |
| XrayTraffic.RemovedUsersGo | runtime/core/xray/user.go:33-62 | What deleting a list of users takes out and what stays, for every list, with repetitions. |
| XrayTraffic.RetiredNodeGoes | runtime/core/xray/user.go:153-170 | The same for the retirement of a node. |
| XrayTraffic.AddedUsersAreThere | runtime/core/xray/user.go:144-149 | The last listed UID of every name is in the table; no byte moves. |
| XrayTraffic.AdditionConservesExactlyWhen | runtime/core/xray/user.go:144-149 | Adding a user leaves every UID's sum if and only if the name keeps its UID or has no bytes counted. |
| XrayTraffic.AdditionsConserveExactlyWhen | runtime/core/xray/user.go:144-149 | Adding a list of users does if and only if for every UID the names that get it have as many bytes counted as those that give it up. |
| XrayTraffic.RemovalConservesExactlyWhen | runtime/core/xray/user.go:48-58 | Deleting a user does if and only if no other node has bytes under the name. |
| XrayTraffic.RemovalsConserveExactlyWhen | runtime/core/xray/user.go:33-62 | Deleting a list of users does if and only if each deletion finds no bytes at another node: losses never make up for each other. |
| XrayTraffic.RetirementConservesExactlyWhen | runtime/core/xray/user.go:153-170 | Retiring a node does if and only if no other node has bytes under a name with its prefix. |
| XrayTraffic.ConservesExactlyWhen | runtime/core/xray/user.go:33-170 | Every event, whatever the length of its list, conserves the bytes of every nonzero UID if and only if it meets these conditions. |
| XrayTraffic.BytesAreConserved | runtime/core/xray/user.go:33-170 | Over every run of such events, with any tags, per nonzero UID, bytes moved are bytes reported, retired or live. |
| XrayTraffic.PlainTagsConserve | runtime/core/xray/user.go:33-170 | With tags free of the separator it is enough that no known user gets another UID while its bytes are counted. |
| XrayTraffic.SeparatorInTagLosesBytes | runtime/common/format/user.go:7-9 | A run with a separator in a tag that loses bytes. |
| XrayTraffic.NewUidTakesBytesAlong | runtime/core/xray/user.go:144-149 | A run in which re-adding a user under another UID moves unreported bytes to it. |
| TrafficPath.NoByteVanishes | runtime/node/reload.go:80-95 | Over every run of one core and any number of controllers, in which each flush takes what a resetting read returns and pushes fail at will: every byte a user moved is live, retired, pending or credited to its UID. |
| ConfigMigration.CollectBlocks | runtime/core/sing/config_compat.go:23-40 | The loop separates block outbounds from the others, or fails at the first that does not fit. |
| ConfigMigration.Rewrite | runtime/core/sing/config_compat.go:47-69 | The recursive closure rewrites a rule tree as specified, nested rules first. |
| ConfigMigration.CheckGroups | runtime/core/sing/config_compat.go:75-85 | A kept outbound group names a removed tag if and only if the check says so. |
| ConfigMigration.RewriteServers | runtime/core/sing/config_compat.go:89-114 | The loop migrates the DNS servers as specified. |
| ConfigMigration.NormalizeLegacyConfig | runtime/core/sing/config_compat.go:14-118 | The whole migration of a decoded configuration; where it succeeds, all but rules, servers and block outbounds is as before, inside the three parts and outside. |
| ConfigMigration.RulesKeep | runtime/core/sing/config_compat.go:47-69 | For every way of matching packets the rewritten rule tree decides as the old one, with the same conditions, order and number at every depth. |
| ConfigMigration.MeaningIsKeptExactlyWhen | runtime/core/sing/config_compat.go:41-86 | First-match routing decides the same before and after, for every way of matching packets, if and only if the implicit default is not a removed block outbound. |
| ConfigMigration.BlockedDefaultOpens | runtime/core/sing/config_compat.go:41-86 | An accepted configuration whose packets are all dropped before the migration and all sent to an outbound after it. |
| ConfigMigration.NothingLegacyIsLeft | runtime/core/sing/config_compat.go:41-117 | No block outbound, no rule at any depth and no group naming a removed tag, no legacy DNS address is left; everything else stays. |
| ConfigMigration.EverythingElseStays | runtime/core/sing/config_compat.go:41-117 | The route keeps every field but its rules, the DNS part every field but its servers, the outbounds that stay their order and number; no part appears or disappears. |
| ConfigMigration.RulesKeepFields | runtime/core/sing/config_compat.go:47-69 | At every depth a rule that names a removed tag loses that target and rejects, and no other field of any rule changes. |
| ConfigMigration.ServersKeepTheirResolver | runtime/core/sing/config_compat.go:103-113 | Every DNS server keeps its place, its tag and the resolver it stands for. |
| ConfigMigration.MigratingAgainChangesNothing | runtime/core/sing/config_compat.go:14-118 | Migrating the result again gives the same result. |
| ConfigMigration.AcceptedExactlyWhen | runtime/core/sing/config_compat.go:26-112 | A configuration is accepted if and only if each of its parts can be expressed in the new form. |
| ConfigMigration.ErrorNamesItsCause | runtime/core/sing/config_compat.go:23-112 | Each of the eight errors is about something that is in the configuration. |
| SingUsers.Sing.SortedUsers | runtime/core/sing/user.go:57-68 | Each user once, in ascending order of names. |
| SingUsers.Sing.AddUsers | runtime/core/sing/user.go:24-55 | If the inbound takes the whole table, every listed user is served: managed with the record last listed for it, permitted, with that record's UID and in the table; so is every user there was, and nothing else changes. Otherwise nothing is committed. |
| SingUsers.Sing.DelUsers | runtime/core/sing/user.go:221-251 | If the inbound takes the smaller table, no view knows a listed user any more and every other user of this and other nodes is as before. Otherwise nothing changes. |
| SingUsers.Sing.DelNode | runtime/core/sing/node.go:438-461 | A node's users leave the three views of the core, and the inbound's with the inbound; other nodes stay, but for UIDs under the node's prefix. |
| SingUsers.KeysDifferExactlyWhenApart | runtime/core/sing/connections.go:11 | The users of two nodes never share a key if and only if neither tag with the separator starts the other. |
| SingUsers.FailedAdditionRestores | runtime/core/sing/user.go:36-46 | A failed addition leaves every view as it was. |
| SingUsers.AdditionPutsIn | runtime/core/sing/user.go:24-55 | The effect of a successful addition on all four views, for every list, with repetitions. |
| SingUsers.DeletionTakesOut | runtime/core/sing/user.go:221-251 | The effect of a successful deletion on all four views, for every list. |
| SingUsers.NodeDeletionTakesOut | runtime/core/sing/node.go:438-461 | The effect of a node's deletion on all four views. |
| SingUsers.StepKeepsAgreement | runtime/core/sing/user.go:24-251 | For nodes whose tags are apart, a change keeps the four views of every node in agreement, UIDs included, if and only if it fits: a type that takes tables, a fresh inbound without users, a node deleted with its inbound. |
| SingUsers.RunKeepsAgreement | runtime/core/sing/user.go:24-251 | Over every run of such changes, with tables refused at will, the four views agree for every node, for nodes whose tags are apart. |
| SingUsers.OnlyListedUsersMayConnect | runtime/core/sing/connections.go:13-19 | A user may connect to a node if and only if the node's inbound knows it. |
| SingUsers.PrefixLosesUid | runtime/core/sing/node.go:449-453 | A run from the empty core in which a node's deletion takes the UID of another node's managed user. |
| SingUsers.UidsAreSparedExactlyWhenApart | runtime/core/sing/node.go:449-453 | Over every run, deleting a node leaves another's UIDs if and only if neither tag with the separator starts the other. |
| SingRevocation.NoTrackedConnectionSurvives | runtime/core/sing/hook.go:83-89 | In every interleaving, once a revocation and a setup are both through and the user was not added again, the user's tracked connection is closed or past its removal in a Close call, and a TCP one refuses I/O. |
| SingRevocation.NothingIsLeftOpen | runtime/core/sing/connections.go:21-30 | With no Close call of it under way, a revoked user's tracked connection is closed. |
| SingRevocation.OpenExactlyWhenBypassed | runtime/core/sing/hook.go:34-91 | Of all connections of the revoked user, tracked or not, exactly those are open whose setup looked for the node's limiter in vain. |
| SingRevocation.CloseReturnsClosed | runtime/core/sing/connections.go:60-82 | When a Close call returns, also one that came second, the connection below is closed. |
| SingRevocation.TrackedConnectionsAreListed | runtime/core/sing/hook.go:85 | A tracked connection is in reach of every scan until some Close takes it out, and no longer. |
| SingRevocation.InactiveUserIsRefused | runtime/core/sing/hook.go:35-38 | A connection whose user may not connect when its setup asks is closed and never tracked, in every continuation. |
| SingRevocation.OthersStayOpen | runtime/core/sing/hook.go:34-91 | A connection of a user that is not revoked stays open through every interleaving that neither refuses it for its limits nor closes it from outside. |
| SingRevocation.UnwrappedConnectionSurvives | runtime/core/sing/hook.go:39-43 | A run in which a connection without limiter is handed back unwrapped and survives a revocation. |
| LinkManager.ClosedManagersKeepNoLink | runtime/core/xray/app/dispatcher/linkmanager.go:32-62 | In every interleaving a closed manager's table is empty and every link ever added to it, however late, is closed, removed by its own Close, or being closed. |
| LinkManager.ClosedForGood | runtime/core/xray/app/dispatcher/linkmanager.go:51-62 | A closed manager stays closed and empty in every continuation. |
| LinkManager.OnlyStraysSurviveRevocation | runtime/core/xray/user.go:48-53 | Once a revocation and a setup are both through and the user was not admitted again, the link is accounted for, unless an admission lost it. |
| LinkManager.NoLinkSurvivesRevocation | runtime/core/xray/user.go:48-53 | So it is over every run in which no admission completes while a link is lost: in an open manager that a revocation will not find. |
| LinkManager.LostLinkCanSurviveRevocation | runtime/core/xray/user.go:145-149 | Conversely, whenever an admission is about to complete while a link is lost, the run can go on through a revocation and the setup's end with the link still open. |
| LinkManager.AdmissionCanLoseALink | runtime/core/xray/user.go:148 | A run in which an admission drops a manager with a link in it. |
| LinkManager.OthersStayOpen | runtime/core/xray/app/dispatcher/linkmanager.go:32-62 | While nobody is revoking the user, a link stays in the table of an open manager until its own Close. |
| LinkManager.NoClosedManagerStays | runtime/core/xray/user.go:48-53 | In every interleaving the dispatcher's map leads to a closed manager only while the goroutine that closed it has yet to take it out. |
| LinkManager.OnlyItsOwnCloseTakesALinkOut | runtime/core/xray/app/dispatcher/linkmanager.go:21-49 | In every interleaving a link whose own Close has taken it out is in no table, and no link leaves a table unclosed in another way. |
| DeviceLimiter.Limiter.CheckLimit | runtime/limiter/limiter.go:132-206 | What a check does in every branch: who is refused, the record after an expired limit, the address left online under the user's UID, the recent entry used up, and the bucket handed out; nothing else changes. |
| DeviceLimiter.Limiter.CheckDevice | runtime/limiter/limiter.go:159-192 | Storing the address first and taking it back is deciding first: an admission leaves the address online under the user's UID, a refusal leaves the tables. |
| DeviceLimiter.Limiter.GetOnlineDevice | runtime/limiter/limiter.go:208-226 | The report names every recorded pair of user and address exactly once, empties the online table, and leaves each address with the UID last reported for it. |
| DeviceLimiter.Limiter.UpdateUser | runtime/limiter/limiter.go:96-119 | Deleted users leave all tables; then every added user has the limits and UID the panel last listed for it and no dynamic limit; nobody else changes. |
| DeviceLimiter.Limiter.UpdateDynamicSpeedLimit | runtime/limiter/limiter.go:121-130 | A known user gets the dynamic limit and its end, an unknown one is an error; nothing else changes. |
| DeviceLimiter.DetermineSpeedLimit | runtime/limiter/dynamic.go:20-38 | The lower of two limits where zero means none. |
| DeviceLimiter.CheckDoes | runtime/limiter/limiter.go:132-206 | The effect of a check, as the row on CheckLimit says. |
| DeviceLimiter.RateIsLowestLimit | runtime/limiter/limiter.go:139-205 | The rate called for is an eighth of a million bytes a second for each unit of the lowest limit that is set: the node's, the user's own and a dynamic one that is not over. |
| DeviceLimiter.MappedAddressesAreTheSame | runtime/limiter/limiter.go:134 | An address and its IPv4-mapped form are checked alike. |
| DeviceLimiter.AdditionDoes | runtime/limiter/limiter.go:104-118 | The effect of adding users, for every list, with repetitions. |
| DeviceLimiter.DeletionDoes | runtime/limiter/limiter.go:97-103 | The effect of deleting users, for every list. |
| DeviceLimiter.ReportMovesOn | runtime/limiter/limiter.go:208-226 | After a report nobody is online and each reported address is recent under the UID reported last for it. |
| DeviceLimiter.OnlineUnderTheUsersUid | runtime/limiter/limiter.go:160-190 | Over every run an address comes online under the UID its user had when a check admitted it from there. |
| DeviceLimiter.ReportCarriesTheUid | runtime/limiter/limiter.go:208-226 | So in a window without updates every entry of the report carries its user's UID. |
| DeviceLimiter.RefusedExactlyWhen | runtime/limiter/limiter.go:132-192 | A connection is refused if and only if its user is unknown, or the device limit is reached and the address is neither online for the user nor in the recent table. |
| DeviceLimiter.CheckTouchesOneAddress | runtime/limiter/limiter.go:159-192 | A refusal leaves the tables; an admission adds at most the address and takes at most it from the recent table. |
| DeviceLimiter.OnlySeenAddressesEnterAtTheLimit | runtime/limiter/limiter.go:165-191 | Over every run, at the limit an address is admitted only if it is online for the user or the last report named it. |
| DeviceLimiter.RecentExactlyUntilTakenBack | runtime/limiter/limiter.go:168-183 | Between two reports an address stays in the recent table, under the UID last reported, exactly until its owner comes back with it. |
| DeviceLimiter.EntersOnAnothersReportExactlyWhen | runtime/limiter/limiter.go:168-191 | At the limit a new address is admitted on another user's report if and only if that user was the last one reported for it and has not come back with it since. |
| DeviceLimiter.WindowIsBounded | runtime/limiter/limiter.go:165-191 | Between two reports a user held at its limit gains no address the window did not begin with, whatever checks, updates, speed limits and alive counts happen. |
| DeviceLimiter.ChecksHoldTheLimit | runtime/limiter/limiter.go:132-191 | Checks and speed limits alone keep a user at its limit, so this holds over every run of them. |
| DeviceLimiter.ReportedAddressesReturn | runtime/limiter/limiter.go:180-183 | After a report every address in it is admitted, whatever the limit. |
| DeviceLimiter.ForgottenExactlyWhen | runtime/limiter/limiter.go:145-158 | A known user who is neither deleted nor added is forgotten in a run if and only if one of its checks finds an expired dynamic limit and no limit of its own. |
| DeviceLimiter.ExpiryLocksOut | runtime/limiter/limiter.go:145-158 | A user that is not known is refused in every run until it is added. |
| DeviceLimiter.ExpiryForgetsAUser | runtime/limiter/limiter.go:121-158 | A run in which a temporary limit ends and its user is refused. |
| DeviceLimiter.ExpiredRecordIsDropped | runtime/limiter/limiter.go:145-152 | An expired dynamic limit drops the record if and only if the user has no limit of its own. |
| DeviceLimiter.BucketsKeepTheirRate | runtime/limiter/limiter.go:197-202 | A bucket keeps its first rate until its user is deleted, whatever else happens. |
| DeviceLimiter.BucketIsCurrentExactlyWhen | runtime/limiter/limiter.go:195-202 | After every run that does not delete the user, an admitting check hands out a bucket of the rate now called for if and only if the first bucket has that rate. |
| DeviceLimiter.LowerLimitIsIgnored | runtime/limiter/limiter.go:121-202 | A run in which a lower limit is set after the first connection and the next check still hands out the old rate. |
| Json5.ConsumeComment | runtime/common/json5/json5.go:21-47 | The in-place comment eraser does what the specification on byte sequences says. |
| Json5.Prep | runtime/common/json5/json5.go:49-93 | So does the whole stripper, and it terminates. |
| Json5.StripOnlyBlanks | runtime/common/json5/json5.go:49-93 | Whatever the text, the length is kept and nothing but spaces is written. |
| Json5.StripRemovesTrailingCommas | runtime/common/json5/json5.go:57-91 | On a text without comments exactly the commas outside strings whose next byte that is no white space is a closing bracket or brace are blanked. |
| Json5.LineCommentIsErased | runtime/common/json5/json5.go:22-27 | A line comment is erased up to the end of its line. |
| Json5.LineEndsAt | runtime/common/json5/json5.go:13-24 | A line comment ends with a line feed or a carriage return, and with no other byte. |
| Json5.LoneSlashStays | runtime/common/json5/json5.go:21-47 | A slash that begins no comment is left alone. |
| Json5.OneByteBetween | runtime/common/json5/json5.go:13-87 | Tab, line feed, carriage return and space may stand between a comma and its closer, and both brackets close; no other byte does either. |
| Json5.BlockCommentIsErasedExactlyWhen | runtime/common/json5/json5.go:28-45 | A block comment is erased up to its first star and slash, and nothing else is, if and only if every star inside has a space behind it. |
| Json5.TwoStarsDoNotEnd | runtime/common/json5/json5.go:34-43 | A comment that ends in two stars and a slash does not end there, and its second star is left standing. |
| Json5Text.StripRemovesCommentsAndTrailingCommas | runtime/common/json5/json5.go:95-97 | On every text made of plain bytes, strings and comments (in block comments every star has a space behind it), stripping blanks exactly the comments and then the trailing commas. |

## Left out

- The numbers of the AnyTLS commands: frame.go is not part of this model; the numbering is this model's
  own, and no result depends on it beyond the commands being distinct.
- Sockets, TLS, QUIC, HTTP, deadlines and timers: a write or read succeeds or fails at will, time is an
  integer, and the SYN deadline watcher's close is one more session close.
- SessionWriter.Session.WriteConn: does not model the sharing of the connection between goroutines; the connection lock
  makes each write one step, so a run is a list of writes.
- SessionWriter.RunKeepsFrames: requires payloads below 65536 bytes and scheduled sizes that fit the
  length field, as the frame layout does; a run ends with its first failed write (FailedRunKeepsABeginning),
  and what writes after that one add to the wire is not modelled; the buffering flag is read under the
  connection lock but written outside it, which the model treats as one more step of the run.
- SessionReader.ReadSide.RecvLoop: models a stream's pipe as the bytes written to it; a reader that
  stops reading, and so blocks the loop, is not modelled.
- SessionReader.ReadSide.Handle: does not model the goroutine in which a client closes a stream that a SYN
  made, because that close is a step of its own; it is among the interleavings of SessionClose.
- Wrap-around of stream ids, packet counters (beyond the padding comparison), session numbers and byte
  counters: unbounded integers.
- The skip list of idle sessions is a map ordered by key, or a list in iteration order.
- Padding-scheme parsing: a scheme is an arbitrary list of sizes and check marks with an arbitrary stop.
- Reload.Controller.ReplaceVLESSNode: the reload of nodes of other types, certificates and the periodic tasks' own
  loops are not modelled; intervals are plain fields.
- JSON documents are values: ConfigMigration rebuilds maps instead of editing shared ones in place, so
  aliasing inside a decoded document is not modelled. Numbers are exact.
- ConfigMigration.NormalizeLegacyConfig: starts from decoded JSON; decoding and encoding are not
  modelled, and the address parser is an arbitrary predicate.
- The field copies of setUsers for each node type: the inbound takes the whole table or refuses it.
- SingUsers.RunKeepsAgreement: requires that a node's inbound goes when the node is deleted, that a fresh
  inbound replaces none with users, and node types that take a table; StepKeepsAgreement shows that each
  of these is needed, UidsAreSparedExactlyWhenApart that the tags must be apart.
- Traffic counting of the sing core (its DelUsers deletes a user's counter unread) and of the hysteria2 core.
- In XrayTraffic a read takes a counter's two values together and no byte is added between the reading
  and the deletion of a counter; connections that still hold a deleted counter are not modelled.
- SingRevocation.NoTrackedConnectionSurvives: nodes are managed ones; connections of unmanaged inbounds
  are always allowed and never revoked. The limiter's verdict is an arbitrary refusal. A connection that was
  handed back untracked counts as open; its own end is not modelled.
- LinkManager.NoLinkSurvivesRevocation: requires that no admission completes while a link is lost;
  LostLinkCanSurviveRevocation shows that this is needed. The close of a link's connection, the removal and
  the pipes are three steps; what the pipes carry is not modelled.
- DeviceLimiter.Limiter.CheckLimit: one step; concurrent checks of one user, and AddDynamicSpeedLimit, which nothing
  calls, are not modelled. Token buckets are their rates.
- Json5Text.StripRemovesCommentsAndTrailingCommas: for texts whose strings end, whose block comments end and
  have a space behind every star inside, and without single slashes; BlockCommentIsErasedExactlyWhen,
  TwoStarsDoNotEnd and StripOnlyBlanks say what holds beyond that. The reader that hands out the stripped
  bytes is not modelled.
- Cryptography, the legacy shadowaead user update (it replaces its table before validating), core
  configuration builders, command line, menus, scripts and logging.
