# Verified models of the sandbox runtime's stateful cores

This project models, in Dafny, the parts of the sandbox runtime whose correctness
is hard to see from one function at a time, and proves what they are for:

- the **9P reconnect proxy** (`internal/nineproxy`): it follows a 9P2000.L stream,
  and after a VM resume rebuilds the session on a fresh server under the same fid
  numbers and re-sends what the old connection swallowed;
- the **write-back oplog** (`internal/fusefs/oplog.go`): debounced Puts, a FIFO,
  per-path dirty counts, rename redirect, dead letters, shutdown drain;
- the **egress policy** (`internal/proxy/proxy.go`): two wildcard matchers, segment
  globs, first-match rules with a connection-level pre-check, and the
  hold-and-re-evaluate wait protocol;
- the **event broker** (`internal/events/broker.go`) and the **upstream connection
  pool** (`internal/proxy/upstream_pool.go`);
- the **ACL compiler** (`internal/fusefs/acl.go`).

`dafny verify dfyconfig.toml` checks everything.

## How the model is laid out

Code that updates state in place is a class with the same fields and one method per
operation (or per critical section). Each method is proved equal to a function on a
plain value of that state; the properties over whole runs are proved about step
systems built from those same functions, one step per critical section, blocking
call or message, in any interleaving. Small functions that methods and properties
share, such as what a rule covers or when a connection is too old, have a law of their
own in literal terms: characters, type numbers, fields, the time of the last write.

| file | module | what it holds |
|---|---|---|
| `Common.dfy` | `Common` | Option, machine integers, sorting the keys of a map |
| `NineWire.dfy` | `NineWire` | fields, cursor, frames, the stream reader |
| `NineSession.dfy` | `NineSession` | the tracker |
| `NineServer.dfy` | `NineServer` | a reference 9P server: a tree and a fid table |
| `NineReplay.dfy` | `NineReplay` | replaying a session, re-sending requests |
| `NineWorld.dfy` | `NineWorld` | runs with losses and reconnects, next to a server that never dies |
| `NineSample.dfy` | `NineSample` | a legal run that loses its connection |
| `NineProxy.dfy` | `NineProxy` | the pumps, generations, Reconnect, Close |
| `NineEndToEnd.dfy` | `NineEndToEnd` | the pumps with a server that executes off their wires |
| `Oplog.dfy`, `OplogTrace.dfy` | same names | counts and timing; what the store sees of a path |
| `OplogOrder.dfy`, `OplogRace.dfy` | same names | order with whole operations as steps; order with every critical section a step |
| `OplogSync.dfy`, `OplogEvict.dfy` | same names | convergence of the store; the same with upload and eviction apart |
| `Glob.dfy`, `PathGlob.dfy` | same names | the wildcard matchers; path patterns by segments |
| `Egress.dfy`, `PolicyWait.dfy` | same names | rules; waiting for a policy change |
| `Broker.dfy`, `Pool.dfy` | same names | event fan-out; connection ownership |
| `StableSort.dfy`, `Acl.dfy` | same names | the in-place sort; longest prefix wins |

## What the 9P results assume

These are the conditions of `NineServer.Legal` and of `Enabled` in `NineWorld`,
`NineProxy` and `NineEndToEnd`. `NineSample.LossyRunIsLegal` shows that they leave
runs that lose a connection with a request in flight.

- one attach; versions are negotiated before any fid exists; the root fid is never
  clunked, removed, created into or walked onto;
- a tag is not reused while it, or a Tflush naming it, is unanswered (flush(5) in
  section 5 of the Plan 9 Programmer's Manual), and a flushed request that was not
  executed before its Tflush never is;
- kernel fids are below the proxy's temporary range (0xFFFF0000), and walked paths
  are at most 16 * 65536 names long, which is what 65536 temporary fids can carry;
- no path is removed from under another live fid; there is no rename, no xattr walk
  and no ".." name, which the tracker does not follow;
- replies arrive in execution order, and a connection is only replaced once every
  reply to an executed request has been observed. `NineWorld.UnobservedMkdirFails`
  shows that the last condition is needed;
- reading a reply, observing it and forwarding it is one step.

The server may refuse any request for reasons outside the model.

## What the other results assume

- `Pool`: a connection is put back at most once per checkout, and only by whoever
  dialled it or got it. Which connections are alive is a parameter.
- `OplogSync`: a FUSE call with its enqueue, a timer and a flush are one step each;
  `OplogEvict` takes the flush apart, `OplogRace` everything.
- `Oplog.Log.IsDirty` is stated for states of all goroutines whose counts are
  conserved, which `Oplog.DirtyCountsConserved` shows to be all reachable ones.

## Where the code does less than its documentation says

Each of these is proved, with the exact condition under which the promise holds.

- **Starting disconnected.** `NewProxy` says `host` may be nil and `Reconnect` called
  afterwards. `Reconnect` always fails before the first attach, so in every run such a
  proxy never gets a host and never delivers a request
  (`NineProxy.StartedDownNeverAttaches`).
- **Replay is exact if and only if the root fid is still live**; a clunked root fid
  comes back (`NineReplay.RebuiltExactIffRootLive`).
- **A root fid numbered 0xFFFF0000** is moved by the first walk of a path of more than
  16 names, although temporary fids are meant never to collide with a real one. The
  replay still succeeds, with the root fid away from the root; a walk and a replay are
  exact if and only if that does not happen (`NineReplay.WalkExactIff`,
  `NineReplay.Replay`). Any other collision makes Replay fail instead of going wrong
  (`NineReplay.ReplayWalk`).
- **A version reply in mid-session** clears the server's fids but not the tracker's;
  every other committed reply agrees with the server (`NineServer.CommitMatchesExec`).
- **A Delete or Move can overtake a Put** whose timer has unparked it and not yet sent
  it, although `Enqueue` forces parked Puts out to prevent that
  (`OplogRace.TimerLosesTheRace`). Order survives exactly when no other operation on
  the path is parked, held or half renamed (`OplogRace.StepKeepsOrderIff`).
- **A renamed parked Put** leaves the old object in the store if one was there and no
  Delete for it is queued (`OplogSync.RenameLeavesOldObject`,
  `OplogSync.StepConvergesIffSafe`).
- **Evicting mode** loses a rewrite if an outstanding Put of the path stands before an
  outstanding Delete (`OplogSync.EvictingLosesRewrite`, `OplogSync.DrainWrite`).
- **A write between upload and eviction** of the same path is lost in evicting mode: the
  buffer it wrote is removed, and its own Put finds none. Without renames
  and shutdown, this and the previous family are the only ways to lose a write
  (`OplogEvict.WriteDuringUploadIsLost`,
  `OplogEvict.StepConvergesIffSafe`).
- **The shutdown drain** flushes parked Puts ahead of older queued Deletes, so a file
  removed and written again shortly before shutdown can be missing from the store
  (`OplogSync.ShutdownConvergesIffSafe`).
- **ACL order.** `Compile` promises a verdict "regardless of input order"; that holds
  if and only if the longest rules covering the path agree
  (`Acl.OrderFreeIffTiesAgree`). `Compile` also says it validates rules; any access
  string comes back as a verdict (`Acl.AnyAccessComesBack`).
- **A deny limited to methods alone** refuses connections whose requests are allowed
  (`Egress.ScopedIffNeverBlocks`).

Two results mark a limit without contradicting a promise. At `Enqueue`'s own interface
a symlink overtakes a parked Put of its path (`OplogOrder.EnqueueKeepsOrderIff`). The
oplog promises order for Delete and Move only, and no FUSE call is shown to get there:
creating a symlink over an existing local file fails first. A request that was
executed and not observed is executed again after a reconnect
(`NineWorld.UnobservedMkdirFails`); the source rules that out by assumption.

## Model

| member | source | states |
|---|---|---|
| `NineWire.Cursor.U16` | internal/nineproxy/session.go:149-157 | the in-place 16-bit read is ReadU16 of the cursor's value, sticky error included |
| `NineWire.Cursor.U32` | internal/nineproxy/session.go:158-166 | likewise for 32 bits |
| `NineWire.Cursor.Text` | internal/nineproxy/session.go:167-176 | likewise for a length-prefixed string |
| `NineWire.Cursor.Texts` | internal/nineproxy/session.go:211-215 | the name loop of a Twalk reads exactly n strings, whatever the bytes |
| `NineWire.ReadStrsAt` | internal/nineproxy/session.go:149-176 | a cursor standing at written strings reads them back and stops right behind them |
| `NineWire.ReadsStayInside` | internal/nineproxy/session.go:149-176 | on arbitrary bytes no read passes the end, and once failed every read yields zero and changes nothing |
| `NineWire.Frame` | internal/nineproxy/replay.go:51-59 | the patched buffer is size, type, tag, body |
| `NineWire.FrameFields` | internal/nineproxy/session.go:179-181 | the header accessors give back type, tag and body of a built frame |
| `NineWire.ReadMsgIffFramed` | internal/nineproxy/replay.go:22-37 | a message and rest are returned if and only if the stream is a message whose size field is its length, followed by that rest |
| `NineWire.FrameRoundTrip` | internal/nineproxy/replay.go:22-59 | a built frame followed by any bytes reads back and leaves the bytes |
| `NineWire.StreamRoundTrip` | internal/nineproxy/replay.go:22-59 | a stream of framed messages is read as exactly those messages |
| `NineWire.ReadMsgInNumbers` | internal/nineproxy/replay.go:22-37 | the size is the first four bytes, lowest first, refused below 7 and above 2^24 |
| `NineWire.HeaderInNumbers` | internal/nineproxy/session.go:178-181 | type in byte 4, tag in bytes 5 and 6, body from byte 7 |
| `NineSession.Session.ObserveClient` | internal/nineproxy/session.go:188-245 | the object's new state is OnClient of the old one, for any bytes |
| `NineSession.Session.ObserveServer` | internal/nineproxy/session.go:250-322 | the object's new state is OnServer of the old one: failed clunks, removes, partial walks and flushes included |
| `NineSession.Session.Commit` | internal/nineproxy/session.go:283-321 | the effect of a successful reply on handshake and fid table |
| `NineSession.ParseRoundTrip` | internal/nineproxy/session.go:196-238 | whatever fields the kernel encodes, the tracker reads back; unknown trailing fields are ignored |
| `NineSession.ParsedTypes` | internal/nineproxy/session.go:37-59 | the request types that are followed, by their protocol numbers |
| `NineSession.RepliesInNumbers` | internal/nineproxy/session.go:250-299 | a reply fails exactly if its type is 7, and what a walk reached is in bytes 7 and 8 |
| `NineSession.StartsInNumbers` | internal/nineproxy/session.go:57-58 | a tracker starts with 256 KiB and "9p2000.L" |
| `NineSession.AnyStreamKeepsTrackerOk` | internal/nineproxy/session.go:188-322 | after any byte messages in either direction, pending tags are outstanding and outstanding requests have distinct places in the send order |
| `NineServer.StripClears` | internal/nineproxy/replay.go:10-17 | stripping clears the bits octal 100, 200 and 1000, keeps every other bit, and is idempotent |
| `NineServer.CommitMatchesExec` | internal/nineproxy/session.go:264-321 | for every request, state and outcome, the tracker commits what the server did, if and only if it is not an accepted Tversion over live fids |
| `NineServer.ExecSame` | internal/nineproxy/replay.go:124-136 | no request can tell a server with stripped open flags from one with the original flags |
| `NineReplay.HostConn.RoundTrip` | internal/nineproxy/replay.go:64-80 | one request out, its reply in; an error reply, a reply of another type and a connection that breaks before or after execution all read as failure |
| `NineReplay.WalkPlanCoversPath` | internal/nineproxy/replay.go:141-192 | for any path length no walk carries more than 16 names and together they carry exactly the path |
| `NineReplay.PlanInNumbers` | internal/nineproxy/replay.go:144-176 | a long walk starts through fid 0xFFFF0000 with 16 names, and gives that fid up |
| `NineReplay.WalkChunk` | internal/nineproxy/replay.go:158-175 | one walk plus the release of the temporary fid it started from, which may fail unnoticed only by breaking the connection |
| `NineReplay.ReplayWalk` | internal/nineproxy/replay.go:144-192 | for all fid numbers and path lengths, from a root fid at the root: success means the table gained the target at the whole path and nothing else changed, except a root fid that is itself the first temporary fid of a long walk, which ends at the first 16 names; the tree never changes and the messages are the plan; success is certain where the path exists, nothing is refused and temporary fids are free |
| `NineReplay.WalkExactIff` | internal/nineproxy/replay.go:144-178 | what a successful walk leaves is exactly the target added, if and only if the root fid is not the first temporary fid of a long walk; then it is away from the root |
| `NineReplay.Handshake` | internal/nineproxy/replay.go:91-107 | version and attach with the remembered parameters leave exactly the root fid |
| `NineReplay.SortedFids` | internal/nineproxy/replay.go:228-235 | every fid once, increasing |
| `NineReplay.ReplayWalks` | internal/nineproxy/replay.go:109-123 | the messages are the walks of all non-root fids, lowest first; all of them walked, none opened, for every session with one root fid at the root, unless one of the walks moves it; it fails only if the server denied something |
| `NineReplay.ReplayOpens` | internal/nineproxy/replay.go:124-137 | the messages are the re-opens of exactly the open fids, lowest first, with stripped flags; it fails only if the server denied one |
| `NineReplay.Replay` | internal/nineproxy/replay.go:87-139 | the messages are the handshake, the walks and the re-opens, each by increasing fid; on success the server, if still connected, holds exactly the rebuilt table if and only if no walk took the root fid for a temporary one; the tree never changes; it fails only before attach or if the server denied something, and is certain to succeed on an obliging server that has the paths |
| `NineReplay.RebuiltExactIffRootLive` | internal/nineproxy/replay.go:109-137 | the rebuilt table is the tracked one up to stripped flags if and only if the root fid is still tracked |
| `NineReplay.ResendOutstanding` | internal/nineproxy/replay.go:212-226 | on success every unanswered request is written once, in send order; on failure a prefix; it fails only if a write did |
| `NineReplay.SortedTags` | internal/nineproxy/replay.go:213-219 | the tags of all unanswered requests, by send order |
| `NineWorld.RequestsHaveBytes` | internal/nineproxy/session.go:188-245 | every encodable request of the model is carried by real frames |
| `NineWorld.RepliesHaveBytes` | internal/nineproxy/session.go:250-262 | and so is every reply |
| `NineSample.LossyRunIsLegal` | internal/nineproxy/proxy.go:166-194 | there is a legal run, in real bytes, that reconnects with a request in flight |
| `NineWorld.StepInv` | internal/nineproxy/proxy.go:61-103 | sending, executing, delivering a reply and reconnecting all keep the tracker in step with a server that never died |
| `NineWorld.ResumeIsTransparent` | internal/nineproxy/proxy.go:166-194 | over every run with any number of reconnects, each reply equals the one a server that never died gives |
| `NineWorld.TrackerRefinesServer` | internal/nineproxy/session.go:188-322 | at all times outstanding tags are exactly the requests neither answered nor flushed; once replies are observed the tracked table is the server's and the remembered handshake is the one it accepted |
| `NineWorld.ReconnectCanReplay` | internal/nineproxy/proxy.go:172-177 | in every reachable state with all replies observed, the conditions under which Replay must succeed hold |
| `NineWorld.UnobservedMkdirFails` | internal/nineproxy/replay.go:208-211 | re-delivering a request that was executed but not observed gives a different reply, so the assumption is needed |
| `NineProxy.EveryRunDelivers` | internal/nineproxy/proxy.go:61-194 | in every interleaving each generation's wire carries each request at most once and in send order, what writeHost reported is on its own or a later wire, and no unanswered request is missing |
| `NineProxy.StartedDownNeverAttaches` | internal/nineproxy/proxy.go:28-34 | in every run of a proxy started without a host, none is ever installed, no attach is ever observed and no request is reported delivered |
| `NineProxy.PumpNeverStuck` | internal/nineproxy/proxy.go:111-160 | in every run a pump with a request can take its next step unless the proxy is open and has no host; a parked one that wakes to a host returns its re-sent request as delivered |
| `NineEndToEnd.ExactlyWhatTheKernelAsked` | internal/nineproxy/proxy.go:61-194 | with requests executed off the current wire, in every interleaving: replies equal those of a server that never died, no request is executed twice over all generations, each was on the wire of its generation, and what is neither executed nor flushed is on the current wire or in the pump |
| `NineProxy.StepInv` | internal/nineproxy/proxy.go:61-211 | the invariant behind it, for every step |
| `NineProxy.ReplyLeavesUnwritten` | internal/nineproxy/proxy.go:105-110 | no reply, not even to a flush, settles a request that is not on the wire |
| `NineProxy.ResentWire` | internal/nineproxy/proxy.go:178-184 | what a reconnect re-sends is every unanswered request, strictly increasing, and there is only one such list |
| `NineProxy.Proxy.MarkHostDead` | internal/nineproxy/proxy.go:138-149 | only a failure of the current generation takes the host down |
| `NineProxy.Proxy.Reconnect` | internal/nineproxy/proxy.go:166-194 | success installs a new generation that was handed every unanswered request in order, on a server that holds exactly the rebuilt session if and only if no walk moved the root fid; failure leaves the proxy as it was; it fails only if closed, not attached, or failed by the new connection, whether or not a host was up, and succeeds on an obliging one that has the paths; the tree never changes |
| `NineProxy.Proxy.Close` | internal/nineproxy/proxy.go:197-211 | closed for good, host dropped |
| `Oplog.DebounceDelay` | internal/fusefs/oplog.go:188-197 | never negative, within window and cap, and shorter than the window only because of the cap |
| `Oplog.Log.DebouncePut` | internal/fusefs/oplog.go:170-183 | joins the parked group, keeping its start and one dirty count, or starts one; what it does over time is in the next rows |
| `Oplog.Log.Enqueue` | internal/fusefs/oplog.go:138-162 | Puts are debounced; a Delete or Move first forces out the parked Puts it names |
| `Oplog.Log.ForcePending` | internal/fusefs/oplog.go:221-233 | the path's parked Put moves to the queue, nothing else changes |
| `Oplog.Log.TakeParked` | internal/fusefs/oplog.go:205-216 | the locked part of a timer or forced flush |
| `Oplog.Log.RenameParkedPut` | internal/fusefs/oplog.go:253-291 | redirects a parked Put, also onto a parked target or itself |
| `Oplog.Log.MarkDirty` | internal/fusefs/oplog.go:320-327 | counts path and move target |
| `Oplog.Log.MarkClean` | internal/fusefs/oplog.go:329-344 | guarded decrements of path and move target |
| `Oplog.Log.FinishFlush` | internal/fusefs/oplog.go:459-471 | an error dead-letters the entry and leaves it dirty, success cleans it |
| `Oplog.Log.IsDirty` | internal/fusefs/oplog.go:311-318 | true exactly while an operation naming the path is parked, queued, held, half renamed, in flight or dead |
| `Oplog.MarkCleanCounts` | internal/fusefs/oplog.go:329-344 | while an entry is counted the guards never bite: cleaning takes off exactly what marking added |
| `Oplog.StepConserves` | internal/fusefs/oplog.go:138-344 | every step of every goroutine keeps dirty[p] equal to the outstanding entries naming p |
| `Oplog.RenameMarkConserves` | internal/fusefs/oplog.go:273-287 | a redirect retires one count of the old path and leaves the new path exactly one |
| `Oplog.DirtyCountsConserved` | internal/fusefs/oplog.go:138-473 | in every state reachable from an empty oplog, shutdown drain included, dirty[p] is the number of parked, queued, held, half-renamed, in-flight and dead entries naming p, so a path is dirty exactly while one is outstanding |
| `Oplog.ParkedWithinCap` | internal/fusefs/oplog.go:170-197 | over every timed run from an empty oplog, measured by when the writes really came: a parked Put is due at the group's first write plus the cap or its latest write plus the window, whichever comes first, and has never been parked longer than the cap |
| `Oplog.ForcedIsLatestWrite` | internal/fusefs/oplog.go:173-176 | what a timer, Delete or Move forces out is one Put with the buffer of the latest write |
| `Oplog.RedirectIsNewBuffer` | internal/fusefs/oplog.go:253-291 | a redirect queues one Put of the new path with the new buffer and leaves neither path parked |
| `OplogOrder.EnqueueKeepsOrderIff` | internal/fusefs/oplog.go:138-162 | per-path order survives an enqueue if and only if it is not a symlink over a parked Put |
| `OplogOrder.SymlinkOvertakes` | internal/fusefs/oplog.go:151-161 | in that case the store sees the symlink before the older Put |
| `OplogOrder.CoalescingKeepsPathOrder` | internal/fusefs/oplog.go:138-233 | over every run in which an enqueue, a timer and a flush are each one step, and every path, replayed then queued then parked is the enqueued operations up to merged adjacent Puts |
| `OplogRace.StepKeepsOrderIff` | internal/fusefs/oplog.go:138-291 | with every critical section and send a step of its own, a step keeps all paths in order, however what is outside the queue may enter it, if and only if no different operation on its paths is parked, held or half renamed |
| `OplogRace.FitsIffEveryOrder` | internal/fusefs/oplog.go:205-233 | being in order for every way to send the rest means that the rest is one and the same operation |
| `OplogRace.RacesKeepPathOrder` | internal/fusefs/oplog.go:138-291 | over every run of such steps, in whatever order the rest is sent, the store is given, path by path, what was asked for up to merged adjacent Puts |
| `OplogRace.HeldIsOvertaken` | internal/fusefs/oplog.go:146-161 | otherwise a Delete, Move or Symlink can be sent first, and the path will not end as asked |
| `OplogRace.PutOvertakesHeld` | internal/fusefs/oplog.go:170-216 | and so can a Put that arrives while another operation is held |
| `OplogRace.TimerLosesTheRace` | internal/fusefs/oplog.go:205-216 | a run in which a Delete overtakes a Put that its timer has unparked |
| `OplogSync.DrainWrite` | internal/fusefs/oplog.go:421-470 | a fresh write reaches the store if and only if buffers are kept or no outstanding Put stands before an outstanding Delete |
| `OplogSync.StepConvergesIffSafe` | internal/fusefs/oplog.go:138-291 | each step keeps every path on course to its last content exactly when the stated pre-condition holds; removes, timers and flushes always do |
| `OplogSync.RemoveConverges` | internal/fusefs/fs_linux.go:1143-1157 | queueing a Delete for a dirty path and deleting a clean one directly both end with the object gone |
| `OplogSync.RemoveBranches` | internal/fusefs/fs_linux.go:1143-1157 | with nothing outstanding the object is gone at once and nothing is queued; otherwise the store is left alone and a Delete is queued last |
| `OplogSync.StoreConverges` | internal/fusefs/oplog.go:138-473 | after every safe run, once nothing is queued or parked, the store holds exactly the last content of each path and no removed one |
| `OplogSync.KeptBuffersConverge` | internal/fusefs/oplog.go:138-473 | with buffers kept, after every run of writes, removes, timers and flushes, once drained, the store is exactly the last contents |
| `OplogSync.EvictingLosesRewrite` | internal/fusefs/oplog.go:421-470 | a reachable state in which a rewrite is lost in evicting mode |
| `OplogSync.RenameLeavesOldObject` | internal/fusefs/oplog.go:253-291 | a run after which the old object stays in the store |
| `OplogEvict.HalvesMakeAFlush` | internal/fusefs/oplog.go:421-471 | upload and eviction with nothing in between are the flush of one step |
| `OplogEvict.StepConvergesIffSafe` | internal/fusefs/oplog.go:421-471 | with upload and eviction apart, each step keeps every path on course if and only if buffers are kept or it is no write that falls between the two (unless it changes nothing) or behind an outstanding Put and Delete |
| `OplogEvict.StoreConverges` | internal/fusefs/oplog.go:138-473 | after every safe run of such steps, once drained, the store is exactly the last contents |
| `OplogEvict.KeptIsSafe` | internal/fusefs/oplog.go:466-470 | with buffers kept every run is safe, writes between upload and eviction included |
| `OplogEvict.WriteDuringUploadIsLost` | internal/fusefs/oplog.go:443-470 | a run after which nothing is outstanding and the store misses the last write |
| `OplogSync.ShutdownConvergesIffSafe` | internal/fusefs/oplog.go:370-397 | the shutdown drain leaves a path right if and only if its parked Put does not overtake a queued Delete for good; otherwise the file is missing |
| `OplogSync.ShutdownAfterRun` | internal/fusefs/oplog.go:299-397 | the store after shutting down at the end of any safe run, for any order of the parked Puts |
| `Glob.GlobIsMatches` | internal/proxy/proxy.go:1058-1077 | matching by cases is the same as splitting the text around the stars |
| `Glob.GlobMatch` | internal/proxy/proxy.go:1061-1077 | the recursive matcher decides that relation, for all patterns and texts |
| `Glob.MatchSegment` | internal/proxy/proxy.go:1164-1190 | the greedy matcher decides the same relation |
| `Glob.GreedyMatch` | internal/proxy/proxy.go:1168-1189 | its loops terminate and backtracking to the last star only is enough |
| `Glob.CommitLiteral` | internal/proxy/proxy.go:1172-1181 | why: once a star faces its literal, a later occurrence matches nothing more |
| `Glob.MatchSegments` | internal/proxy/proxy.go:1135-1157 | true if and only if the segments split into blocks, any block for `**` and one matching segment for everything else |
| `Glob.MatchTail` | internal/proxy/proxy.go:1137-1146 | the same for the `**` case |
| `PathGlob.MatchGlob` | internal/proxy/proxy.go:1128-1130 | the same for slash-separated strings |
| `PathGlob.SplitJoin` | internal/proxy/proxy.go:1128-1130 | splitting at slashes loses nothing and leaves no slash in a segment |
| `PathGlob.SplitAtSlash` | internal/proxy/proxy.go:1128-1130 | splitting cuts at every slash |
| `PathGlob.PlainPattern` | internal/proxy/proxy.go:1119-1127 | without a "**" segment, segments match one to one |
| `PathGlob.SubtreePattern` | internal/proxy/proxy.go:1119-1127 | a literal directory followed by "/**" matches the directory and everything below it, and nothing else |
| `Egress.HostCheck` | internal/proxy/proxy.go:1050-1056 | trimmed pattern against host; empty never matches |
| `Egress.PathCheck` | internal/proxy/proxy.go:1107-1117 | any listed glob, or no list |
| `Egress.MatchEgress` | internal/proxy/proxy.go:879-911 | returns the first rule that decides the query, or none, in terms of the rule's own fields: a listed port equals the query's, a listed method is the verb up to letter case, and so on; every rule passed over fails one of them |
| `Egress.FirstIsFirst` | internal/proxy/proxy.go:873-911 | that rule is in the list, decides the query, and none before it does; none exactly when no rule does |
| `Egress.HitsMeans` | internal/proxy/proxy.go:1050-1117 | what deciding means, field by field: trimmed host pattern, ports, methods by letters, path globs, and the deny that stands aside without a path |
| `Egress.ConnectionNeverBlocks` | internal/proxy/proxy.go:891-901 | if a request is allowed then so is its connection, for every list of allows and scoped denies |
| `Egress.ScopedIffNeverBlocks` | internal/proxy/proxy.go:891-901 | a rule is safe in front of any allows if and only if it is no deny limited to methods alone |
| `PolicyWait.PolicyCell.PolicyChan` | internal/proxy/proxy.go:294-301 | returns the current channel, made on first use |
| `PolicyWait.PolicyCell.RulesForSource` | internal/proxy/proxy.go:256-271 | a source's own rules if it has any, else the common ones, else none |
| `PolicyWait.PolicyCell.NotifyPolicyChange` | internal/proxy/proxy.go:306-313 | closes the current channel, installs a fresh one |
| `PolicyWait.PolicyCell.SetRulesBySource` | internal/proxy/proxy.go:230-241 | stores the rules, then notifies |
| `PolicyWait.NoLostWakeup` | internal/proxy/proxy.go:230-367 | in any interleaving a waiter on an open channel is refused by its source's own bucket, or the common one if it has none, or an updater is about to wake it; a granted rule is the first match of that bucket and an allow; a denied request emitted one request deny, then one response deny |
| `PolicyWait.MatchIffLetThrough` | internal/proxy/proxy.go:328-355 | a re-evaluation grants the request exactly when the bucket that governs its source lets it through |
| `PolicyWait.FirstTryIffLetThrough` | internal/proxy/proxy.go:336-346 | likewise the first one, which otherwise holds or denies by the grace period |
| `PolicyWait.OwnBucketAlone` | internal/proxy/proxy.go:256-271 | rules of other sources, the common ones included, do not matter to a source with its own |
| `PolicyWait.NotifyWakesAll` | internal/proxy/proxy.go:303-313 | a pending notification enables every blocked waiter |
| `Broker.PubSub.Publish` | internal/events/broker.go:160-184 | next id always used; observed events enter the ring and are offered to all subscribers |
| `Broker.FilterDecides` | internal/events/broker.go:80-123 | an event enters the ring under the next id exactly if there is no filter, its type is in it or cannot be read; the id is used either way |
| `Broker.Defaults` | internal/events/broker.go:59-71 | 500 events and 64 per subscriber unless a positive number is given |
| `Broker.PubSub.FanOut` | internal/events/broker.go:176-181 | every subscriber channel offered once, in any order, full ones skipped |
| `Broker.PubSub.Subscribe` | internal/events/broker.go:192-212 | replay is the ring above the mark; a closed broker gives nothing and a closed channel |
| `Broker.PubSub.Unsubscribe` | internal/events/broker.go:291-299 | closes the channel only while still registered |
| `Broker.SubscribeHandsOut` | internal/events/broker.go:195-211 | a closed broker hands out a closed channel and registers nobody |
| `Broker.CancelCloses` | internal/events/broker.go:291-299 | cancelling closes and unregisters a channel once, and then does nothing |
| `Broker.CloseReachesAll` | internal/events/broker.go:266-289 | over every run, once Close is through every channel handed to a subscriber is closed |
| `Broker.BrokerStreams` | internal/events/broker.go:160-299 | over every run no channel is closed twice or sent to after closing, the ring is the last cap observed entries with increasing ids, and an undropped subscriber has exactly the retained entries above its mark followed by every later one |
| `Broker.SeamHasNoRepeat` | internal/events/broker.go:160-212 | over every run and for every subscriber, dropped or not, replay, received and buffered entries together have strictly increasing ids, and what came live is the stream since it joined with entries left out at most |
| `Pool.UpstreamPool.constructor` | internal/proxy/upstream_pool.go:67-74 | ten seconds, eight per key, empty and open |
| `Pool.UpstreamPool.Get` | internal/proxy/upstream_pool.go:91-110 | returns what Pick picks, alive and put within the limit, closes what it rejects, touches no other bucket |
| `Pool.PickTakesNewestUsable` | internal/proxy/upstream_pool.go:86-110 | the newest usable connection of the bucket; everything newer is dead or was put more than the limit ago, and closed; everything older stays |
| `Pool.UpstreamPool.Put` | internal/proxy/upstream_pool.go:117-131 | kept exactly if drained, open and below the cap; closed otherwise |
| `Pool.UpstreamPool.Sweep` | internal/proxy/upstream_pool.go:174-197 | exactly the expired connections are dropped, none put longer ago than the limit stays, order kept, empty buckets removed |
| `Pool.OwnershipHolds` | internal/proxy/upstream_pool.go:91-210 | over every run a connection is in exactly one place, closed at most once, buckets respect the cap, nothing is idle after closing |
| `Pool.GetStaysInItsKey` | internal/proxy/upstream_pool.go:76-110 | a get only ever takes a connection put under its own address and host, and in vm scope its own source |
| `Pool.GetIsRecent` | internal/proxy/upstream_pool.go:100-108 | over every run, a popped connection may be returned exactly while it was put no longer ago than the limit |
| `Pool.SweepLeavesRecent` | internal/proxy/upstream_pool.go:174-197 | over every run, a sweep leaves idle exactly the connections put within the limit |
| `Pool.EvictDropsTheSource` | internal/proxy/upstream_pool.go:133-155 | evicting a source drops exactly its idle connections, in pod scope none |
| `StableSort.SiftDown` | internal/fusefs/acl.go:72-78 | the inner swap loop is insertion behind everything of at least its rank |
| `StableSort.SortDesc` | internal/fusefs/acl.go:70-80 | the in-place sort is the functional one |
| `StableSort.SortedIsStable` | internal/fusefs/acl.go:70-80 | permutation, descending, and stable |
| `StableSort.FirstHitIsWinner` | internal/fusefs/acl.go:49-57 | first hit after sorting is the highest, earliest hit before sorting |
| `Acl.SortByPrefixLengthDesc` | internal/fusefs/acl.go:70-84 | that sort, ranked by length without the subtree suffix |
| `Acl.ACLs.constructor` | internal/fusefs/acl.go:37-44 | compiled rules are the sorted input |
| `Acl.ACLs.Eval` | internal/fusefs/acl.go:49-66 | access of the first compiled rule that covers the cleaned path by segments, else deny |
| `Acl.CoversMeans` | internal/fusefs/acl.go:59-66 | a rule ending in "/**" covers the paths whose segments start with those before it, any other rule one path |
| `Acl.CleanIsIdempotent` | internal/fusefs/acl.go:50 | cleaning a path twice changes nothing |
| `Acl.CleanClimbs` | internal/fusefs/acl.go:50 | going into a directory and out by ".." changes nothing |
| `Acl.CleanSkips` | internal/fusefs/acl.go:50 | "." and doubled slashes mean nothing |
| `Acl.CleanStaysBelowRoot` | internal/fusefs/acl.go:50 | there is nothing above the root |
| `Acl.CleanKeepsPlain` | internal/fusefs/acl.go:50 | a path of plain segments is clean |
| `Acl.LongestPrefixWins` | internal/fusefs/acl.go:28-57 | the verdict is the access of the longest covering rule, earliest on ties, or deny |
| `Acl.DecidingRuleDecides` | internal/fusefs/acl.go:28-57 | the same on the rules as written: segments cover, lengths without "/**", earliest on ties, "deny" if none covers |
| `Acl.AnyAccessComesBack` | internal/fusefs/acl.go:34-57 | in any list, whatever access string the winning rule for a path is given becomes the verdict |
| `Acl.SameLengthSamePath` | internal/fusefs/acl.go:59-84 | covering rules of equal length have the same stripped path |
| `Acl.OrderFreeIffTiesAgree` | internal/fusefs/acl.go:34-44 | the verdict is independent of rule order if and only if the longest covering rules agree |
| `Acl.DistinctPathsAreOrderFree` | internal/fusefs/acl.go:34-44 | distinct stripped paths are enough |

## Left out

- Real clocks, sockets and mutexes: time is a parameter, a connection is a value, a critical section is a step.
- The pump goroutines as methods: kernelToHost, hostToKernel and writeHost are the steps of `NineProxy`, and awaitEgress the steps of `PolicyWait`, since each may park between any two critical sections.
- NineReplay.Replay: promises the rebuilt table for sessions with one root fid that is still at the root; after a second attach, or a walk or create on the root fid, the source rebuilds another table. `NineWorld.ReconnectCanReplay` shows that runs under the stated assumptions stay clear of that.
- NineProxy.Proxy.Reconnect: the same, for the same reason.
- The requests a failed Reconnect may already have written to a connection that is then given up.
- 64-bit wrap-around of send order, host generation and event ids, which are unbounded here.
- File offsets, attributes and directory reads on the 9P server: one read, one write and one mkdir stand for the requests the tracker passes through.
- Oplog.Log.Enqueue: does not model blocking on a full queue, which a method cannot; the step system of `Oplog` has it.
- OplogOrder.CoalescingKeepsPathOrder: takes a timer's unparking and its send as one step; `OplogRace` splits them and states what then holds.
- OplogOrder.EnqueueKeepsOrderIff: the same.
- A write racing with the store's reading of the same buffer file, and a FUSE call's file operation apart from its enqueue, in the convergence results.
- The order in which the shutdown drain replays; `OplogSync` has its effect on the store.
- Store errors in the convergence results; the dirty-count result has them.
- A preset timestamp on an enqueued entry: no caller sets one, so a group starts when its first Put arrives.
- The five-second limit of the shutdown drain.
- A rename whose Put is already queued (OpMove together with a local rename), and renames onto the same path: they depend on file moves outside the oplog.
- Egress.HostCheck: trims ASCII white space only; Unicode tables are outside this model.
- Egress.MatchEgress: folds ASCII letters only, for the same reason.
- The override, passthrough and script fields of egress rules.
- The liveness probe of a pooled connection: which connections are alive is a parameter.
- evictSource, closeAll, the broker's Close and SetFilter as methods: they are steps of `Pool` and `Broker` and would only add easy members.
- The broker's activity hook and WaitDrained.
- FUSE handlers and the stat cache, apart from the dirty check in Remove.
- Cloud stores, VM and container isolation, netlink, TLS and certificates, scripts, HTTP bodies and compression, pty sessions, configuration, CLI and client SDK.
