# Verified model of the ZJU portal core

The portal core is a VPN client daemon. This project models the parts of it whose guarantees
hold over whole runs and across functions, and proves those guarantees:

- **L3 tunnel wire format** (`L3Wire.dfy`, `L3Reader.dfy`): the frame reader over a byte stream,
  the two data framings told apart by a two-byte peek, the payload builder and parser.
- **TCP tunnel** (`TcpTunnel.dfy`): the connect exchange and the de-framing reader behind it.
- **Per-flow authorisation** (`Conntrack.dfy`, `ConntrackProtocol.dfy`): the doubly indexed table,
  its eviction, and writers, waiters, timeouts and replies interleaved over it.
- **System DNS** (`SystemDns.dfy`, `DnsRuns.dfy`, `DnsController.dfy`): write-ahead snapshots, and
  processes that apply, restore, recover and crash at any point.
- **Configuration** (`Config.dfy`, `JsonMerge.dfy`, `Controller.dfy`): the change classifier, the
  JSON merge, and the controller with apply, rollback and revisions.
- **Fake IPs** (`FakeIp.dfy`), **backend replacement and TUN routes** (`NetworkRuntime.dfy`),
  **auth broker** (`AuthBroker.dfy`), **event fan-out** (`EventService.dfy`), **session lifecycle**
  (`Session.dfy`, `SessionRuns.dfy`), **resource admission** (`Resources.dfy`).

`Bytes.dfy` holds what several modules share. `dafny verify dfyconfig.toml` checks everything.

Conventions. Code that updates fields in place is a class whose methods are proved against functions
or relations on values; the laws are then proved about those. Concurrent protocols are step systems
over the same functions: a run is a sequence of states joined by steps of any threads, and every
`Run...` lemma speaks of an arbitrary state of an arbitrary run. What a collaborator answers (the session
manager, the network, a device) is a parameter or part of a step. In the classes of `DnsController.dfy`
and `NetworkRuntime.dfy` a free choice (`*`) stands for the operating system, whose operations may fail
as long as they have faults left to spend; the number of faults is arbitrary, and counting them lets
contracts also say that an operation succeeds when nothing goes wrong. Time is an integer, and map
iteration takes keys in any order. For the system DNS, `DnsRuns` is what processes may do action by action
and `DnsController` the code of one process; its methods log what they do, and the log is always a
run of `DnsRuns` that leads to where the machine is.

Findings. Some promises hold only under a condition, which is proved together with what happens
without it:

- A token data frame is read back as one exactly when its first two bytes cannot be taken for a
  length (`L3Wire.FrameReads`).
- Applying two JSON patches in turn is applying their merge, for every second patch, exactly when the
  first nowhere replaces a *nonempty* object by something else (`JsonMerge.MergeAssocIff`).
- The fake-IP store reads the clock before it waits for its lock, so stamps can arrive out of
  order. If later uses of an address may be stamped up to d before the one that gave it a name, the name
  is safe from everything stamped less than e after it exactly when e is at most thirty minutes less d
  (`FakeIp.KeptIff`). In particular, if a goroutine waits for the lock for thirty minutes, an address
  used a nanosecond ago can change its name (`FakeIp.LateStampRebinds`); what counts is the stamp of
  its last use (`FakeIp.RunRebindStale`).
- A TUN service whose route update and rollback both fail is marked failed, unless one of the two errors
  is that of a closed or cancelled device; then it stays in service and what the device routes is
  unknown (`NetworkRuntime.LostRollback`). The device routes what is stored exactly as long as
  that does not happen (`NetworkRuntime.TunUpdateKeeps`, `NetworkRuntime.RunTunOk`).
- The resource list of the outbound is the client's own plus the addresses of static DNS records; both
  tunnels keep the client's own. The outbound therefore admits exactly what the L3 tunnel has a route
  for and the recorded addresses (`Resources.StaticAdmission`). A connection it admits has no resource in
  the TCP tunnel exactly if its address is recorded, no entry of the client's list ending in an IPv4
  address covers it, and the name it was resolved from brings no resource of its own
  (`Resources.UnservedIff`).
- Of an address range the client's parser checks only the lower bound. A range that ends in an IPv6
  address admits nothing at the outbound and the TCP tunnel and is an ordinary range of sixteen-byte
  numbers to the L3 tunnel (`Resources.MixedRange`, `Resources.MixedRangeSplits`); the tests agree on
  the other resources (`Resources.ParsedAgree`).
- A subscription to the event service sends the pending challenges into a channel nobody reads yet. With
  more than 128 of them, which a script of broadcasts reaches (`EventService.SubscribeBlocks`), it blocks
  with the lock held, and nothing is broadcast any more (`EventService.StuckStays`).
- failWith reads the state of a session and asks for failed later; a close in between leaves the session
  stopping (`SessionRuns.CloseBeatsFailure`). After failWith a session is failed exactly as long as no
  close has asked for stopping, before or after (`SessionRuns.RunFailed`).

The code differs from what one might read into it in two more places, and the model follows the code:
a skipped authentication response still needs a value (`AuthBroker.ValidateResponse`), and a packet
buffer of exactly 65536 bytes is refused because lengths are compared in sixteen bits
(`Resources.ValidExactly`).

## Model

| member | source | states |
|---|---|---|
| Bytes.Reader.ReadFull | client/atrust/l3tunnelconn.go:313-316 | io.ReadFull as the reader uses it: all n bytes, or EOF / unexpected EOF with what was left swallowed |
| L3Wire.BuildParseRoundTrip | client/atrust/l3tunnelconn.go:607-659 | for any token of at most 255 bytes, parsing a built payload behind its header gives back the packets if and only if there are at most 255 of them and each has at most 65535 bytes |
| L3Wire.SplitCut | client/atrust/l3tunnelconn.go:643-657 | splitting a packet list depends only on the bytes up to the end it reports |
| L3Wire.TokenPayloadParses | client/atrust/l3tunnelconn.go:680-718 | a payload the token-mode reader returns is the bytes it consumed; the parser accepts it with exactly the declared number of packets and ends at its last byte |
| L3Wire.TokenReads | client/atrust/l3tunnelconn.go:661-718 | a token body is read back whole, whatever follows, unless its first two bytes pass for a length |
| L3Wire.FrameReads | client/atrust/l3tunnelconn.go:311-384 | a frame whose lengths fit is read back, with the position right behind it, if and only if it is unambiguous |
| L3Wire.ProtocolSkipped | client/atrust/l3tunnelconn.go:363-379 | a 0x53 0x00 frame changes nothing but the position |
| L3Wire.StreamReads | client/atrust/l3tunnelconn.go:219-226 | reading the concatenation of any well-formed frames until it fails returns exactly those frames in order without the protocol frames, and ends in EOF with every byte consumed |
| L3Wire.FrameSound | client/atrust/l3tunnelconn.go:317-361 | whatever frame is read is a well-formed one that stands there |
| L3Wire.CleanIff | client/atrust/l3tunnelconn.go:219-226 | conversely, a stream is read to EOF with every byte consumed exactly if it is the concatenation of some well-formed frames, and then the frames read are theirs |
| L3Wire.StreamUnambiguous | client/atrust/l3tunnelconn.go:311-384 | two well-formed frame sequences with the same bytes carry the same frames |
| L3Wire.StreamDelivered | client/atrust/l3tunnelconn.go:219-268 | every packet, authorisation reply, address reply and heartbeat of a well-formed stream is handed over once, in order, with its status and payload |
| L3Reader.ReadPackets | client/atrust/l3tunnelconn.go:702-718 | the packet loop consumes exactly the announced packets and returns the bytes since the payload began |
| L3Reader.ReadDataRespPayload | client/atrust/l3tunnelconn.go:661-679 | the peek of two bytes decides between length and token mode, with each error where the stream ends early |
| L3Reader.ReadTokenPayload | client/atrust/l3tunnelconn.go:680-718 | the token-mode reader refines the positional description of the format |
| L3Reader.ReadVersioned | client/atrust/l3tunnelconn.go:317-361 | the three layouts behind a version byte, by command |
| L3Reader.ReadFrame | client/atrust/l3tunnelconn.go:311-384 | the loop over protocol frames returns the next frame of the stream or the first error |
| L3Reader.ParseDataPayload | client/atrust/l3tunnelconn.go:630-659 | the index-driven parser refines the split of the payload, with its three errors |
| L3Reader.BuildDataPayload | client/atrust/l3tunnelconn.go:607-626 | the appending builder writes the format, truncating lengths as Go conversions do |
| L3Reader.Deliver | client/atrust/l3tunnelconn.go:228-266 | a length frame is one packet, a token payload is parsed and a bad one dropped; the other commands go to their handlers, unknown ones nowhere |
| L3Reader.HandOver | client/atrust/l3tunnelconn.go:228-266 | every packet is sent while the tunnel is open; after the close each may be dropped, and a drop among the packets of a token frame ends the loop |
| L3Reader.ReadLoop | client/atrust/l3tunnelconn.go:219-268 | the loop hands over what all frames of the stream carry, then stops with its error; if the tunnel is closed after some of it, everything up to there and of the rest some in order, the handlers' part in any case |
| L3Reader.ReceiveStream | client/atrust/l3tunnelconn.go:219-268 | on a stream of well-formed frames the receiver gets exactly what the server sent, in order, up to the close of the tunnel, and the loop ends with EOF or after the close |
| TcpTunnel.ReadConnectStatus | client/atrust/tcptunnel.go:55-88 | the reply reader for the three address types of section 6 of RFC 1928, a refusal leaving the rest unread |
| TcpTunnel.WaitForConnect | client/atrust/tcptunnel.go:90-147 | greetings are skipped, one protocol response must say OK, then comes the connect status |
| TcpTunnel.ExchangeAligned | client/atrust/tcptunnel.go:55-124 | any successful exchange, for every address type, leaves the reader exactly past its reply |
| TcpTunnel.ConnectSound | client/atrust/tcptunnel.go:55-124 | conversely, whenever connecting succeeds, the bytes consumed are the encoding of such an exchange |
| TcpTunnel.ItemReads | client/atrust/tcptunnel.go:191-258 | a data frame yields its payload, other frames of an intact stream are skipped |
| TcpTunnel.NextItem | client/atrust/tcptunnel.go:184-259 | from any frame boundary the next chunk is the next data frame's payload, or EOF at the end |
| TcpTunnel.TunnelConn.ReadChunk | client/atrust/tcptunnel.go:191-258 | the read loop refines the description of the stream |
| TcpTunnel.TunnelConn.Read | client/atrust/tcptunnel.go:184-259 | left-over bytes first; otherwise one payload is split between the caller and readBuf without loss |
| TcpTunnel.TunnelConn.Write | client/atrust/tcptunnel.go:261-277 | the data frame that ItemReads reads back, with the error of the connection if it has one, or a refusal above 65535 bytes |
| TcpTunnel.TunnelConn.ReadMany | client/atrust/tcptunnel.go:184-277 | for any buffer sizes over any such stream: one chunk per read, none larger than its buffer, an empty one only for an empty frame just consumed; the bytes returned plus readBuf are the payloads of exactly the frames the reader stands behind; fewer chunks only after EOF with everything returned |
| TcpTunnel.StreamMarks | client/atrust/tcptunnel.go:184-259 | the frame boundaries of a stream, with what the reader finds at each |
| Conntrack.MarkKeeps | client/atrust/l3tunnelconntrack.go:69-81 | settling by id keeps the indexes coherent, changes only that entry, and ends its being pending |
| Conntrack.TimeoutKeeps | client/atrust/l3tunnelconntrack.go:85-97 | a timeout wins exactly if the entry is pending, and keeps the indexes coherent |
| Conntrack.TrimOne | client/atrust/l3tunnelconntrack.go:109-124 | dropping a least recently used completed entry at the limit keeps: only completed ones dropped, survivors at least as recent as limit victims |
| Conntrack.TrimIdle | client/atrust/l3tunnelconntrack.go:102-108 | the first pass drops exactly the completed entries idle since the cutoff |
| Conntrack.InsertKeeps | client/atrust/l3tunnelconntrack.go:54-66 | a fresh id collides with none ever given out, and every other entry stays as it is |
| Conntrack.CleanKeeps | client/atrust/l3tunnelconntrack.go:101-125 | cleaning never drops a pending entry and keeps the indexes coherent |
| Conntrack.CreateWithinLimit | client/atrust/l3tunnelconntrack.go:51-66 | after a creation the key index is within the limit or holds no completed entry |
| Conntrack.ConntrackMgr.MarkAuth | client/atrust/l3tunnelconntrack.go:69-83 | the whole new state: the entry settled and closed, or nothing if the id is unknown |
| Conntrack.ConntrackMgr.TimeoutAuth | client/atrust/l3tunnelconntrack.go:85-99 | the whole new state and whether the caller won |
| Conntrack.ConntrackMgr.GetOrCreate | client/atrust/l3tunnelconntrack.go:44-67 | a known key is touched; otherwise cleanup at the limit, then a new pending entry |
| Conntrack.ConntrackMgr.Cleanup | client/atrust/l3tunnelconntrack.go:101-125 | terminates below the limit or with nothing completed left, as Trimmed describes |
| Conntrack.DropIdle | client/atrust/l3tunnelconntrack.go:102-108 | the loop that removes idle completed entries from both indexes |
| Conntrack.OldestCompleted | client/atrust/l3tunnelconntrack.go:110-119 | the scan finds a least recently used completed entry if there is one |
| Conntrack.DropOldest | client/atrust/l3tunnelconntrack.go:109-124 | the eviction loop terminates and keeps the eviction order |
| ConntrackProtocol.HandleAuthResp | client/atrust/l3tunnelconn.go:459-514 | what a reply does to the table: nothing without a conntrack hash; no error exactly for status 0, code 0 and a token that is not blank; then the token is nonempty |
| ConntrackProtocol.StepKeeps | client/atrust/l3tunnelconn.go:398-489 | every step of every thread keeps the protocol invariant |
| ConntrackProtocol.RunSafe | client/atrust/l3tunnelconn.go:398-442 | in every reachable state no channel was closed twice, exactly the closed ones were closed, no entry had two requests sent, and no writer found its token missing |
| ConntrackProtocol.RunCloser | client/atrust/l3tunnelconn.go:433-440 | a waiter that lost the timeout race waits on a channel that is closed or that exactly one thread is about to close |
| ConntrackProtocol.RunFreezes | client/atrust/l3tunnelconntrack.go:69-99 | once an entry is settled its token and error never change and a closed channel stays closed |
| ConntrackProtocol.RunAuthorised | client/atrust/l3tunnelconn.go:398-409 | a nil result of ensureAuth comes with a nonempty token that no later step takes away |
| SystemDns.RestoreArgs | internal/systemdns/controller_darwin.go:160-166 | the arguments of a restore have the recorded list as their effect, "Empty" for the empty one |
| SystemDns.CoveredRestored | internal/systemdns/controller_darwin.go:157-171 | restoring every record of a covering, faithful file restores every service |
| DnsController.LoggedRecorded | internal/systemdns/controller_darwin.go:66-141 | after any calls on any controllers, crashes included, a service away from its original is in the state file with it, because the calls made are a run |
| DnsController.Controller.RestoreSnapshots | internal/systemdns/controller_darwin.go:157-171 | last to first, going on after errors: success means every service is at its original, and the write-ahead invariant holds throughout |
| DnsController.Controller.RecoverStale | internal/systemdns/controller_darwin.go:204-223 | success means every service is at its original and no file is left |
| DnsController.Controller.WriteSnapshot | internal/systemdns/controller_darwin.go:225-254 | the file is replaced as a whole or not at all |
| DnsController.Controller.AcquireLock | internal/systemdns/controller_darwin.go:173-193 | succeeds only if no process holds the lock |
| DnsController.Controller.SetAll | internal/systemdns/controller_darwin.go:109-119 | success points exactly the recorded services at the resolver; any stop leaves every changed service recorded |
| DnsController.Controller.Change | internal/systemdns/controller_darwin.go:84-122 | Apply behind its recovery: snapshot on disk before the first change, undone after a failure, or still recorded if undoing failed too |
| DnsController.Controller.Apply | internal/systemdns/controller_darwin.go:66-123 | success: the listed services and no others are changed and recorded; a failure needs a cause, keeps the write-ahead invariant and, if only one thing went wrong, leaves every service at its original; the actions taken continue the run |
| DnsController.Controller.Restore | internal/systemdns/controller_darwin.go:125-141 | success after an apply: every service is at its original and the file is gone; without a fault it succeeds; the actions taken continue the run |
| DnsRuns.StepKeeps | internal/systemdns/controller_darwin.go:66-254 | every action of every process, a crash before any of them included, keeps the write-ahead invariant and what the lock holder relies on |
| DnsRuns.RunRecorded | internal/systemdns/controller_darwin.go:84-122 | at any point of any run a service that differs from its original is in the state file with that original |
| DnsRuns.RunRecovered | internal/systemdns/controller_darwin.go:204-223 | a process past its recovery, until it writes its own snapshot, sees every service at its original and no file |
| DnsRuns.RunRestored | internal/systemdns/controller_darwin.go:125-171 | whenever the file is removed every service is at its original |
| DnsRuns.RunApplied | internal/systemdns/controller_darwin.go:109-122 | when an apply is through, exactly the recorded services point at the resolver |
| DnsRuns.RunCanRecover | internal/systemdns/controller_darwin.go:66-83 | from any reachable world with a free lock, whatever crashed before, a new process can bring every service back to its original |
| FakeIp.BlockFits | internal/networkruntime/tun_fakeip.go:38-51 | the block of a prefix ends inside the 32-bit space |
| FakeIp.NewFakeIPStore | internal/networkruntime/tun_fakeip.go:33-51 | refused outside /8../30; otherwise next and last are base+2 and base+2^(32-bits)-2, unwrapped |
| FakeIp.AssignKeeps | internal/networkruntime/tun_fakeip.go:65-93 | an assignment keeps names and addresses one-to-one, hands out an address of the range, and touches no other |
| FakeIp.RefusedIff | internal/networkruntime/tun_fakeip.go:74-78 | refused exactly when the name is new and every address was used within thirty minutes |
| FakeIp.RunKeepsWithin | internal/networkruntime/tun_fakeip.go:65-125 | in any run, if no later use of an address is stamped more than d before one that gave it a name, the name is kept for thirty minutes less d |
| FakeIp.KeptIff | internal/networkruntime/tun_fakeip.go:65-125 | the exact condition: with later uses stamped at most d early, a name is safe from every run whose later stamps are less than e after its use if and only if e is at most thirty minutes less d |
| FakeIp.RunKeepsName | internal/networkruntime/tun_fakeip.go:65-125 | with stamps in order a name keeps its address for thirty minutes after each use |
| FakeIp.RunRestoresName | internal/networkruntime/tun_dns.go:41-54 | a lookup of the address within that time gives back the name |
| FakeIp.RunRefusal | internal/networkruntime/tun_fakeip.go:74-78 | behind a refusal there is, for each address of the range, an operation that used it within thirty minutes |
| FakeIp.LateStampRebinds | internal/networkruntime/tun_fakeip.go:65-69 | a run with stamps out of order in which an address used a nanosecond ago changes its name |
| FakeIp.RunRebindStale | internal/networkruntime/tun_fakeip.go:74-84 | in any run, stamps in order or not, an address changes its name only if the operation that used it last was stamped at least thirty minutes before |
| FakeIp.FakeIPStore.OldestReusable | internal/networkruntime/tun_fakeip.go:115-125 | the scan finds a least recently used stale entry if there is one |
| FakeIp.FakeIPStore.Rebind | internal/networkruntime/tun_fakeip.go:79-84 | moving a shared entry to another name keeps both maps inverse |
| FakeIp.FakeIPStore.Assign | internal/networkruntime/tun_fakeip.go:65-93 | known name, next address, least recently used stale one, or refusal, with both maps inverse throughout and no wrap-around |
| FakeIp.FakeIPStore.LookupDestination | internal/networkruntime/tun_fakeip.go:100-113 | the binding of the address, refreshed |
| FakeIp.RouteDestination | internal/networkruntime/tun_dns.go:41-54 | a known fake address is shown as its name and dialled as its resolved address or name |
| FakeIp.Sizes | internal/networkruntime/tun_fakeip.go:24-31 | both maps have next - (base+2) entries, and names and addresses are one-to-one |
| Config.CollectChanges | daemonconfig/lifecycle.go:92-121 | appends exactly the paths at which the two values differ, in field order |
| Config.ChangedEmpty | daemonconfig/lifecycle.go:92-121 | no path is reported exactly between equal values |
| Config.ChangedUnder | daemonconfig/lifecycle.go:98-109 | every path below a named struct starts with that name and a dot |
| Config.Classified | daemonconfig/lifecycle.go:77-90 | core_restart is reported exactly if log, control, auto-start, state or TUN differ, live exactly if the mode does, session_restart exactly if anything else does |
| Config.Changes | daemonconfig/lifecycle.go:38-47 | one entry per differing path with its requirement, sorted by path; none exactly between equal configurations |
| Config.CandidateAgrees | daemonruntime/controller.go:333-341 | going to the candidate needs no core restart, and what it leaves pending needs nothing else |
| JsonMerge.MergeObject | daemonconfig/lifecycle.go:142-152 | the key-by-key update computes the merge |
| JsonMerge.MergeIdempotent | daemonconfig/lifecycle.go:142-152 | applying a patch twice is applying it once |
| JsonMerge.MergeUncovered | daemonconfig/lifecycle.go:142-152 | every path the patch does not cover keeps its value, or its absence |
| JsonMerge.MergeCovered | daemonconfig/lifecycle.go:150-150 | every value the patch sets, null included, is there afterwards |
| JsonMerge.MergeAssocIff | daemonconfig/lifecycle.go:142-152 | applying two patches in turn is applying their merge, for every second patch, if and only if the first nowhere replaces a nonempty object |
| JsonMerge.MergeNotAssoc | daemonconfig/lifecycle.go:142-152 | where it does, a second patch that tells the two apart |
| Controller.RunServes | daemonruntime/controller.go:40-304 | at any point of any run, whatever the manager answers: a session that is held is the manager's current one, its start succeeded, it was made for the active configuration up to resume state and mode with a resume state that fits, and runs in the active mode; the mode is never pending |
| Controller.RunFollows | daemonruntime/controller.go:40-304 | between any two points of a run: a revision stands for one configured and an active revision for one active configuration, both only grow, and the active core part never changes |
| Controller.RunTold | daemonruntime/controller.go:227-243 | while a session is held, a valid mode change takes effect exactly if it is for that session and the session accepts it |
| Controller.Controller.ManagerStart | manager/manager.go:89-130 | the new session, with the configured or a made-up id, becomes the current one before it is started, and stays so if that fails |
| Controller.Controller.ManagerSetMode | manager/manager.go:242-248 | only the current session can be told, by its id |
| Controller.Controller.CacheResumeState | daemonruntime/controller.go:358-363 | the resume state of the current session, by its id, or nothing new |
| Controller.RunCatchesUp | daemonruntime/controller.go:128-210 | after a successful apply or session start every pending change needs a core restart |
| Controller.DoKeeps | daemonruntime/controller.go:128-304 | every operation, failing or not, keeps that a held session runs the active configuration |
| Controller.DoFailed | daemonruntime/controller.go:128-304 | a failed operation leaves both configurations and revisions, and all else but the resume state and the manager's session; only a failed apply changes the session that is held, which then runs the active configuration again, or is lost exactly if both starts failed |
| Controller.SelectedFor | daemonruntime/controller.go:306-331 | whatever the policy, a session is only given a resume state that fits it |
| Controller.CaughtUpIff | daemonconfig/lifecycle.go:38-47 | caught up means exactly that only core_restart changes are pending |
| Controller.NeedsCoreRestart | daemonruntime/controller.go:259-275 | the check on the change list is a check on the core parts |
| Controller.Controller.Initialize | daemonruntime/controller.go:40-77 | the whole new state and error for every configuration and answer of the manager |
| Controller.Controller.SetConfig | daemonruntime/controller.go:245-304 | the same, refused for core changes exactly if the core parts differ; setting and reloading differ in whether that is checked |
| Controller.Controller.Accept | daemonruntime/controller.go:276-304 | behind the checks: the mode at once, the rest but for the core part without a session; the active revision moves exactly if the active configuration does |
| Controller.Controller.ApplyConfig | daemonruntime/controller.go:128-173 | the whole new state for each answer of the two starts: candidate, rollback, or no session |
| Controller.Controller.Restart | daemonruntime/controller.go:150-173 | the same behind the checks |
| Controller.Controller.SelectResume | daemonruntime/controller.go:306-331 | the resume state by policy, or its error |
| Controller.Controller.StartSession | daemonruntime/controller.go:175-210 | the whole new state: guards in order, resume choice, start, activation |
| Controller.Controller.Stop | daemonruntime/controller.go:212-225 | forgets the session exactly if it is the one stopped; the resume state is cached in any case |
| Controller.Controller.SetRoutingMode | daemonruntime/controller.go:227-243 | the mode of the given session, then of both configurations, or nothing |
| NetworkRuntime.EqualRoutePrefixes | internal/networkruntime/routes.go:72-82 | true exactly for equal route lists |
| NetworkRuntime.RoutesFor | internal/networkruntime/tun.go:345-360 | all given routes stay, and with DNS hijacking some route covers the resolver |
| NetworkRuntime.RouteAddressesFor | internal/networkruntime/tun.go:345-360 | the loop adds a host route exactly if no route contains the resolver |
| NetworkRuntime.TunUpdateKeeps | internal/networkruntime/tun.go:362-385 | after an update the device routes what is stored, unless a working service lost its rollback to an expected close, and only then not |
| NetworkRuntime.TunService.UpdateRouteAddresses | internal/networkruntime/tun.go:362-385 | new routes stored and routed; or the old ones kept and, by how the rollback went, routed again, a failed service, or unknown device routes |
| NetworkRuntime.TunService.HandleDeviceError | internal/networkruntime/tun.go:449-464 | marks the service failed unless it is closed or the error is an expected close |
| NetworkRuntime.InstallKeeps | internal/networkruntime/runtime.go:283-306 | installing keeps delegates, backend and stored routes of one piece; a refused candidate leaves all of them as they were; the device routes agree afterwards exactly if no rollback was lost |
| NetworkRuntime.Runtime.InstallLocked | internal/networkruntime/runtime.go:283-306 | the critical section of a replacement, with the backend it leaves to be closed |
| NetworkRuntime.Runtime.ReplaceVPN | internal/networkruntime/runtime.go:277-313 | success: the candidate runs and only the backend before it was closed; failure: it has a cause, everything is unchanged and only the candidate was closed |
| NetworkRuntime.Runtime.FailTUN | internal/networkruntime/runtime.go:517-529 | records the failure once, unless closed |
| NetworkRuntime.Runtime.Close | internal/networkruntime/runtime.go:397-421 | closes the services, the outbound and the backend in use, once |
| NetworkRuntime.StepKeeps | internal/networkruntime/runtime.go:277-421 | every step of replacements, failures and the close keeps: each backend is in use, in one thread's hands, or closed once |
| NetworkRuntime.RunAgrees | internal/networkruntime/runtime.go:277-327 | in every reachable state: while open, outbound, resolver and backend are one and its routes are those the runtime and the TUN store; no backend was closed twice; the one in use is open |
| NetworkRuntime.RunTunOk | internal/networkruntime/tun.go:362-385 | in every run up to a lost rollback a working device routes what the TUN stores |
| NetworkRuntime.LostRollback | internal/networkruntime/tun.go:449-464 | a run of two steps after which an open runtime with a working TUN does not know what its device routes |
| NetworkRuntime.RunDrained | internal/networkruntime/runtime.go:397-421 | after the close, with no replacement under way, every backend ever built was closed exactly once |
| AuthBroker.ValidateChallenge | core/auth.go:68-93 | accepts exactly the challenges with an id, a known kind, a bounded image, distinct nonempty choices, and a choice to select from |
| AuthBroker.ValidateResponse | core/auth.go:95-124 | accepts exactly the responses that name the challenge, skip only with leave, and carry a listed choice or a value |
| AuthBroker.AuthBroker.HandleLocked | manager/manager.go:426-432 | registers a challenge unless its id is pending |
| AuthBroker.AuthBroker.RespondLocked | manager/manager.go:469-484 | claims a pending, unanswered challenge for a valid response |
| AuthBroker.AuthBroker.CancelLocked | manager/manager.go:487-492 | gives a claim back only if the challenge is still the pending one |
| AuthBroker.StepKeeps | manager/manager.go:417-497 | every step of every handler and responder keeps the broker's invariant |
| AuthBroker.RunSafe | manager/manager.go:417-497 | in every reachable state no instance was sent two responses, a responder with a claim finds the slot empty, and what Handle returned validates against its own challenge |
| AuthBroker.RunOneSuccess | manager/manager.go:468-497 | two successful respond calls never belong to one pending instance |
| EventService.UpdatePendingAuth | control/v1/service.go:329-348 | the switch and the clearing loop compute the new table |
| EventService.ClearSession | control/v1/service.go:350-356 | removes exactly the challenges of the session |
| EventService.PendingIff | control/v1/service.go:329-356 | a challenge is pending exactly if some event asked for it and nothing later asked again, completed it or cleared that event's session; the table holds that event |
| EventService.BroadcastKeeps | control/v1/service.go:315-327 | a broadcast extends what each live subscriber sees by one event, or ends it |
| EventService.StepOk | control/v1/service.go:252-374 | every operation keeps the table and what every channel ever made has seen |
| EventService.RunAfter | control/v1/service.go:252-374 | after any script: the broadcasts made, the subscriptions that returned and whether the service blocked are those the script determines |
| EventService.RunSees | control/v1/service.go:252-374 | at any point of any script each subscription got what was pending when it came and then every broadcast without a gap, all of them while it lasts; its channel was closed once if it ended and not before |
| EventService.RunEnds | control/v1/service.go:315-374 | a subscription ends exactly when it is removed, all are closed, or a broadcast finds its buffer full |
| EventService.SubscribeBlocks | control/v1/service.go:252-261 | for every n a script that leaves n challenges pending; a subscription then blocks exactly if n is above 128 |
| EventService.StuckStays | control/v1/service.go:252-374 | once one has blocked, nothing is broadcast and no subscription returns, whatever is asked |
| EventService.Service.Subscribe | control/v1/service.go:252-271 | event by event into a new bounded channel: it ends up with the pending challenges, each once, or, if it fills up before, the call never returns; that is with more than 128 of them |
| EventService.Service.Fan | control/v1/service.go:319-326 | the loop gives the event to every channel with room and closes and drops the full ones |
| EventService.Service.Broadcast | control/v1/service.go:315-327 | the event is recorded, and exactly the subscribers with a full buffer are dropped |
| EventService.Service.RemoveSubscriber | control/v1/service.go:358-365 | closes a channel that is still subscribed and no other |
| EventService.Service.CloseSubscribers | control/v1/service.go:367-374 | closes every channel still subscribed |
| EventService.Drive | control/v1/service.go:252-374 | performing any script on a new service is a run in the sense of the three lemmas |
| Session.PathRises | core/state.go:23-71 | along the transition table a session never goes back |
| Session.RepeatsOnlyRunning | core/state.go:23-89 | between two visits of one state there is only ready and reconnecting |
| Session.StoppingAllowed | core/state.go:23-71 | every state is stopping, stopped, or may go to stopping |
| Session.Session.Transition | internal/atrustruntime/session.go:432-444 | moves exactly along the table; the states passed form a path of it |
| Session.Session.Install | internal/atrustruntime/session.go:334-378 | ready exactly if still reconnecting and not cancelled, and then without an error |
| Session.Session.RecordFailure | internal/atrustruntime/session.go:450-455 | records the error and reads the state |
| SessionRuns.DoKeeps | internal/atrustruntime/session.go:96-542 | every step of setup, watching, reconnecting, failing and closing keeps the session's invariant |
| SessionRuns.RunPath | internal/atrustruntime/session.go:432-444 | in any run the states passed form a path of the table, and no transition that close asks for is refused |
| SessionRuns.RunFailed | internal/atrustruntime/session.go:450-465 | after failWith the error is recorded, every runtime and network made is closed, and the session is failed exactly if no close has asked for stopping, else stopping or stopped; it is failed at no other time |
| SessionRuns.RunClosed | internal/atrustruntime/session.go:467-542 | after close the session is stopped, and once the goroutine working on it has ended every runtime and every network ever made has been closed |
| SessionRuns.RunStays | internal/atrustruntime/session.go:467-542 | and it stays stopped |
| SessionRuns.RunAttended | internal/atrustruntime/session.go:167-307 | no session is left reconnecting unless its context was cancelled, and a watched one has no error |
| SessionRuns.RunSettles | internal/atrustruntime/session.go:96-165 | unless it is being closed, a session enters every stage of its setup and gets ready after it |
| SessionRuns.CloseBeatsFailure | internal/atrustruntime/session.go:450-458 | a run of six steps in which a close between the two critical sections of failWith leaves the session stopping |
| Session.Events.Emit | internal/atrustruntime/session.go:554-567 | with readers taking events at any time the last send finds room, and the buffer stays the newest of the emitted events |
| Session.ReconnectDelay | internal/atrustruntime/session.go:380-392 | none for the first attempt, then min(30, 2^(n-2)) seconds |
| Resources.CompareNumeric | dial/vpn_outbound.go:94-95 | on byte strings of one length the lexicographic order is the numeric one |
| Resources.MatchesResources | dial/vpn_outbound.go:80-101 | finds a match exactly if the connection passes: the resolved name's own resource fits or some resource of the list admits the destination |
| Resources.FindRoute | client/atrust/l3tunnelpacket.go:40-52 | the lowest matching index, or none |
| Resources.TcpResourceFor | client/atrust/tcptunnel.go:314-343 | the ids of the resolved name's resource, else of the highest matching index, else none |
| Resources.ServesIsAdmits | client/atrust/tcptunnel.go:329-340 | the TCP tunnel's test is the outbound's for TCP |
| Resources.MatchersAgree | dial/vpn_outbound.go:92-105 | on sixteen-byte IPv4 bounds the outbound's test, the TCP tunnel's, the L3 tunnel's and the numeric one are the same |
| Resources.MixedRange | client/atrust/parse.go:139-152 | a range that ends in an IPv6 address admits nothing and routes exactly the sixteen-byte numbers in it |
| Resources.MixedRangeSplits | client/atrust/parse.go:139-152 | one such range by which the L3 tunnel routes every IPv4 destination and the outbound admits none |
| Resources.ParsedAgree | client/atrust/parse.go:116-178 | on everything the parser lets in, admitted is exactly routed by a resource that ends in an IPv4 address |
| Resources.ListsAgree | client/atrust/l3tunnelpacket.go:40-52 | on lists of IPv4 resources outbound and L3 tunnel find a match for the same destinations |
| Resources.ParsedListsAgree | client/atrust/parse.go:116-178 | the same for any list the parser makes, counting the resources that end in an IPv4 address |
| Resources.AddStaticDNSResources | internal/networkruntime/routes.go:56-70 | the client's list followed by one resource per IPv4 record |
| Resources.StaticAdmits | internal/networkruntime/routes.go:60-66 | a record's resource admits its own address, on every port and network, and no other |
| Resources.StaticAdmission | internal/networkruntime/routes.go:56-70 | the outbound admits exactly what the client's own list routes and the recorded addresses |
| Resources.ParsedAdmission | internal/networkruntime/routes.go:56-70 | the same over any list the parser makes |
| Resources.StaticOnly | internal/networkruntime/routes.go:56-70 | a record outside the client's list passes the outbound, no route of the L3 tunnel covers it, and the TCP tunnel has a resource for it exactly if the resolved name brings its own |
| Resources.UnservedIff | client/atrust/tcptunnel.go:314-343 | exactly when a connection that passes has no resource in the TCP tunnel |
| Resources.Payload | internal/zctcpip/ip.go:33-35 | the payload slice of a valid packet of any length is in bounds |
| Resources.ValidExactly | internal/zctcpip/ip.go:49-56 | up to 65535 bytes validity is that of section 3.1 of RFC 791; a buffer of 65536 bytes is always refused |
| Resources.ProcessIPV4 | client/atrust/l3tunnelpacket.go:13-58 | malformed and unsupported packets are refused by their own error; otherwise the lowest matching resource, or not found |
| Resources.PacketAdmitted | client/atrust/l3tunnelpacket.go:13-58 | the outbound would admit the destination of a TCP or UDP packet exactly if the packet matches a resource that ends in an IPv4 address |

## Left out

- HTTP login flows, the REST and JSONL servers, SOCKS, HTTP and DNS listeners, TLS, gVisor and TUN glue: I/O around unseen libraries.
- JSON, YAML, base64 and HMAC themselves; decoded values are taken as given, undecodable bodies are None.
- Config.CollectChanges: the check that both values have the same Go type never fires for two configurations and is not modelled.
- Configuration validation: whether a configuration is valid is a parameter of the controller's operations.
- Controller.Controller.Initialize: revision counters are unbounded integers, not uint64, here and in the other operations; direct calls of the embedded manager's Start are not part of the runs; whether a session can be made and started, and whether it accepts a mode, are answers of the manager.
- Conntrack.ConntrackMgr.GetOrCreate: ids are fresh while fewer than 2^64 entries were made; the clock reading is a parameter.
- Conntrack keys are opaque; that the key of a flow leaves out its protocol is not modelled.
- ConntrackProtocol: a lookup or creation is one step. Closing a channel happens outside the table's lock and may fall between the scans of one cleanup; closes are monotone and no other step outside the lock touches the indexes, so the cleanup behaves as if it took place at one point, and "completed" means completed at that point.
- ConntrackProtocol.HandleAuthResp: the classification of an error as an invalid session is not modelled.
- SystemDns: the parsing of networksetup output is a parameter.
- DnsController.Controller.Apply: DNS settings edited by others while the tunnel is up are not modelled.
- FakeIp: names arrive normalised and addresses as 32-bit numbers; the normalisation itself is not modelled.
- NetworkRuntime: the decomposition of address ranges into prefixes is not modelled, routes are opaque lists; the TUN update runs as one step because the runtime holds its lock throughout.
- SessionRuns: the report close makes of the errors it met, the replacement of a runtime's client by a resource refresh, and events sent past emit by the routing-mode change are not modelled.
- AuthBroker: the event emission of Handle is a step that succeeds or fails.
- Node selection by latency, traffic counters, DNS caching, the UDP flow limit: they would add easy members, or promise a bound the code does not keep under interleaving.
