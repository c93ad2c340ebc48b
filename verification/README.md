# Verified model of the SRT I/O bridge

bilbycast-libsrt-rs drives Haivision's libsrt from one I/O thread and hands its sockets to an async
application. This project models that bridge in Dafny and proves what it is built to keep. Nothing
here calls libsrt: libsrt is the environment, and every answer it may give is an input. Times are
natural numbers of milliseconds.

## What is modelled

**Replacing stranded group members** (`srt-transport/src/epoll_bridge.rs`). libsrt's connect call can
write a group member Pending after its handshake has already finished, and then never sends on it.

- `ConnectRace` is that race, act by act: the connect call (read, then write), the handshake (a
  momentary BROKEN, then Idle, then the live state), data, failures, and the bridge's look (live state
  first, listing second), in every interleaving.
- `Watch` is one look's judgement and its clocks; `RepairPlan` chooses one of six plans and shows why
  the plans that wait never wait on each other.
- `CheckGroup` is one pass over the watched members: the class `GroupBridge` changes its fields the way
  the source does (the `swap_remove` loop, repairs that close and spawn while the listing stays as it
  was read), and each method is proved equal to a function from state to state. `Look` and `CheckPass`
  are those functions. The state carries logs of every member ever spawned, closed and released, the
  set of members in flight, and a journal.
- `Journal` is that journal: every member begun, handed a chain and closed, and every reading of one,
  with its time, in the order they happened. It tells a member's clocks, and when a member is open beside
  one it was begun to replace, or was handed, without looking at the bridge's own fields.
- `LookAnswers` gives every case of a look, and every repair, by what was read of the member: its live
  state, its row, its clocks, the group's type. It also fixes how runs start, what a re-add adds and what a
  pass is.
- `GroupLaws`, `PassSafety`, `Lingering`, `PassTheorems`, `Clocks` and `Overlaps` are about single looks
  and whole passes; `GroupRuns`, `GroupTheorems`, `RunClocks`, `RunOverlaps`, `Released`, `Endpoints`
  and `Siblings` about runs: passes, application re-adds and failing members, in any order and number, at
  times that do not go back.
- `PeerRule`, `Families` and `BondCount` are about the rule for what the peer lists: exactly when a look
  empties it, which open members may share an endpoint, and exactly when they outnumber the bond.
  `LoneBond` and `BondOfTwo` are runs that break it.
- `ConnectGroup` is the connect call that starts a run, with its claim loop.

**Life of a socket on the I/O thread** (`epoll_bridge.rs`, `listener.rs`, `socket.rs`).

- `AcceptOwnership` follows accepted connections from the bounded accept channel, through an accept
  that may be abandoned part-way, to the socket that closes them, with commands reaching the I/O thread
  later and in order.
- `HookTrace` is what libsrt and the allocator are asked to do about access-control hooks, one act at a
  time: allocate a slot, arm a hook with it, listen, close, free. After every act everything must be
  safe.
- `SocketMap` is the map of sockets: registration, listening, connecting, epoll events, the state poll,
  the zombie sweep, closing and shutdown, with pending connect replies, and the acts each step is made
  of, in their order. Its class `IoThread` carries out the steps with the most branching.
- `SocketAnswers` gives what every event does to every entry of the map, which connects it answers and
  whether with Ok, by the entry found and by what libsrt answers.
- `SendDrain` is the send drain over a backlog and a channel.

**Two text formats** (`srt-protocol`). `StreamId` is the Stream ID of SRT Access Control (Appendix B.1,
"General Syntax", of draft-sharabayko-srt-01); `Fec` is the packet-filter string on a 64-bit host, with
decimal printing and parsing. `FecParams` gives what a packet-filter string says, parameter by parameter,
and what it is refused for; the last part of `StreamId` does so for Stream IDs. `Text` holds the splitting,
joining and trimming both use.

## What libsrt and the application are assumed to do

Each assumption is a predicate in the model, named here with where it is used.

- `PassSafety.Faithful`: libsrt stores one token with each id; a reconnect leaves a member never seen
  before, with its endpoint's token; a member the bridge has closed does not read CONNECTED; and a
  member in flight is listed in flight, unless it was spawned in the same pass, after the listing was
  read. "In flight" is a set that members leave (`died`, `Fail`) and never re-enter.
- `GroupRuns.Plausible`: the same for a whole pass and for a re-add, which reads its own listing; and
  time does not go back from one event to the next.
- `GroupRuns.GoodStart`: the endpoints a group is connected with have distinct tokens;
  `ConnectIsGoodStart` derives it from what `Connect` ensures.
- `RepairPlan.UniqueIds`: a listing has one row per id; used for waits, and by `UnwatchedSibling`.
- `SocketMap.Orderly`: one registration and one Connect per id, a listener registered before it listens,
  fresh slots and replies, and a socket told to close never reads as connecting. Two lemmas give
  exactly when the first is needed.

Readings taken within one look (`Answers`) are separate instants: the live states read for a sibling,
for members up at the peer and for members listed Broken may all differ.

## Findings

- The prose rule "the peer must never list more members than the bond has, nor none"
  (`epoll_bridge.rs:2079`) is false of the code, both ways. `PeerListsMore` is a run of a bond of one,
  every member of which strands, in which a pass reads two, three and then four members CONNECTED with
  none closed; `PeerListsNone` goes on to the pass that closes all four.
  - More: `PeerListsMoreExactly`, and `PeerListsMoreInPass` at every look of a pass, give the condition
    for any set of open members the peer may list. They outnumber the bond exactly when more of them are
    spare than endpoints are absent from the list. Spare is a member listed beside a later one of the same
    watched member's chain, or beside a later one of an endpoint that the application has asked for again,
    with one of the two failed. So there are four routes to it: a replacement begun first
    (`OverlapBeginsExactly`, `OverlapSize`), a chain handed to a sibling, a re-add that joins an overlap,
    and a re-add beside a member listed Broken on a connected socket. `ReAddJoinsOverlap` lists three
    members of a bond of two with a chain of one, and `ReAddBesideBroken` does with no overlap at all. The
    overlaps themselves begin only alone (`EveryOverlapIsAlone`).
  - None: a look empties the peer when it closes a member that read CONNECTED and leaves none open that
    does, members listed Broken counting while they are watched, as `weigh_others` says.
    `PeerIsEmptiedExactly` gives the guards under which, and only under which, one does. The members
    closed are the last up, and: the member looked at is gone, or is listed up with its linger over while
    its own socket is read dead (`DeadUpEmpties`); or its handshake is dead past its deadline; or its
    repair joins an unwatched sibling, gives up, or is granted no replacement. Every other look that
    closes a member read CONNECTED leaves an open one that is.
- `FecConfig::parse` accepts `rows:-9223372036854775808`, whose 2^63 rows print as a string that no
  longer parses. It is the only parsed config that does not survive printing (`ParsedIsInRange`,
  `MinimumRowsDoNotReturn`).
- `StreamIdInfo::parse` keeps a bare Stream ID as its resource unchecked; one with a comma or a trailing
  blank does not survive printing (`BareRoundTrip` has the exact condition, `CommaIsLost` the input "a,b").

## Model

| member | source | states |
|---|---|---|
| ConnectRace.InvHolds | srt-transport/src/epoll_bridge.rs:2290-2304 | in every interleaving of connect write, handshake, data, failures and looks: a live CONNECTED read first guarantees the listing shows the handshake's write, unless the connect call wrote over it |
| ConnectRace.OverwrittenNeverSends | srt-transport/src/epoll_bridge.rs:1939-1946 | a member written over after its handshake stays so in every continuation; its send state is Pending or Broken, and Broken never heals |
| ConnectRace.StrandedIsFinal | srt-transport/src/epoll_bridge.rs:1933-1946 | an unforced Stranded verdict is read only of such a member, whatever happens afterwards libsrt never sends on it |
| ConnectRace.OverwriteIsRead | srt-transport/src/epoll_bridge.rs:1961-1987 | exactly when a connected member reads Stranded, Broken on a live socket, Confirmed or Masked, a Running one Masked in a backup group only; an overwritten one without data reads Stranded or Broken on a live socket, and in a backup group never Confirmed |
| Journal.ClockIsStartOfRun | srt-transport/src/epoll_bridge.rs:2008-2018 | the stranding clock told by a journal runs exactly while the last readings of a member strand, from the first of them |
| RunClocks.RepairNeedsGraceOrDeadline | srt-transport/src/epoll_bridge.rs:2406-2503 | over every run, a look repairs a member or puts its repair off if and only if every reading of it in the journal for at least the last 500 ms is stranding, or it still shakes hands on a live socket at or past the deadline set by how it began |
| RunClocks.ClocksHold | srt-transport/src/epoll_bridge.rs:2400-2511 | in every reachable state the stranding clock, the linger and the connect deadline of every watched member are those its journal tells: no pass, hand-over, repair or re-add sets, moves or forgets one |
| Clocks.LookClocks | srt-transport/src/epoll_bridge.rs:2407-2505 | one look keeps every watched member's clocks as the journal tells them |
| RunClocks.ClosesWhenDue | srt-transport/src/epoll_bridge.rs:2419-2503 | over every run, a look closes only members of its chain: under an up member only after its linger, else only when it is gone, has stranded for the grace, or is past its deadline, all told by the journal |
| RepairPlan.PlansExactly | srt-transport/src/epoll_bridge.rs:2112-2163 | each of the six plans exactly when: close first and reconnect if and only if nothing else carries the token, fewer than 3 repairs are spent and someone outside the chain is up; a watched sibling joined if and only if someone is; waiting only if no one is; which sibling, the first spawned in the pass or else the first listed |
| RepairPlan.OverlapsOnlyAlone | srt-transport/src/epoll_bridge.rs:2112-2163 | make before break if and only if budget is left, no other member carries the token, none outside the chain is at the peer, and no other watched member is in its handshake; giving up if and only if the budget is spent and nothing carries the token |
| RepairPlan.CloseFirstHasWitness | srt-transport/src/epoll_bridge.rs:2166-2206 | a close-first repair has a member outside the chain read on a connected socket, or joins a member outside it that is in flight and not watched |
| RepairPlan.HandshakeStopsOverlap | srt-transport/src/epoll_bridge.rs:2208-2224 | while another handshake runs no repair overlaps or hands over |
| RepairPlan.HandedSiblingIsWatched | srt-transport/src/epoll_bridge.rs:2246-2255 | a sibling asked to take over is watched or just spawned, carries the same token, and is found when the chain is handed to it |
| RepairPlan.HandsOnlyAlone | srt-transport/src/epoll_bridge.rs:2112-2127 | a chain is handed over only with no member outside it up and none in its handshake |
| RepairPlan.WaitDescends | srt-transport/src/epoll_bridge.rs:2128-2163 | every member told to wait has a reason, a handshake inside its deadline or a Broken-on-connected member, and every reason ranks strictly below it |
| RepairPlan.WaitsNeverCycle | srt-transport/src/epoll_bridge.rs:2155-2160 | a chain of waits has at most three members and never returns to one |
| RepairPlan.DeadlinesEndWaits | srt-transport/src/epoll_bridge.rs:2098-2110 | once all deadlines have passed a member waits only on one listed Broken, which itself waits on nothing |
| RunClocks.WaitEndsByDeadlines | srt-transport/src/epoll_bridge.rs:2341-2347 | over every run, once the deadlines of all members begun up to some instant are past, a repair is put off only for a member begun since, or for one listed Broken on a connected socket; and a member that is so listed itself only for one begun since |
| CheckGroup.GroupBridge.constructor | srt-transport/src/epoll_bridge.rs:1040-1048 | every member the connect left is watched from now |
| CheckGroup.GroupBridge.AddGroupMember | srt-transport/src/epoll_bridge.rs:1795-1823 | a re-add is refused, absorbed, or adds one watched member, exactly as the specification of runs says |
| CheckGroup.GroupBridge.CloseMembers | srt-transport/src/epoll_bridge.rs:2280-2284 | the loop closes each id once, in order |
| CheckGroup.GroupBridge.RepairStranded | srt-transport/src/epoll_bridge.rs:2526-2637 | the edits of `watched`, `spawned` and the journal, closes and reconnects in their order, refine the specification of each plan, failed reconnects included |
| CheckGroup.GroupBridge.EndLinger | srt-transport/src/epoll_bridge.rs:2419-2432 | superseded members are closed only once the linger fixed at the first up reading has run out |
| CheckGroup.GroupBridge.TakeStep | srt-transport/src/epoll_bridge.rs:2434-2503 | each step moves the index or removes the member by `swap_remove`, as specified |
| CheckGroup.GroupBridge.LookAtMember | srt-transport/src/epoll_bridge.rs:2408-2504 | one turn of the loop refines one look |
| CheckGroup.GroupBridge.ReadStates | srt-transport/src/epoll_bridge.rs:2401-2403 | asks libsrt for every live state, in order |
| CheckGroup.GroupBridge.CheckGroup | srt-transport/src/epoll_bridge.rs:2385-2511 | every live state is asked for before the listing, and the whole pass refines the specification that the theorems below are about |
| LookAnswers.ReadingsAreVerdicts | srt-transport/src/epoll_bridge.rs:1961-1987 | from the live state and the first row listing a member: gone, stranded, up, to be looked at again, each exactly when |
| LookAnswers.UpIsReleased | srt-transport/src/epoll_bridge.rs:2415-2443 | a due member listed connected and Idle, or Running unless in a backup group, is released and leaves the watched ones, once what it supersedes is closed; Running in a backup group it stays, due again at now + 1000; it closes what it supersedes the longer latency and 1000 after its first such reading |
| LookAnswers.GoneIsReleased | srt-transport/src/epoll_bridge.rs:2434-2460 | a due member not listed, or listed Broken on a socket not connected, is released and all it supersedes closed |
| LookAnswers.StrandedIsRepaired | srt-transport/src/epoll_bridge.rs:2008-2020 | a due member on a connected socket listed Broken, Pending or connecting is left alone for 500 ms from its first such reading, and then repaired by its plan |
| LookAnswers.HandshakeIsAwaited | srt-transport/src/epoll_bridge.rs:2031-2042 | any other stays until its deadline; past it, it is closed with what it supersedes, and not released, if its socket is dead, and repaired by its plan if not |
| LookAnswers.LookRepairs | srt-transport/src/epoll_bridge.rs:2526-2637 | what each plan leaves: the chain closed, handed to the first member with the sibling's id, or superseded by the one member connected, to the same endpoint, one repair deeper, with its own deadline |
| LookAnswers.NotDueIsPassed | srt-transport/src/epoll_bridge.rs:2408-2411 | a member not due is passed over, unread and unchanged |
| LookAnswers.PassIsItsLooks | srt-transport/src/epoll_bridge.rs:2391-2402 | a pass at which none is due changes nothing; any other begins with every live state read afresh, and ends with the members its looks leave and connect |
| LookAnswers.StartWatchesAll | srt-transport/src/epoll_bridge.rs:1040-1048 | every member the connect left is watched, in order, with its endpoint and deadline |
| LookAnswers.AddsExactly | srt-transport/src/epoll_bridge.rs:1795-1823 | a re-add adds one member with that endpoint if and only if the group is up, none listed carries the token on a live socket, and libsrt leaves one; otherwise it changes nothing |
| Endpoints.OnlyWhereAsked | srt-transport/src/epoll_bridge.rs:337-341 | in every run every member watched, replacements included, is connected to an endpoint the application gave, address and token together |
| GroupLaws.LookConserves | srt-transport/src/epoll_bridge.rs:2407-2505 | for every id and whatever libsrt answers, a look changes times watched + superseded + closed + released minus times spawned by nothing |
| PassSafety.LookFate | srt-transport/src/epoll_bridge.rs:2407-2505 | over a look a superseded id stays superseded or is closed; a watched id stays watched, is superseded, is closed, or is the one looked at, read up or gone, and released |
| Lingering.LookCloses | srt-transport/src/epoll_bridge.rs:2385-2511 | a look closes only members of the chain it looks at, only when due, and only once the clock of its verdict has run out: linger, deadline or grace |
| Lingering.LookClosesAll | srt-transport/src/epoll_bridge.rs:2419-2432 | a member gone, or up past its linger, leaves nothing it superseded open |
| Journal.LingerClock | srt-transport/src/epoll_bridge.rs:362-363 | the linger told by a journal is set by the first up reading of a member that supersedes any, and never moves |
| RunClocks.LingerRunsOut | srt-transport/src/epoll_bridge.rs:2419-2432 | over every run, a due look at an up member closes all it supersedes, or nothing: all exactly when both latencies read at its first up look, and a second, have passed |
| PassSafety.SpawnedStopsOverlap | srt-transport/src/epoll_bridge.rs:2208-2212 | after a spawn every later plan of the pass closes first, joins, gives up or waits |
| PassSafety.RepairKeepsFlight | srt-transport/src/epoll_bridge.rs:2246-2262 | a repair leaves all members in flight for one token in one chain |
| PassSafety.LookKeeps | srt-transport/src/epoll_bridge.rs:2407-2505 | every look keeps the whole invariant: account, tokens, depths, fresh replacements, one flight per token |
| PassTheorems.LooksKeep | srt-transport/src/epoll_bridge.rs:2407-2506 | any number of looks keep it |
| Overlaps.OverlapsExactly | srt-transport/src/epoll_bridge.rs:2580-2615 | a look lets a member take over open members exactly when it makes before it breaks and the replacement is granted, or hands its chain over; closing first, the whole chain is closed by then |
| Overlaps.MakeBeforeBreakIsAlone | srt-transport/src/epoll_bridge.rs:2079-2096 | whenever a replacement a look begins, or a sibling it hands a chain, is open beside a member it replaces: the chain carries one token, no member outside it listed unbroken, or watched and listed Broken, was read connected, no other watched member shakes hands, and nothing was spawned before in the pass |
| RunOverlaps.EveryOverlapIsAlone | srt-transport/src/epoll_bridge.rs:2079-2096 | at every instant of every run at which a replacement, or a sibling handed a chain, is open beside a member it replaces, it came to that by such a look |
| PassTheorems.CloseFirstKeepsThePeer | srt-transport/src/epoll_bridge.rs:2541-2584 | a repair that closes first because another is up leaves a member outside the chain that was read connected for this very plan and that no repair of this or an earlier pass has closed |
| Overlaps.SpawnedClosesFirst | srt-transport/src/epoll_bridge.rs:2208-2212 | once a pass has spawned, its later repairs close first, join a sibling, give up or wait |
| Overlaps.OneOverlapPerPass | srt-transport/src/epoll_bridge.rs:2238-2263 | at every instant of a pass, of the replacements it has begun only its very first is open beside a member it replaces, and a sibling only if it was handed the chain before any was begun |
| PeerRule.PeerIsEmptiedExactly | srt-transport/src/epoll_bridge.rs:2081-2085 | the guards, by verdict, deadline, linger, budget, sibling, reconnect and the readings of the rest, under which and only under which a look closes a member read CONNECTED and leaves no open one that is |
| PeerRule.UpEmptiesOnlyDead | srt-transport/src/epoll_bridge.rs:2419-2432 | a look at a member listed up empties the peer only if its own socket does not read CONNECTED |
| PeerRule.DeadUpEmpties | srt-transport/src/epoll_bridge.rs:2419-2432 | such a look: a replacement listed up whose socket is dead closes the one member that reads CONNECTED |
| PeerRule.UpStaysOpen | srt-transport/src/epoll_bridge.rs:2419-2432 | a member whose verdict is up is listed connected, though its live state may read otherwise, and its look does not close it with those it superseded |
| PeerRule.OverlapBeginsExactly | srt-transport/src/epoll_bridge.rs:2112-2127 | the guards under which and only under which a look begins an overlap: a repair is due, nothing else is up or shakes hands, and a watched sibling carries the token, or none does, budget is left and libsrt grants a member |
| PeerRule.OverlapSize | srt-transport/src/epoll_bridge.rs:2087-2096 | the overlap a replacement begins is of the whole chain and one member more, all open and no two the same |
| Families.SharedEndpoint | srt-transport/src/epoll_bridge.rs:1787-1794 | over every run, two open members of one endpoint are in one watched member's chain, or one of them is not in flight and the application has asked for their endpoint again |
| BondCount.BondIsAsked | srt-transport/src/epoll_bridge.rs:2079-2096 | in every run the bond is the endpoints the application has asked for |
| BondCount.PeerListsMoreExactly | srt-transport/src/epoll_bridge.rs:2079-2096 | in every reachable state, whatever open members the peer lists outnumber the bond if and only if more of them are spare than endpoints are absent; listed plus absent is bond plus spare |
| BondCount.PeerListsMoreInPass | srt-transport/src/epoll_bridge.rs:2087-2096 | and so at every look of every pass |
| BondOfTwo.ReAddJoinsOverlap | srt-transport/src/epoll_bridge.rs:1795-1823 | a run of a bond of two with three members in flight, in which no member supersedes more than one |
| BondOfTwo.ReAddBesideBroken | srt-transport/src/epoll_bridge.rs:1787-1794 | a run of a bond of two with three open members, two of them read CONNECTED, in which none took over from another |
| LoneBond.PeerListsMore | srt-transport/src/epoll_bridge.rs:2079-2096 | a run of a bond of one in which a pass reads two, three and four members connected, none closed |
| LoneBond.PeerListsNone | srt-transport/src/epoll_bridge.rs:2081-2085 | that run goes on to a pass that closes all four |
| Siblings.UnwatchedSibling | srt-transport/src/epoll_bridge.rs:2051-2055 | over every run, a member in flight that a repair joins without its being watched is superseded by another watched member, or was released after it read up |
| PassTheorems.EachMemberOnce | srt-transport/src/epoll_bridge.rs:2406-2506 | the `swap_remove` loop comes to every member the pass began with exactly once |
| PassTheorems.ReleasedWasRead | srt-transport/src/epoll_bridge.rs:2434-2443 | every id a pass releases was read up or gone by one of its looks |
| Released.NoneForgotten | srt-transport/src/epoll_bridge.rs:2434-2443 | over every run, the last reading of every released id found it up or gone, so a member whose last readings strand is still tracked, or closed |
| PassTheorems.LookRolls | srt-transport/src/epoll_bridge.rs:2442-2498 | a look moves exactly one member from those ahead of the loop to those looked at |
| GroupRuns.LooksSpend | srt-transport/src/epoll_bridge.rs:2580-2615 | looks never raise spawned members plus repairs left, nor repairs done plus repairs left |
| GroupRuns.AddKeeps | srt-transport/src/epoll_bridge.rs:1795-1823 | a re-add keeps the invariant of runs, budgets included |
| GroupRuns.CheckKeeps | srt-transport/src/epoll_bridge.rs:2385-2511 | a whole pass keeps the invariant of runs |
| GroupRuns.StartHolds | srt-transport/src/epoll_bridge.rs:1036-1049 | a group connected with distinct tokens starts in it |
| GroupRuns.RunHolds | srt-transport/src/epoll_bridge.rs:2341-2354 | every reachable state of every run is in it |
| GroupTheorems.EveryIdIsInOnePlace | srt-transport/src/epoll_bridge.rs:2406-2511 | in every reachable state every member ever spawned is in exactly one place: tracked, closed, or released; closed at most once; tracked by one member only |
| GroupTheorems.RepairsAreBounded | srt-transport/src/epoll_bridge.rs:97-101 | no member is over three replacements deep; the bridge spawns at most 3 members, and repairs at most 4 times, per member spawned for the application |
| GroupTheorems.OneFlightPerToken | srt-transport/src/epoll_bridge.rs:1787-1794 | members in flight for one token are always one watched member and those it supersedes, across passes and re-adds; a chain carries one token |
| GroupTheorems.SupersededUntilClosed | srt-transport/src/epoll_bridge.rs:356-361 | a member superseded at any point of a run is, at every later point, still superseded or closed by the bridge |
| ConnectGroup.Connect | srt-transport/src/epoll_bridge.rs:1679-1760 | refused with the first record's error code, or the call's; a record with an id and no error gives that id, one with an error that error; any other claims the first newly listed member with its token not given out yet, and is lost only for want of one; distinct ids reported give pairwise distinct members |
| ConnectGroup.WatchesExactly | srt-transport/src/epoll_bridge.rs:1040-1048 | the members watched are exactly those the connect left, each with its own endpoint and timeout |
| ConnectGroup.ConnectIsGoodStart | srt-transport/src/epoll_bridge.rs:1036-1048 | the members such a connect leaves start a run in its invariant |
| SendDrain.SendState.HandleSend | srt-transport/src/epoll_bridge.rs:1244-1301 | the two loops refine the specification of a drain |
| SendDrain.DrainKeeps | srt-transport/src/epoll_bridge.rs:1250-1300 | a drain keeps sent, backlog and channel together in order but for the very message whose send failed, whichever queue it came from; it leaves at most one message in the backlog unless it found more; nothing sent is taken back |
| SendDrain.DrainGoesOn | srt-transport/src/epoll_bridge.rs:1250-1300 | exactly how many messages a drain hands over, when it fails, and how many it leaves in the backlog |
| SendDrain.EnqueueAppends | srt-transport/src/socket.rs:30-41 | a message goes to the back of the channel while that holds fewer than 8192 |
| SendDrain.SendConserves | srt-transport/src/epoll_bridge.rs:1244-1301 | over every run of enqueues and drains, what was enqueued is sent, backlogged or queued in order, with exactly one message missing per failed drain |
| StreamId.Parse | srt-protocol/src/access_control.rs:98-131 | the parser's loop computes the reading the round trips are about |
| StreamId.ToStreamId | srt-protocol/src/access_control.rs:134-162 | the printer's `parts` vector computes the form they are about |
| StreamId.RoundTrip | srt-protocol/src/access_control.rs:98-162 | printing a well-formed info and parsing it gives back every field but `raw` |
| StreamId.RoundTripExactly | srt-protocol/src/access_control.rs:98-162 | an info survives if and only if it is well formed: no comma, no trailing blank in a value, extra keys not standard, without `=` and leading blank |
| StreamId.ParseThenPrintIsCanonical | srt-protocol/src/access_control.rs:98-162 | every `#!::` input parses to a well-formed info, so printing what was parsed is an idempotent canonical form |
| StreamId.BareRoundTrip | srt-protocol/src/access_control.rs:126-128 | a bare Stream ID is its own resource, and survives exactly when it has no comma and no trailing blank |
| StreamId.CommaIsLost | srt-protocol/src/access_control.rs:126-128 | "a,b" does not survive |
| StreamId.ParsesWhatIsSaid | srt-protocol/src/access_control.rs:98-131 | after `#!::`, each standard field is what the last piece for its key r, m, s, t, u or h says, other keys are kept in order, pieces without `=` say nothing; any other text is the resource |
| StreamId.PrintsInOrder | srt-protocol/src/access_control.rs:134-162 | the text is `#!::` and the pieces of the fields set, in the order r, m, s, t, u, h, and of the extra pairs |
| Text.SplitJoin | srt-protocol/src/access_control.rs:109 | splitting at a separator undoes joining with it |
| Text.JoinSplit | srt-protocol/src/access_control.rs:109 | and joining undoes splitting, for every text |
| Text.TrimsBlanks | srt-protocol/src/access_control.rs:110 | trimming takes off all blanks at either end and nothing else |
| Fec.Parse | srt-protocol/src/fec.rs:54-121 | the parser's loop with its early errors computes the reading the round trips are about |
| Fec.DecimalParses | srt-protocol/src/fec.rs:85-93 | a printed number parses back as itself exactly when it fits the integer type |
| Fec.RoundTripExactly | srt-protocol/src/fec.rs:54-136 | for every config of its type, printing and parsing gives it back if and only if cols >= 1 and 1 <= rows < 2^63, and fails otherwise |
| Fec.SetParamsInRange | srt-protocol/src/fec.rs:71-118 | whatever keys repeat, are unknown or come in any order, the parameters leave a config in range |
| Fec.ParsedIsInRange | srt-protocol/src/fec.rs:54-121 | every string that parses gives cols >= 1 and rows >= 1, and survives printing unless its rows are 2^63 |
| Fec.MinimumRowsDoNotReturn | srt-protocol/src/fec.rs:92-97 | an input that reaches 2^63 rows, whose printed form does not parse |
| FecParams.ParsesWhatIsGiven | srt-protocol/src/fec.rs:54-121 | a string is refused when blank, when it does not start with `fec`, and for the first parameter refused, with the cause; otherwise each setting is the last one given for its key, unknown keys ignored, and one not given is 10 columns, 1 row, staircase, on request |
| FecParams.SignsParse | srt-protocol/src/fec.rs:85-93 | a plus sign is read, a minus sign only for rows, in range of the type |
| FecParams.PrintsInOrder | srt-protocol/src/fec.rs:124-136 | the text is `fec` and the four settings, by name and in order, between commas |
| AcceptOwnership.HandOverKeeps | srt-transport/src/epoll_bridge.rs:1303-1336 | a new connection goes to the back of the channel exactly while the listener stands and there is room, and is closed otherwise; the ownership invariant is kept |
| AcceptOwnership.ProcessKeeps | srt-transport/src/epoll_bridge.rs:908-996 | so does processing the next command |
| AcceptOwnership.ProcessesExactly | srt-transport/src/epoll_bridge.rs:908-996 | a registration makes an entry, the listener's Close ends its listening, any other Close closes its connection and drops its entry, and nothing else changes |
| AcceptOwnership.ReapsExactly | srt-transport/src/epoll_bridge.rs:744-773 | the sweep closes the connection whose entry it takes out, and nothing else |
| AcceptOwnership.BuiltIsRegistered | srt-transport/src/socket.rs:61-75 | in every interleaving an open socket the application has been given has an entry, or its registration is on its way |
| AcceptOwnership.SendShape | srt-transport/src/listener.rs:45-117 | who lets go of a connection sends its Close in the same step |
| AcceptOwnership.RunHolds | srt-transport/src/listener.rs:34-117 | every interleaving keeps the invariant: one holder per connection, registrations before closes |
| AcceptOwnership.EveryConnectionHasAnOwner | srt-transport/src/listener.rs:73-94 | in every interleaving each open accepted connection is in the channel, in a guard, in a socket, or has its Close queued; the channel never exceeds 16 |
| AcceptOwnership.ClosedIsNeverRegistered | srt-transport/src/socket.rs:61-75 | once its Close has been processed a connection never has an entry again |
| AcceptOwnership.NothingIsLeftOpen | srt-transport/src/listener.rs:76-94 | listener and sockets dropped and commands processed, nothing accepted is open |
| AcceptOwnership.ListenerHandle.Accept | srt-transport/src/listener.rs:45-58 | an accept dropped while waiting takes nothing; dropped while building closes what it took; else the caller owns it |
| AcceptOwnership.ListenerHandle.Drop | srt-transport/src/listener.rs:88-94 | the drop closes the channel and sends the listener's Close and one per waiting connection, in order |
| AcceptOwnership.AcceptSends | srt-transport/src/listener.rs:45-58 | the atomic steps of an accept, in a row and ended at either cut, take and send what the method does with that cut |
| AcceptOwnership.DropSends | srt-transport/src/listener.rs:88-94 | the atomic steps of a drop, from the listener alive, send the listener's Close and one per waiting connection, as the method does, close the channel, and are then over |
| SocketMap.HappenKeeps | srt-transport/src/epoll_bridge.rs:657-1052 | every command, event, poll, sweep and the shutdown keep the invariant of the map |
| SocketMap.RunHolds | srt-transport/src/epoll_bridge.rs:2837-2858 | in every orderly run no dead entry holds a receive channel, replies and slots are accounted for |
| HookTrace.FreedAfterClose | srt-transport/src/epoll_bridge.rs:1077-1106 | acts each of which leaves hooks on live slots, with none freed before its socket is closed, free a slot only after the close of its socket with no arming in between |
| SocketMap.HooksReadLiveSlots | srt-transport/src/epoll_bridge.rs:1077-1106 | in every run, after every single act, inside closes, sweeps and the shutdown too, whatever hook libsrt may invoke reads a slot of its own that is allocated, and a listening socket that has a slot is armed |
| SocketMap.FreedAfterItsClose | srt-transport/src/epoll_bridge.rs:1115-1128 | in every run a slot is freed only after its socket was told to close, with no arming of it in between, and is never armed or freed again |
| SocketMap.EveryReplyOnce | srt-transport/src/epoll_bridge.rs:849-906 | each connect reply is answered once, or waits in exactly one entry; none leaves with its entry |
| SocketMap.SweepLeavesNoDead | srt-transport/src/epoll_bridge.rs:744-773 | after a sweep no ordinary socket in the map is dead, and a reply that waited in one, after an error event too, has been answered |
| SocketMap.UnconnectedGroupSurvives | srt-transport/src/epoll_bridge.rs:931-944 | a group registered before its connect stays at Init and keeps its channels through any polls, epoll events, sweeps and other sockets' commands |
| SocketMap.RegisterKeepsDeafExactly | srt-transport/src/epoll_bridge.rs:908-945 | registering keeps dead entries without a receive channel if and only if it does not find its entry already dead with nothing newer to read |
| SocketMap.RegistrationIsSafeExactly | srt-transport/src/epoll_bridge.rs:947-966 | registering a listener keeps every hook on a live slot if and only if it brings no slot or libsrt holds no hook of that id |
| SocketMap.IoThread.CloseAndRelease | srt-transport/src/epoll_bridge.rs:1115-1128 | closes in libsrt first, then drops the entry and frees its slot, in that order of acts |
| SocketMap.IoThread.SetStatus | srt-transport/src/epoll_bridge.rs:2837-2858 | a terminal status drops the receive channel, and the send channel of a socket that was live |
| SocketMap.ListeningKeeps | srt-transport/src/epoll_bridge.rs:802-804 | listening keeps the invariant of the map for a socket that has a slot only because it has been armed |
| SocketMap.IoThread.ProcessListen | srt-transport/src/epoll_bridge.rs:801-847 | arms first, listens after, in that order of acts, and releases the socket on either failure |
| SocketMap.IoThread.ProcessConnect | srt-transport/src/epoll_bridge.rs:849-906 | answers at once or stores the reply, by the state read after the call |
| SocketMap.IoThread.ProcessClose | srt-transport/src/epoll_bridge.rs:990-996 | releases the socket and answers a pending connect |
| SocketMap.IoThread.PollStates | srt-transport/src/epoll_bridge.rs:623-648 | the poll loop, in any map order, refines the specified poll |
| SocketAnswers.PollsExactly | srt-transport/src/epoll_bridge.rs:623-648 | for every id: one polled, no group at Init, ends with the state libsrt reads, NonExist if none; newly dead it loses its receive channel, and its send channel if it was live; newly Broken or Closed its pending connect is answered with an error; every other entry and reply is unchanged |
| SocketMap.IoThread.ConnectDone | srt-transport/src/epoll_bridge.rs:678-692 | the pending connect is answered and the status set, as the event specifies |
| SocketAnswers.ConnectEventAnswers | srt-transport/src/epoll_bridge.rs:678-692 | a connect done is answered Ok if and only if the state read is CONNECTED, and the entry turns to that or to Broken; without a pending connect nothing changes |
| SocketMap.IoThread.ErrorRaised | srt-transport/src/epoll_bridge.rs:704-712 | the socket is broken, a group only if it reads failed, as the event specifies |
| SocketAnswers.ErrorEventBreaks | srt-transport/src/epoll_bridge.rs:704-712 | an error breaks a socket and takes its channels, and a group only if its own state reads failed; a pending connect stays |
| SocketAnswers.ConnectsExactly | srt-transport/src/epoll_bridge.rs:849-906 | refused or read dead, a connect is answered with an error at once; read CONNECTED, with Ok; on its way, it waits in its entry |
| SocketAnswers.OkMeansConnected | srt-transport/src/epoll_bridge.rs:678-692 | over every run a connect is told Ok if and only if libsrt was read CONNECTED for it |
| SocketAnswers.RegistersExactly | srt-transport/src/epoll_bridge.rs:908-945 | an entry takes up both channels and the state libsrt reads, a group only its channels |
| SocketAnswers.ListenerRegistersExactly | srt-transport/src/epoll_bridge.rs:947-966 | an entry takes up the accept channel and the new slot, for which the old one is freed |
| SocketAnswers.GroupsComeAndConnect | srt-transport/src/epoll_bridge.rs:998-1049 | a group comes at Init, and is Connected when its connect is not refused |
| SocketAnswers.ListensExactly | srt-transport/src/epoll_bridge.rs:801-847 | a slot is armed before listening; either failure closes the socket |
| SocketAnswers.ClosesExactly | srt-transport/src/epoll_bridge.rs:990-996 | a close ends in libsrt first, then frees the slot, takes the entry out and answers its pending connect with an error |
| SocketMap.IoThread.CleanupZombies | srt-transport/src/epoll_bridge.rs:744-773 | the two loops of the sweep refine the specified sweep |
| SocketAnswers.SweepsExactly | srt-transport/src/epoll_bridge.rs:744-773 | a sweep closes exactly the dead sockets that are no listener or group and have no application end, answers their connects with an error, frees their slots, and changes no other |
| SocketAnswers.ShutsDownExactly | srt-transport/src/epoll_bridge.rs:2860-2877 | the shutdown does so to every socket of the map |

## Left out

- libsrt itself: only the steps and answers that the bridge's comments describe are modelled, as inputs.
- libsrt failing a member between a reading and the close that follows it: `CloseFirstKeepsThePeer` is
  about the readings the plan was made from.
- The test hook that marks a member stranded: `forced` is an input of the verdict, but runs have no
  member with it set, since it resets the repair depth.
- The close of a pass that takes a group from Connecting to Connected, and the filter that skips groups
  at Init or already dead.
- `waiting`, log lines and error texts: they change nothing else. FEC errors are kept apart by cause.
- A reconnect or re-add that leaves no member is one outcome (`connect` is `None`), whatever the error.
- Which error a failed connect is answered with: only that it is one, or Ok.
- The receive path, epoll waits and back-off, statistics, socket options and address conversion.
- Inside a channel: sends, receives and closes are atomic steps on a sequence. A send channel already
  dropped is an empty one in `SendDrain`, and the refusal of `send` on a dead socket is not modelled.
- The address and Stream ID queries an accepted socket makes while it is built: one step.
- Futures of `connect` and `bind` dropped part-way, and the shutdown of accepted sockets that were never
  registered.
- The order a hash map iterates in is an input of the poll, the sweep and the shutdown.
- Hosts whose `usize` is not 64 bits wide, and the 512-byte limit on Stream IDs, which the parser does
  not enforce.
- A strict bound on how many members the peer lists: the code does not keep one, as said under Findings.
- Which open members the peer has listed at an instant, beyond what is read: `PeerListsMoreExactly` is
  about any set of open members.
