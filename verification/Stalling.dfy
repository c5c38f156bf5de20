/** When a client is left with answered groups that nothing will write out. */
module Stalling {
  import opened Options
  import opened ThreadState
  import opened ThreadInvariants
  import opened CommandSteps
  import opened ServerSteps
  import opened ClientSteps
  import opened RoundSteps
  import opened ThreadSafety

  /** The one event that stalls a client: a callback whose first `writev` stops short and whose second
      finishes, while the client is crowded. */
  predicate Stalls(s: State, e: Event) {
    e.Ready? && Listening(s, e.client) && SplitWrite(s, e.client, e.read, Writable(s, e.client, e.write))
  }

  lemma UpdateFailedOnward(s: State)
    requires Core(s, multiset{}) && Mapped(s.servers, s.table) && Quiet(s.clients) && Leaving(s.clients, s.closing) && Reported(s.updaters)
    ensures Onward(s.clients, UpdateFailed(s).clients) && UpdateFailed(s).closing == s.closing
  {
    hide Core, Mapped, Quiet, Leaving, Flowing;
    if SomeOpen(s.updaters) {
    } else if !s.fullCoverage && s.updaters != [] && Covered(s.updaters[Best(s.updaters)].targets) != {} {
      SetSlotMapCore(s, s.updaters[Best(s.updaters)].targets);
    } else {
      DiscardAllCore(s);
    }
  }

  lemma ReplyOnward(s: State, u: nat, targets: seq<Target>)
    requires Safe(s) && Apart(targets)
    ensures Onward(s.clients, NotifyUpdated(s, u, targets).clients)
  {
    hide Core, Mapped, Quiet, Leaving, Flowing, Untouched, SetSlotMap, UpdateFailed, Apart;
    InvParts(s);
    UntouchedSame(s.clients);
    if u < |s.updaters| && s.updaters[u].open {
      var s1 := s.(updaters := s.updaters[u := Updater(false, targets)]);
      WithUpdaters(s, s1.updaters);
      if |Covered(targets)| < SLOT_COUNT {
        UpdateFailedOnward(s1);
      } else {
        SetSlotMapCore(s1, targets);
      }
    }
  }

  /** Nothing but their registration has changed in clients that await no command and stay. */
  ghost predicate Stays(cs: map<ClientId, Client>, ds: map<ClientId, Client>) {
    (Flowing(cs) ==> Flowing(ds)) && forall c :: c in cs && c in ds && cs[c].awaitingCount == 0 ==> ds[c] == Polled(Polled(cs[c]))
  }

  lemma PollFlows(cl: Client)
    ensures Stalled(Polled(cl)) <==> Stalled(cl)
  {
  }

  lemma TurnOnward(s: State, connected: nat)
    requires Safe(s)
    ensures Stays(s.clients, TurnEnd(s, connected).clients)
  {
    hide Safe, Stalled, SameLists, AfterEvents, NewRound, Polled;
    PollSafe(s);
    var s1 := PollControl(s);
    DepartedSafe(s1);
    var s2 := AfterEvents(s1);
    ClosingGone(s1);
    var s3 := NewRound(s2, connected);
    RoundOnward(s2, connected);
    forall c | c in s.clients ensures s1.clients[c] == Polled(s.clients[c]) && (Stalled(s1.clients[c]) <==> Stalled(s.clients[c])) {
      PollFlows(s.clients[c]);
    }
    var t := PollControl(s3);
    forall c | c in t.clients ensures t.clients[c] == Polled(s3.clients[c]) && (Stalled(t.clients[c]) <==> Stalled(s3.clients[c])) {
      PollFlows(s3.clients[c]);
    }
    if Flowing(s.clients) {
      assert Flowing(s1.clients);
      assert Flowing(s2.clients);
    }
    forall c | c in s.clients && c in t.clients && s.clients[c].awaitingCount == 0
      ensures t.clients[c] == Polled(Polled(s.clients[c]))
    {
      PollKeepsCount(s.clients[c]);
    }
  }

  lemma PollKeepsCount(cl: Client)
    ensures Polled(cl).awaitingCount == cl.awaitingCount
  {
  }

  lemma RoundOnward(s: State, connected: nat)
    requires Safe(s)
    ensures Onward(s.clients, NewRound(s, connected).clients)
  {
    hide Safe, Flowing, Untouched, UpdateFailed;
    UntouchedSame(s.clients);
    if s.updaters == [] && (s.retry != [] || s.expired) && connected == 0 {
      FailedOnward(s);
    }
  }

  lemma FailedOnward(s: State)
    requires Safe(s)
    ensures Onward(s.clients, UpdateFailed(s).clients)
  {
    hide Core, Mapped, Quiet, Leaving, Onward, UpdateFailed, InRound;
    InvParts(s);
    UpdateFailedOnward(s);
  }

  lemma ClosingGone(s: State)
    requires Safe(s)
    ensures forall c :: c in AfterEvents(s).clients ==> c in s.clients && AfterEvents(s).clients[c] == s.clients[c]
  {
    InvParts(s);
    var s0 := s.(closing := []);
    assert Core(s0, multiset{}) by {
      hide Conserved, Counted, Wired, Logged, Pooled, Tabled, Peered, Owned;
    }
    hide Core, Mapped;
    DepartAllCore(s0, s.closing);
  }

  lemma ServeOnward(s: State, id: ServerId, received: Option<seq<Body>>)
    requires Safe(s) && Srv(s, id).open
    ensures Onward(s.clients, ServeServer(s, id, received).clients)
  {
    hide Core, Safe, Flowing, Quiet, Mapped, Leaving, Untouched, ServeServer;
    SafeInvParts(s);
    QuietOf(s);
    ServeCore(s, id, received);
  }

  lemma ResetOnward(s: State, id: ServerId)
    requires Safe(s) && Srv(s, id).open
    ensures Onward(s.clients, CloseConn(s, id).clients)
  {
    hide Core, Safe, Flowing, Quiet, Mapped, Leaving, Untouched, CloseConn, HeldBy;
    SafeInvParts(s);
    QuietOf(s);
    CloseConnCore(s, id, multiset{});
  }

  lemma QuietOf(s: State)
    requires Safe(s)
    ensures Quiet(s.clients)
  {
    InvParts(s);
  }

  lemma UntouchedSame(cs: map<ClientId, Client>)
    ensures Untouched(cs, cs)
  {
  }

  lemma FlowingUpdate(clients: map<ClientId, Client>, c: ClientId, cl: Client)
    requires Flowing(clients) && c in clients
    ensures Flowing(clients[c := cl]) <==> !Stalled(cl)
  {
    hide Stalled;
    if Flowing(clients[c := cl]) {
      assert clients[c := cl][c] == cl;
    }
  }

  lemma ReadyFlows(s: State, c: ClientId, read: Option<seq<seq<Plan>>>, write: Option<(bool, bool)>)
    requires Safe(s) && Flowing(s.clients) && c in s.clients
    ensures Flowing(OnEvents(s, c, read, write).clients) <==> !SplitWrite(s, c, read, write)
  {
    hide Safe, Core, Mapped, Bounded, Stalled, OnEvents, SplitWrite;
    SafeClient(s, c);
    OnEventsCore(s, c, read, write);
    FlowingUpdate(s.clients, c, OnEvents(s, c, read, write).clients[c]);
  }

  lemma GarbleFlows(s: State, c: ClientId, requests: seq<seq<Plan>>)
    requires Safe(s) && Flowing(s.clients) && c in s.clients
    ensures Flowing(CloseClient(PushGroups(s, c, requests), c).clients)
  {
    hide Safe, Core, PushGroups;
    SafeInvParts(s);
    PushGroupsCore(s, c, requests);
  }

  /** While no client is stalled, an event leaves none stalled if and only if it is not the one split
      write on a crowded client. */
  lemma StallsExactly(s: State, e: Event)
    requires Safe(s) && Flowing(s.clients) && Sound(e)
    ensures Flowing(Apply(s, e).clients) <==> !Stalls(s, e)
  {
    hide Safe, OnEvents, CloseClient, PushGroups, ServeServer, CloseConn, NotifyUpdated, TurnEnd, Sound, SplitWrite;
    SoundReply(e);
    match e
    case Accept =>
    case Ready(c, read, write) => if Listening(s, c) { ReadyFlows(s, c, read, Writable(s, c, write)); }
    case Garble(c, requests) => if Listening(s, c) { GarbleFlows(s, c, requests); }
    case HangUp(c) => if Listening(s, c) { HangUpFlows(s, c); }
    case Serve(id, received) => if Srv(s, id).open { OnwardFlows(s); ServeOnward(s, id, received); }
    case Reset(id) => if Srv(s, id).open { OnwardFlows(s); ResetOnward(s, id); }
    case SlotMapReply(u, targets) => OnwardFlows(s); ReplyOnward(s, u, targets);
    case Expire =>
    case EndTurn(connected) => TurnOnward(s, connected);
  }

  lemma OnwardFlows(s: State)
    requires Flowing(s.clients)
    ensures forall ds :: Onward(s.clients, ds) ==> Flowing(ds)
  {
    hide Untouched;
  }

  lemma HangUpFlows(s: State, c: ClientId)
    requires Flowing(s.clients) && c in s.clients
    ensures Flowing(CloseClient(s, c).clients)
  {
  }

  // ----- a stalled client that is not watched stays stalled -----

  /** Every awaited group is answered, nothing is left to write, and the poller neither watches the
      connection for writing nor has been asked to. */
  predicate Stuck(cl: Client) {
    Stalled(cl) && !cl.watched && cl.interest != Some(true)
  }

  /** A stuck client keeps the very same groups waiting, whatever happens, until it leaves. */
  lemma StuckStays(s: State, e: Event, c: ClientId)
    requires Safe(s) && Sound(e) && c in s.clients && Stuck(s.clients[c])
    ensures var t := Apply(s, e); c in t.clients ==> Stuck(t.clients[c]) && t.clients[c].awaiting == s.clients[c].awaiting
  {
    hide Safe, OnEvents, CloseClient, PushGroups, ServeServer, CloseConn, NotifyUpdated, TurnEnd, Sound, Stuck;
    SoundReply(e);
    match e
    case Accept => NextIsNew(s);
    case Ready(d, read, write) => if Listening(s, d) { ReadyKeepsStuck(s, d, read, write, c); }
    case Garble(d, requests) => if Listening(s, d) { GarbleKeepsStuck(s, d, requests, c); }
    case HangUp(d) => if Listening(s, d) { HangUpKeepsStuck(s, d, c); }
    case Serve(id, received) => if Srv(s, id).open { StuckCount(s, c); ServeOnward(s, id, received); }
    case Reset(id) => if Srv(s, id).open { StuckCount(s, c); ResetOnward(s, id); }
    case SlotMapReply(u, targets) => StuckCount(s, c); ReplyOnward(s, u, targets);
    case Expire =>
    case EndTurn(connected) => StuckCount(s, c); TurnOnward(s, connected); PollKeepsStuck(s.clients[c]);
  }

  lemma StuckCount(s: State, c: ClientId)
    requires c in s.clients && Stuck(s.clients[c])
    ensures s.clients[c].awaitingCount == 0
    ensures forall ds :: Onward(s.clients, ds) ==> c in ds && ds[c] == s.clients[c]
  {
    hide Flowing;
  }

  lemma PollKeepsStuck(cl: Client)
    requires Stuck(cl)
    ensures Stuck(Polled(Polled(cl))) && Polled(Polled(cl)).awaiting == cl.awaiting
  {
  }

  lemma ReadyKeepsStuck(s: State, d: ClientId, read: Option<seq<seq<Plan>>>, write: Option<(bool, bool)>, c: ClientId)
    requires Safe(s) && d in s.clients && c in s.clients && Stuck(s.clients[c])
    ensures var t := OnEvents(s, d, read, Writable(s, d, write));
            c in t.clients && Stuck(t.clients[c]) && t.clients[c].awaiting == s.clients[c].awaiting
  {
    hide Safe, Core, Mapped, Bounded, SplitWrite;
    SafeClient(s, d);
    if c == d {
      hide PushGroups;
      if read.Some? {
        PushGroupsCore(s, c, read.value);
      }
    } else {
      hide OnEvents;
      OnEventsCore(s, d, read, Writable(s, d, write));
    }
  }

  lemma GarbleKeepsStuck(s: State, d: ClientId, requests: seq<seq<Plan>>, c: ClientId)
    requires Safe(s) && d in s.clients && c in s.clients && Stuck(s.clients[c])
    ensures var t := CloseClient(PushGroups(s, d, requests), d);
            c in t.clients && Stuck(t.clients[c]) && t.clients[c].awaiting == s.clients[c].awaiting
  {
    hide Safe, Core, PushGroups;
    SafeInvParts(s);
    PushGroupsCore(s, d, requests);
  }

  lemma HangUpKeepsStuck(s: State, d: ClientId, c: ClientId)
    requires d in s.clients && c in s.clients && Stuck(s.clients[c])
    ensures var t := CloseClient(s, d); c in t.clients && Stuck(t.clients[c]) && t.clients[c].awaiting == s.clients[c].awaiting
  {
  }

  /** A stalled client that is watched goes on with the next write notification. */
  lemma WatchedRecovers(s: State, c: ClientId, done1: bool, done2: bool)
    requires Safe(s) && Listening(s, c) && Stalled(s.clients[c]) && s.clients[c].watched
    ensures var t := Apply(s, Ready(c, None, Some((done1, done2)))); c in t.clients && !Stalled(t.clients[c])
  {
    hide Safe, Core, Mapped, Bounded, WriteResponse;
    SafeClient(s, c);
    WriteResponseCore(s, c, done1, done2);
    SettleStalled(WriteResponse(s, c, done1, done2).clients[c]);
  }

  lemma SoundReply(e: Event)
    requires Sound(e)
    ensures e.SlotMapReply? ==> Apart(e.targets)
  {
    hide Apart;
  }

  lemma NextIsNew(s: State)
    requires Safe(s)
    ensures s.nextClient !in s.clients
  {
    InvParts(s);
    hide Conserved, Counted, Wired, Logged, Pooled, Tabled, Peered, ClientOwns, Mapped, Quiet, Leaving;
  }

  lemma SafeClient(s: State, c: ClientId)
    requires Safe(s) && c in s.clients
    ensures Core(s, multiset{}) && Mapped(s.servers, s.table) && Bounded(s.clients[c])
  {
    InvParts(s);
  }

  // ----- it does happen -----

  function Pings(n: nat): seq<seq<Plan>> {
    seq(n, _ => [])
  }

  /** A turn in which one client has a callback */
  function Turn(s: State, e: Event): State {
    Apply(Apply(s, e), EndTurn(1))
  }

  function Turns(e: Event, n: nat): seq<Event> {
    if n == 0 then [] else [e, EndTurn(1)] + Turns(e, n - 1)
  }

  function PingTurn(n: nat): Event {
    Ready(0, Some(Pings(n)), None)
  }

  /** The turns that leave the first client of a fresh thread stuck: four full batches of requests that
      need no node fill its ready list, one more request joins, and then the replies leave in two writes. */
  function StallingRun(): seq<Event> {
    [Accept] + Turns(PingTurn(64), 4) + Turns(PingTurn(1), 1) + Turns(Ready(0, None, Some((false, true))), 1)
  }

  lemma ProcessDirect(s: State, c: ClientId)
    requires Core(s, multiset{}) && Mapped(s.servers, s.table) && c in s.clients && AllDirect(s.groups, s.clients[c].parsed)
    requires var cl := s.clients[c]; |cl.parsed| <= MAX_PIPE && cl.awaiting == [] && cl.awaitingCount == 0
    ensures var t, cl := Process(s, c), s.clients[c];
            && c in t.clients
            && t.clients[c] == PushAwaitingsToReady(cl.(parsed := [], awaiting := cl.parsed))
  {
    hide Core, Mapped;
    var cl := s.clients[c];
    var n := |cl.parsed|;
    IssueManyCore(s, c, n);
    DirectCount(s, c, n);
    hide IssueMany, AllDirect;
    assert cl.parsed[n..] == [] && cl.parsed[..n] == cl.parsed && [] + cl.parsed == cl.parsed;
    hide PushAwaitingsToReady;
  }

  /** The client waits for nothing. */
  predicate Idle(s: State) {
    Listening(s, 0) && s.closing == [] && var cl := s.clients[0]; cl.parsed == [] && cl.awaiting == [] && cl.awaitingCount == 0
  }

  /** What reading `n` requests that need no node does to an idle client. */
  lemma ReadPings(s: State, n: nat)
    requires Safe(s) && Idle(s) && 0 < n <= MAX_PIPE
    ensures var t, cl := Apply(s, PingTurn(n)), s.clients[0];
            && Safe(t) && Listening(t, 0) && t.closing == [] && var k := t.clients[0];
            && k.parsed == [] && k.awaitingCount == 0 && k.pending && k.interest == Some(true)
            && (if cl.ready == [] || n + |cl.ready| <= MAX_RESPONSES then |k.ready| == |cl.ready| + n && k.awaiting == []
                else k.ready == cl.ready && |k.awaiting| == n)
  {
    hide Safe, Mapped, Core, Process, PushGroups, Apply, AllDirect, PushAwaitingsToReady;
    ApplySafe(s, PingTurn(n));
    SafeClient(s, 0);
    EmptyDirect(s.groups);
    PushGroupsCore(s, 0, Pings(n));
    PingsDirect(s, 0, Pings(n));
    var s1 := PushGroups(s, 0, Pings(n));
    ProcessDirect(s1, 0);
    ReadShape(s, n);
    PushPings(s1.clients[0]);
    KeepsListening(s, n);
  }

  lemma KeepsListening(s: State, n: nat)
    requires Safe(s) && Listening(s, 0)
    ensures var t := Apply(s, PingTurn(n)); Listening(t, 0) && t.closing == s.closing
  {
    hide Safe, Core, Mapped, Bounded, Stalled, OnEvents, SplitWrite;
    SafeClient(s, 0);
    OnEventsCore(s, 0, Some(Pings(n)), None);
  }

  lemma PushPings(cl: Client)
    requires cl.parsed != [] && cl.awaiting == [] && cl.awaitingCount == 0 && (cl.pending <==> cl.ready != [])
    ensures var k, n := PushAwaitingsToReady(cl.(parsed := [], awaiting := cl.parsed)), |cl.parsed|;
            && k.parsed == [] && k.awaitingCount == 0 && k.pending
            && (if cl.ready == [] || n + |cl.ready| <= MAX_RESPONSES then |k.ready| == |cl.ready| + n && k.awaiting == []
                else k.ready == cl.ready && |k.awaiting| == n)
  {
  }

  lemma ReadShape(s: State, n: nat)
    requires Listening(s, 0) && Cli(PushGroups(s, 0, Pings(n)), 0).awaiting == []
    ensures var s2 := Process(PushGroups(s, 0, Pings(n)), 0); Apply(s, PingTurn(n)) == WithCli(s2, 0, Settle(Cli(s2, 0)))
  {
    hide PushGroups, Process;
  }

  ghost predicate AllDirect(gs: Groups, q: seq<GroupId>) {
    forall g :: g in q ==> g in gs && gs[g].cmds == []
  }

  lemma EmptyDirect(gs: Groups)
    ensures AllDirect(gs, [])
  {
  }

  lemma PingDirect(s: State, c: ClientId)
    requires c in s.clients && AllDirect(s.groups, s.clients[c].parsed)
    ensures var t := PushGroup(s, c, []); c in t.clients && AllDirect(t.groups, t.clients[c].parsed)
  {
    var t := PushGroup(s, c, []);
    var cl := s.clients[c];
    assert t.clients[c].parsed == cl.parsed + [s.nextGroup];
    assert t.groups == s.groups[s.nextGroup := Group(c, Fresh([]), 0, false)];
    assert Fresh([]) == [];
    hide PushGroup, Fresh;
  }

  lemma {:induction false} PingsDirect(s: State, c: ClientId, requests: seq<seq<Plan>>)
    requires c in s.clients && AllDirect(s.groups, s.clients[c].parsed)
    requires forall i :: 0 <= i < |requests| ==> requests[i] == []
    ensures var t := PushGroups(s, c, requests); c in t.clients && AllDirect(t.groups, t.clients[c].parsed)
    decreases |requests|
  {
    hide AllDirect, PushGroup;
    if requests != [] {
      PingDirect(s, c);
      PingsDirect(PushGroup(s, c, []), c, requests[1..]);
    }
  }

  lemma {:induction false} DirectCount(s: State, c: ClientId, n: nat)
    requires Core(s, multiset{}) && Mapped(s.servers, s.table)
    requires c in s.clients && n <= |s.clients[c].parsed| && AllDirect(s.groups, s.clients[c].parsed)
    ensures var t := IssueMany(s, c, n);
            t.clients == s.clients || (c in t.clients && t.clients[c].awaitingCount == s.clients[c].awaitingCount)
    decreases n
  {
    hide Core, Mapped;
    if n > 0 {
      IssueFirstCore(s, c);
      var g := s.clients[c].parsed[0];
      assert g in s.clients[c].parsed;
      IssueFirstShape(s, c);
      var t := IssueFirst(s, c);
      assert RefsFrom(c, g, 0, 0) == [];
      assert t == s.(clients := s.clients[c := MoveFirst(s.clients[c], false)], groups := Issued(s.groups, g));
      hide IssueFirst;
      assert AllDirect(t.groups, t.clients[c].parsed);
      DirectCount(t, c, n - 1);
    }
  }

  /** When nobody leaves, the end of a turn only carries out the registrations. */
  lemma TurnKeeps(s: State)
    requires Safe(s) && Listening(s, 0) && s.closing == []
    ensures var t := TurnEnd(s, 1); Safe(t) && Listening(t, 0) && t.closing == [] && t.clients[0] == Polled(Polled(s.clients[0]))
  {
    hide Safe, Awake, Watched, Polled, AfterEvents, NewRound;
    TurnEndSafe(s, 1);
    var s1 := PollControl(s);
    NobodyLeaves(s1);
    PolledOpen(s.clients[0]);
    PolledOpen(s1.clients[0]);
  }

  lemma NobodyLeaves(s: State)
    requires s.closing == []
    ensures var t := NewRound(AfterEvents(s), 1); t.clients == s.clients && t.closing == []
  {
    hide UpdateFailed;
  }

  lemma PolledOpen(cl: Client)
    ensures Polled(cl).closed == cl.closed
  {
  }

  function TurnTimes(s: State, e: Event, n: nat): State
    decreases n
  {
    if n == 0 then s else TurnTimes(Turn(s, e), e, n - 1)
  }

  /** Four full batches fill the ready list. */
  lemma {:induction false} FillReady(s: State, n: nat)
    requires Safe(s) && Idle(s) && |s.clients[0].ready| == 256 - 64 * n
    ensures var t := TurnTimes(s, PingTurn(64), n); Safe(t) && Idle(t) && |t.clients[0].ready| == 256
    decreases n
  {
    hide Safe, Apply, TurnEnd;
    if n > 0 {
      ReadPings(s, 64);
      TurnKeeps(Apply(s, PingTurn(64)));
      EndTurnIs(s, PingTurn(64));
      FillReady(Turn(s, PingTurn(64)), n - 1);
    }
  }

  lemma EndTurnIs(s: State, e: Event)
    ensures Turn(s, e) == TurnEnd(Apply(s, e), 1)
  {
  }

  /** Pipelined requests that need no node, read by a client that is slow to take its replies,
      are enough to leave one reply unsent for good. */
  lemma StallHappens(readonly: bool, fullCoverage: bool)
    ensures var t := Run(Init(readonly, fullCoverage), StallingRun()); 0 in t.clients && Stuck(t.clients[0])
  {
    var s0 := Init(readonly, fullCoverage);
    InitSafe(readonly, fullCoverage);
    var s1 := Apply(s0, Accept);
    ApplySafe(s0, Accept);
    assert Idle(s1) && s1.clients[0] == NEW_CLIENT;
    hide Safe, Apply, TurnEnd, Stuck;
    FillReady(s1, 4);
    var s2 := TurnTimes(s1, PingTurn(64), 4);
    StallingRunSteps(s0);
    hide TurnTimes, Run;
    ReadPings(s2, 1);
    TurnKeeps(Apply(s2, PingTurn(1)));
    EndTurnIs(s2, PingTurn(1));
    LastWrite(Turn(s2, PingTurn(1)));
  }

  lemma {:induction false} RunConcat(s: State, xs: seq<Event>, ys: seq<Event>)
    ensures Run(s, xs + ys) == Run(Run(s, xs), ys)
    decreases |xs|
  {
    hide Apply;
    if xs == [] {
      assert xs + ys == ys;
    } else {
      assert (xs + ys)[1..] == xs[1..] + ys;
      RunConcat(Apply(s, xs[0]), xs[1..], ys);
    }
  }

  lemma {:induction false} RunTurns(s: State, e: Event, n: nat)
    ensures Run(s, Turns(e, n)) == TurnTimes(s, e, n)
    decreases n
  {
    hide Apply;
    if n > 0 {
      RunConcat(s, [e, EndTurn(1)], Turns(e, n - 1));
      RunConcat(s, [e], [EndTurn(1)]);
      assert [e, EndTurn(1)] == [e] + [EndTurn(1)] && Run(s, [e]) == Apply(s, e);
      assert Run(Apply(s, e), [EndTurn(1)]) == Turn(s, e);
      RunTurns(Turn(s, e), e, n - 1);
    }
  }

  lemma StallingRunSteps(s: State)
    ensures var s2 := TurnTimes(Apply(s, Accept), PingTurn(64), 4);
            Run(s, StallingRun()) == Turn(Turn(s2, PingTurn(1)), Ready(0, None, Some((false, true))))
  {
    hide Apply, Turn, PingTurn, Turns;
    var last := Ready(0, None, Some((false, true)));
    RunConcat(s, [Accept] + Turns(PingTurn(64), 4) + Turns(PingTurn(1), 1), Turns(last, 1));
    RunConcat(s, [Accept] + Turns(PingTurn(64), 4), Turns(PingTurn(1), 1));
    RunConcat(s, [Accept], Turns(PingTurn(64), 4));
    assert Run(s, [Accept]) == Apply(s, Accept);
    var s1 := Apply(s, Accept);
    RunTurns(s1, PingTurn(64), 4);
    var s2 := TurnTimes(s1, PingTurn(64), 4);
    RunTurns(s2, PingTurn(1), 1);
    assert TurnTimes(s2, PingTurn(1), 1) == Turn(s2, PingTurn(1));
    RunTurns(Turn(s2, PingTurn(1)), last, 1);
    assert TurnTimes(Turn(s2, PingTurn(1)), last, 1) == Turn(Turn(s2, PingTurn(1)), last);
  }

  /** The split write empties the output, so the connection is no longer watched for writing. */
  lemma LastWrite(s: State)
    requires Safe(s) && Listening(s, 0) && s.closing == []
    requires var cl := s.clients[0];
             cl.pending && cl.parsed == [] && cl.awaitingCount == 0 && cl.interest == None && cl.watched
             && cl.ready != [] && cl.awaiting != [] && |cl.awaiting| + |cl.ready| > MAX_RESPONSES
    ensures var t := Turn(s, Ready(0, None, Some((false, true)))); 0 in t.clients && Stuck(t.clients[0])
  {
    var e := Ready(0, None, Some((false, true)));
    var t := Apply(s, e);
    assert t.closing == [] && Listening(t, 0) && Stalled(t.clients[0]) && t.clients[0].interest == Some(false);
    hide Safe, Apply, TurnEnd;
    ApplySafe(s, e);
    TurnKeeps(t);
    EndTurnIs(s, e);
  }
}
