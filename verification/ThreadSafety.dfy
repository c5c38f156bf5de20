/** What holds in every run of a proxy thread. */
module ThreadSafety {
  import opened Options
  import opened ThreadState
  import opened ThreadInvariants
  import opened CommandSteps
  import opened ServerSteps
  import opened ClientSteps
  import opened RoundSteps

  // ----- the environment -----

  /** A node list gives no slot to two nodes. */
  ghost predicate Sound(e: Event) {
    e.SlotMapReply? ==> Apart(e.targets)
  }

  /** The slot maps the updaters of this round have reported. */
  ghost predicate Reported(us: seq<Updater>) {
    forall i :: 0 <= i < |us| ==> Apart(us[i].targets)
  }

  ghost predicate Safe(s: State) {
    Inv(s) && Reported(s.updaters)
  }

  lemma InitSafe(readonly: bool, fullCoverage: bool)
    ensures Safe(Init(readonly, fullCoverage))
  {
    var s := Init(readonly, fullCoverage);
    assert Held(s) == multiset{};
  }

  // ----- one event -----

  lemma InvParts(s: State)
    requires Safe(s)
    ensures Core(s, multiset{}) && Mapped(s.servers, s.table) && InRound(s.updaters) && Quiet(s.clients) && Leaving(s.clients, s.closing)
  {
  }

  lemma Combine(s: State)
    requires Core(s, multiset{}) && Mapped(s.servers, s.table) && InRound(s.updaters) && Quiet(s.clients) && Leaving(s.clients, s.closing)
    requires Reported(s.updaters)
    ensures Safe(s)
  {
  }

  lemma NewClientUnknown(s: State)
    requires Core(s, multiset{})
    ensures s.nextClient !in s.clients
    ensures forall id, r :: 0 <= id < |s.servers| && r in HeldBy(s.servers[id]) ==> r.client != s.nextClient
  {
    assert s.nextClient !in s.clients by {
      hide Conserved, Counted, Wired, Logged, Pooled, Tabled, Peered, ClientOwns;
    }
    NothingRefers(s, s.nextClient);
    hide Core, HeldBy;
    forall id, r | 0 <= id < |s.servers| && r in HeldBy(s.servers[id]) ensures r.client != s.nextClient {
      HeldInContains(s.servers, id);
      assert r in Held(s);
    }
  }

  lemma AcceptCore(s: State)
    requires Core(s, multiset{})
    ensures Core(Apply(s, Accept), multiset{})
  {
    hide Conserved, Counted, Wired, Logged, Pooled, Tabled, Peered, Owned, HeldBy, HeldIn;
    NewClientUnknown(s);
    AcceptOwned(s.clients, s.groups, s.nextClient, s.nextGroup);
    AcceptPeered(s.servers, s.peers, s.nextClient);
  }

  lemma AcceptSafe(s: State)
    requires Safe(s)
    ensures Safe(Apply(s, Accept))
  {
    hide Core, Mapped, InRound, Reported, Bounded, Quiet, Leaving;
    InvParts(s);
    AcceptCore(s);
    NewClientUnknown(s);
    NewClientQuiet(s.clients, s.nextClient, s.closing);
    Combine(Apply(s, Accept));
  }

  lemma NewClientQuiet(clients: map<ClientId, Client>, c: ClientId, closing: seq<ClientId>)
    requires Quiet(clients) && Leaving(clients, closing) && c !in clients
    ensures Quiet(clients[c := NEW_CLIENT]) && Leaving(clients[c := NEW_CLIENT], closing)
  {
  }

  lemma AcceptOwned(clients: map<ClientId, Client>, gs: Groups, nc: ClientId, n: GroupId)
    requires Owned(clients, gs, nc, n)
    ensures Owned(clients[nc := NEW_CLIENT], gs, nc + 1, n)
  {
    assert ClientOwns(gs, nc, NEW_CLIENT, n);
    hide ClientOwns;
    forall g | g in gs ensures Listed(clients[nc := NEW_CLIENT], gs[g].client, g) {
      assert Listed(clients, gs[g].client, g);
      assert gs[g].client != nc;
    }
  }

  lemma AcceptPeered(servers: seq<Server>, peers: map<ClientId, set<ServerId>>, nc: ClientId)
    requires Peered(servers, peers)
    requires forall id, r :: 0 <= id < |servers| && r in HeldBy(servers[id]) ==> r.client != nc
    ensures Peered(servers, peers[nc := {}])
  {
  }

  lemma QuietUpdate(clients: map<ClientId, Client>, c: ClientId, cl: Client, closing: seq<ClientId>)
    requires Quiet(clients) && Leaving(clients, closing) && c in clients && Bounded(cl) && cl.closed == clients[c].closed
    ensures Quiet(clients[c := cl]) && Leaving(clients[c := cl], closing)
  {
    hide Bounded;
  }

  lemma ReadSafe(s: State, c: ClientId, requests: seq<seq<Plan>>)
    requires Safe(s) && c in s.clients
    ensures Safe(ReadRequest(s, c, requests))
  {
    InvParts(s);
    assert Bounded(s.clients[c]);
    hide Core, Mapped, Quiet, Leaving, InRound, Reported, Bounded, Stalled;
    ReadRequestCore(s, c, requests);
    var t := ReadRequest(s, c, requests);
    hide ReadRequest;
    QuietUpdate(s.clients, c, t.clients[c], s.closing);
    Combine(t);
  }

  lemma WriteSafe(s: State, c: ClientId, done1: bool, done2: bool)
    requires Safe(s) && c in s.clients
    ensures Safe(WriteResponse(s, c, done1, done2))
  {
    InvParts(s);
    assert Bounded(s.clients[c]);
    hide Core, Mapped, Quiet, Leaving, InRound, Reported, Bounded, Stalled, Crowded;
    WriteResponseCore(s, c, done1, done2);
    var t := WriteResponse(s, c, done1, done2);
    hide WriteResponse;
    QuietUpdate(s.clients, c, t.clients[c], s.closing);
    Combine(t);
  }

  /** The client's groups are where they were. */
  predicate SameLists(cl: Client, k: Client) {
    && k.parsed == cl.parsed && k.awaiting == cl.awaiting && k.ready == cl.ready && k.awaitingCount == cl.awaitingCount
    && k.arrived == cl.arrived && k.written == cl.written
  }

  lemma SameListsOwn(gs: Groups, c: ClientId, cl: Client, k: Client, n: GroupId)
    requires ClientOwns(gs, c, cl, n) && SameLists(cl, k)
    ensures ClientOwns(gs, c, k, n)
  {
  }

  lemma SameListsOwned(clients: map<ClientId, Client>, ds: map<ClientId, Client>, gs: Groups, nc: ClientId, n: GroupId)
    requires Owned(clients, gs, nc, n) && ds.Keys == clients.Keys && forall c :: c in clients ==> SameLists(clients[c], ds[c])
    ensures Owned(ds, gs, nc, n)
  {
    hide ClientOwns;
    forall c | c in ds ensures ClientOwns(gs, c, ds[c], n) {
      SameListsOwn(gs, c, clients[c], ds[c], n);
    }
    forall g | g in gs ensures Listed(ds, gs[g].client, g) {
      assert Listed(clients, gs[g].client, g);
    }
  }

  lemma SameListsCore(s: State, ds: map<ClientId, Client>, closing: seq<ClientId>)
    requires Core(s, multiset{}) && ds.Keys == s.clients.Keys && forall c :: c in s.clients ==> SameLists(s.clients[c], ds[c])
    ensures Core(s.(clients := ds, closing := closing), multiset{})
  {
    hide Conserved, Counted, Wired, Logged, Pooled, Tabled, Peered, Owned;
    SameListsOwned(s.clients, ds, s.groups, s.nextClient, s.nextGroup);
  }

  lemma SettleCore(s: State, c: ClientId)
    requires Core(s, multiset{}) && c in s.clients && Bounded(s.clients[c])
    ensures var t, k := WithCli(s, c, Settle(s.clients[c])), Settle(s.clients[c]);
            Core(t, multiset{}) && Bounded(k) && SameLists(s.clients[c], k) && k.closed == s.clients[c].closed && k.pending == s.clients[c].pending
  {
    hide Core;
    SameListsCore(s, s.clients[c := Settle(s.clients[c])], s.closing);
  }

  /** A callback of a client keeps every bound.  It stalls a client that was not stalled exactly when,
      after the reading, the first `writev` stops short, the second finishes, and the groups awaited
      could not join the ready ones in between. */
  lemma OnEventsCore(s: State, c: ClientId, read: Option<seq<seq<Plan>>>, write: Option<(bool, bool)>)
    requires Core(s, multiset{}) && Mapped(s.servers, s.table) && c in s.clients && Bounded(s.clients[c])
    ensures var t := OnEvents(s, c, read, write);
            && Core(t, multiset{}) && Mapped(t.servers, t.table)
            && c in t.clients && t.clients == s.clients[c := t.clients[c]] && Bounded(t.clients[c])
            && t.clients[c].closed == s.clients[c].closed && t.closing == s.closing && t.updaters == s.updaters
    ensures !Stalled(s.clients[c]) ==> (Stalled(OnEvents(s, c, read, write).clients[c]) <==> SplitWrite(s, c, read, write))
  {
    hide Core, Mapped, ReadRequest, WriteResponse, Bounded, Stalled, Crowded, Settle;
    AfterReadCore(s, c, read);
    var s1 := AfterRead(s, c, read);
    AfterWriteCore(s1, c, write);
    var s2 := AfterWrite(s1, c, write);
    SettleCore(s2, c);
    SettleStalled(s2.clients[c]);
  }

  lemma AfterReadCore(s: State, c: ClientId, read: Option<seq<seq<Plan>>>)
    requires Core(s, multiset{}) && Mapped(s.servers, s.table) && c in s.clients && Bounded(s.clients[c])
    ensures var t := AfterRead(s, c, read);
            && Core(t, multiset{}) && Mapped(t.servers, t.table)
            && c in t.clients && t.clients == s.clients[c := t.clients[c]] && Bounded(t.clients[c])
            && t.clients[c].closed == s.clients[c].closed && t.closing == s.closing && t.updaters == s.updaters
            && (!Stalled(s.clients[c]) ==> !Stalled(t.clients[c]))
  {
    hide Core, Mapped, ReadRequest, Bounded, Stalled;
    if read.Some? {
      ReadRequestCore(s, c, read.value);
    } else {
      assert s.clients == s.clients[c := s.clients[c]];
    }
  }

  function AfterWrite(s: State, c: ClientId, write: Option<(bool, bool)>): State {
    if write.Some? then WriteResponse(s, c, write.value.0, write.value.1) else s
  }

  lemma AfterWriteCore(s: State, c: ClientId, write: Option<(bool, bool)>)
    requires Core(s, multiset{}) && Mapped(s.servers, s.table) && c in s.clients && Bounded(s.clients[c])
    ensures var t := AfterWrite(s, c, write);
            && Core(t, multiset{}) && Mapped(t.servers, t.table)
            && c in t.clients && t.clients == s.clients[c := t.clients[c]] && Bounded(t.clients[c])
            && t.clients[c].closed == s.clients[c].closed && t.closing == s.closing && t.updaters == s.updaters
            && (!Stalled(s.clients[c]) ==>
                  (Stalled(t.clients[c]) <==> write.Some? && !write.value.0 && write.value.1 && Crowded(s.clients[c])))
  {
    hide Core, Mapped, WriteResponse, Bounded, Stalled, Crowded;
    if write.Some? {
      WriteResponseCore(s, c, write.value.0, write.value.1);
    } else {
      assert s.clients == s.clients[c := s.clients[c]];
    }
  }

  function AfterRead(s: State, c: ClientId, read: Option<seq<seq<Plan>>>): State {
    if read.Some? then ReadRequest(s, c, read.value) else s
  }

  /** Of the two `writev` calls of the callback the first stops short and the second finishes, while the
      client is crowded. */
  predicate SplitWrite(s: State, c: ClientId, read: Option<seq<seq<Plan>>>, write: Option<(bool, bool)>) {
    write.Some? && !write.value.0 && write.value.1 && Crowded(Cli(AfterRead(s, c, read), c))
  }

  lemma SettleStalled(cl: Client)
    ensures Stalled(Settle(cl)) <==> Stalled(cl)
  {
  }

  lemma ReadySafe(s: State, c: ClientId, read: Option<seq<seq<Plan>>>, write: Option<(bool, bool)>)
    requires Safe(s) && c in s.clients
    ensures Safe(OnEvents(s, c, read, write))
  {
    InvParts(s);
    assert Bounded(s.clients[c]);
    hide Core, Mapped, Quiet, Leaving, InRound, Reported, Bounded, Stalled, OnEvents, SplitWrite;
    OnEventsCore(s, c, read, write);
    var t := OnEvents(s, c, read, write);
    QuietUpdate(s.clients, c, t.clients[c], s.closing);
    Combine(t);
  }

  lemma CloseClientSafe(s: State, c: ClientId)
    requires Core(s, multiset{}) && Mapped(s.servers, s.table) && InRound(s.updaters) && Reported(s.updaters)
    requires c in s.clients && Leaving(s.clients, s.closing) && Quiet(s.clients[c := s.clients[c].(closed := true)])
    ensures Safe(CloseClient(s, c))
  {
    hide Core, Mapped, InRound, Reported, Quiet;
    var t := CloseClient(s, c);
    SameListsCore(s, t.clients, t.closing);
    Combine(t);
  }

  lemma ClosedQuiet(clients: map<ClientId, Client>, c: ClientId, k: Client)
    requires Quiet(clients) && c in clients && Bounded(k.(parsed := []))
    ensures Quiet(clients[c := k.(closed := true)])
  {
  }

  lemma HangUpSafe(s: State, c: ClientId)
    requires Safe(s) && c in s.clients
    ensures Safe(CloseClient(s, c))
  {
    InvParts(s);
    assert Bounded(s.clients[c]);
    ClosedQuiet(s.clients, c, s.clients[c]);
    hide Core, Mapped, InRound, Reported, Quiet, Leaving, Bounded;
    CloseClientSafe(s, c);
  }

  /** Requests before a bad byte are parsed and never issued. */
  lemma GarbleSafe(s: State, c: ClientId, requests: seq<seq<Plan>>)
    requires Safe(s) && c in s.clients
    ensures Safe(CloseClient(PushGroups(s, c, requests), c))
  {
    hide Core, Mapped, InRound, Reported, Quiet, Leaving, PushGroups, CloseClient, Bounded, Safe;
    SafeClientParts(s, c);
    PushGroupsCore(s, c, requests);
    var s1 := PushGroups(s, c, requests);
    MoreParsed(s.clients[c], s1.clients[c]);
    ClosedQuiet(s.clients, c, s1.clients[c]);
    assert s1.clients[c := s1.clients[c].(closed := true)] == s.clients[c := s1.clients[c].(closed := true)];
    LeavingUpdate(s.clients, c, s1.clients[c], s.closing);
    CloseClientSafe(s1, c);
  }

  lemma SafeClientParts(s: State, c: ClientId)
    requires Safe(s) && c in s.clients
    ensures Core(s, multiset{}) && Mapped(s.servers, s.table) && InRound(s.updaters) && Reported(s.updaters)
    ensures Quiet(s.clients) && Leaving(s.clients, s.closing) && Bounded(s.clients[c])
  {
    InvParts(s);
  }

  lemma MoreParsed(cl: Client, k: Client)
    requires Bounded(cl) && k == cl.(parsed := k.parsed, arrived := k.arrived)
    ensures Bounded(k.(parsed := [])) && k.closed == cl.closed
  {
  }

  lemma LeavingUpdate(clients: map<ClientId, Client>, c: ClientId, k: Client, closing: seq<ClientId>)
    requires Leaving(clients, closing) && c in clients && k.closed == clients[c].closed
    ensures Leaving(clients[c := k], closing)
  {
  }

  /** A step that kept the connections and tables, followed by bookkeeping of the active servers. */
  lemma SteadySafe(s: State, t: State, active: set<ServerId>)
    requires Safe(s) && Core(t, multiset{}) && Steady(s, t)
    ensures Safe(t.(active := active))
  {
    InvParts(s);
    hide Conserved, Counted, Wired, Logged, Pooled, Tabled, Mapped, Peered, Owned, Quiet, Leaving, InRound, Reported;
    assert Core(t.(active := active), multiset{});
    hide Core;
    Combine(t.(active := active));
  }

  lemma ServeSafe(s: State, id: ServerId, received: Option<seq<Body>>)
    requires Safe(s) && Srv(s, id).open
    ensures Safe(ServeServer(s, id, received).(active := s.active + {id}))
  {
    hide Core, Safe, Steady, RecvFrom, PushToBufferSet;
    SafeInvParts(s);
    ServeCore(s, id, received);
    SteadySafe(s, ServeServer(s, id, received), s.active + {id});
  }

  lemma SafeInvParts(s: State)
    requires Safe(s)
    ensures Core(s, multiset{})
  {
    InvParts(s);
  }

  lemma ServeCore(s: State, id: ServerId, received: Option<seq<Body>>)
    requires Core(s, multiset{}) && Srv(s, id).open
    ensures var t := ServeServer(s, id, received); Core(t, multiset{}) && Steady(s, t)
  {
    hide Core, Steady, RecvFrom, PushToBufferSet;
    if received.Some? {
      RecvFromCore(s, id, received.value);
      var s1 := RecvFrom(s, id, received.value);
      SteadyLength(s, s1);
      PushToBufferSetCore(s1, id);
      SteadyTrans(s, s1, PushToBufferSet(s1, id));
    } else {
      PushToBufferSetCore(s, id);
    }
  }

  lemma SteadyLength(s: State, t: State)
    requires Steady(s, t)
    ensures |t.servers| == |s.servers|
  {
  }

  lemma ResetSafe(s: State, id: ServerId)
    requires Safe(s) && Srv(s, id).open
    ensures Safe(CloseConn(s, id).(active := s.active + {id}))
  {
    hide Core, Safe, Steady, CloseConn, HeldBy;
    SafeInvParts(s);
    CloseConnCore(s, id, multiset{});
    SteadySafe(s, CloseConn(s, id), s.active + {id});
  }

  lemma WithUpdaters(s: State, us: seq<Updater>)
    requires Core(s, multiset{})
    ensures Core(s.(updaters := us), multiset{})
  {
    DropUpdaters(s);
  }

  lemma SetSlotMapSafe(s: State, targets: seq<Target>)
    requires Core(s, multiset{}) && Mapped(s.servers, s.table) && Quiet(s.clients) && Leaving(s.clients, s.closing) && Apart(targets)
    ensures Safe(SetSlotMap(s, targets).(updaters := []))
  {
    hide Core, Mapped, Quiet, Leaving;
    SetSlotMapCore(s, targets);
    WithUpdaters(SetSlotMap(s, targets), []);
    Combine(SetSlotMap(s, targets).(updaters := []));
  }

  lemma UpdateFailedSafe(s: State)
    requires Core(s, multiset{}) && Mapped(s.servers, s.table) && Quiet(s.clients) && Leaving(s.clients, s.closing)
    requires Reported(s.updaters)
    ensures Safe(UpdateFailed(s))
    ensures UpdateFailed(s).retry != [] && UpdateFailed(s).updaters == [] ==> s.updaters != [] && !SomeOpen(s.updaters)
  {
    hide Core, Mapped, Quiet, Leaving;
    if SomeOpen(s.updaters) {
      Combine(s);
    } else if !s.fullCoverage && s.updaters != [] && Covered(s.updaters[Best(s.updaters)].targets) != {} {
      SetSlotMapSafe(s, s.updaters[Best(s.updaters)].targets);
    } else {
      DiscardAllCore(s);
      Combine(DiscardAll(s));
    }
  }

  lemma SlotMapReplySafe(s: State, u: nat, targets: seq<Target>)
    requires Safe(s) && Apart(targets)
    ensures Safe(NotifyUpdated(s, u, targets))
  {
    hide Core, Mapped, Quiet, Leaving, SetSlotMap, UpdateFailed, Apart;
    InvParts(s);
    if u < |s.updaters| && s.updaters[u].open {
      var s1 := s.(updaters := s.updaters[u := Updater(false, targets)]);
      WithUpdaters(s, s1.updaters);
      if |Covered(targets)| < SLOT_COUNT {
        UpdateFailedSafe(s1);
      } else {
        SetSlotMapSafe(s1, targets);
      }
    }
  }

  lemma ExpireSafe(s: State)
    requires Safe(s)
    ensures Safe(s.(expired := true))
  {
    InvParts(s);
    hide Core, Mapped, Quiet, Leaving, InRound, Reported;
    ExpireCore(s, multiset{});
    Combine(s.(expired := true));
  }

  // ----- the end of a turn -----

  /** No command waits with nothing left to wake it, and no closed client is left. */
  ghost predicate Awake(s: State) {
    && (s.retry != [] || s.expired ==> SomeOpen(s.updaters))
    && s.closing == []
    && (forall c :: c in s.clients ==> !s.clients[c].closed)
  }

  /** Every client with output is watched for writing. */
  ghost predicate Watched(clients: map<ClientId, Client>) {
    forall c :: c in clients && clients[c].pending ==> clients[c].watched
  }

  lemma DepartedSafe(s: State)
    requires Safe(s)
    ensures var t := AfterEvents(s);
            Safe(t) && t.closing == [] && t.updaters == s.updaters && (forall c :: c in t.clients ==> !t.clients[c].closed)
  {
    InvParts(s);
    var s0 := s.(closing := []);
    assert Core(s0, multiset{}) by {
      hide Conserved, Counted, Wired, Logged, Pooled, Tabled, Peered, Owned;
    }
    hide Core, Mapped, Reported, InRound;
    DepartAllCore(s0, s.closing);
    var s1 := DepartAll(s0, s.closing);
    hide DepartAll;
    var t := AfterEvents(s);
    KeepCore(s1, t.expired);
    hide Bounded;
    assert Quiet(t.clients) && Leaving(t.clients, t.closing);
    Combine(t);
  }

  lemma KeepCore(s: State, expired: bool)
    requires Core(s, multiset{})
    ensures Core(s.(expired := expired, active := {}), multiset{})
  {
    hide Conserved, Counted, Wired, Logged, Pooled, Tabled, Peered, Owned;
  }

  lemma OpenRound(s: State, n: nat)
    requires Safe(s) && n > 0
    ensures var t := s.(updaters := seq(n, _ => Updater(true, []))); Safe(t) && SomeOpen(t.updaters)
  {
    InvParts(s);
    var us := seq(n, _ => Updater(true, []));
    assert us[0].open;
    WithUpdaters(s, us);
    hide Core, Mapped, Quiet, Leaving;
    Combine(s.(updaters := us));
  }

  lemma PollBounded(cl: Client)
    requires Bounded(cl)
    ensures Bounded(Polled(cl)) && SameLists(cl, Polled(cl)) && Polled(cl).closed == cl.closed && Polled(cl).pending == cl.pending
    ensures !cl.closed && cl.pending ==> Polled(cl).watched
  {
  }

  /** Carrying out the registrations keeps the invariant, and every open client with output is then
      watched for writing. */
  lemma PollSafe(s: State)
    requires Safe(s)
    ensures var t := PollControl(s);
            && Safe(t) && t.clients.Keys == s.clients.Keys && t == s.(clients := t.clients)
            && (forall c :: c in s.clients ==> SameLists(s.clients[c], t.clients[c]) && t.clients[c].closed == s.clients[c].closed)
            && (forall c :: Listening(t, c) && t.clients[c].pending ==> t.clients[c].watched)
  {
    InvParts(s);
    var t := PollControl(s);
    forall c | c in s.clients
      ensures Bounded(t.clients[c]) && SameLists(s.clients[c], t.clients[c]) && t.clients[c].closed == s.clients[c].closed
      ensures !t.clients[c].closed && t.clients[c].pending ==> t.clients[c].watched
    {
      PollBounded(s.clients[c]);
    }
    hide Core, Mapped, InRound, Reported, Bounded, SameLists, Polled;
    SameListsCore(s, t.clients, s.closing);
    Combine(t);
  }

  lemma PollAwake(s: State)
    requires Safe(s) && Awake(s)
    ensures Awake(PollControl(s)) && Watched(PollControl(s).clients)
  {
    hide Safe, PollControl, SameLists;
    PollSafe(s);
  }

  lemma TurnEndSafe(s: State, connected: nat)
    requires Safe(s)
    ensures Safe(TurnEnd(s, connected))
    ensures Awake(TurnEnd(s, connected)) && Watched(TurnEnd(s, connected).clients)
  {
    hide AfterEvents, Safe, NewRound, PollControl, SameLists, Awake, Watched;
    PollSafe(s);
    var s1 := PollControl(s);
    DepartedSafe(s1);
    var s2 := NewRound(AfterEvents(s1), connected);
    NewRoundSafe(AfterEvents(s1), connected);
    PollSafe(s2);
    PollAwake(s2);
  }

  lemma NewRoundSafe(s: State, connected: nat)
    requires Safe(s) && s.closing == [] && forall c :: c in s.clients ==> !s.clients[c].closed
    ensures Safe(NewRound(s, connected)) && Awake(NewRound(s, connected))
  {
    InvParts(s);
    hide Core, Mapped, Quiet, Leaving, Safe, UpdateFailed;
    if s.updaters == [] && (s.retry != [] || s.expired) {
      if connected == 0 {
        EmptyRoundFails(s);
      } else {
        OpenRound(s, connected);
      }
    }
  }

  lemma EmptyRoundFails(s: State)
    requires Safe(s) && s.updaters == [] && s.closing == [] && forall c :: c in s.clients ==> !s.clients[c].closed
    ensures Safe(UpdateFailed(s)) && Awake(UpdateFailed(s))
  {
    InvParts(s);
    hide Core, Mapped, Quiet, HeldBy;
    UpdateFailedSafe(s);
    DiscardAllCore(s);
    assert UpdateFailed(s) == DiscardAll(s);
  }

  // ----- every run -----

  lemma ApplySafe(s: State, e: Event)
    requires Safe(s) && Sound(e)
    ensures Safe(Apply(s, e))
    ensures e.EndTurn? ==> Awake(Apply(s, e)) && Watched(Apply(s, e).clients)
  {
    hide Safe, Awake, Watched, OnEvents, CloseClient, PushGroups, ServeServer, CloseConn, NotifyUpdated, TurnEnd;
    match e
    case Accept => AcceptSafe(s);
    case Ready(c, read, write) => if Listening(s, c) { ReadySafe(s, c, read, Writable(s, c, write)); }
    case Garble(c, requests) => if Listening(s, c) { GarbleSafe(s, c, requests); }
    case HangUp(c) => if Listening(s, c) { HangUpSafe(s, c); }
    case Serve(id, received) => if Srv(s, id).open { ServeSafe(s, id, received); }
    case Reset(id) => if Srv(s, id).open { ResetSafe(s, id); }
    case SlotMapReply(u, targets) => SlotMapReplySafe(s, u, targets);
    case Expire => ExpireSafe(s);
    case EndTurn(connected) => TurnEndSafe(s, connected);
  }

  lemma {:induction false} RunSafe(s: State, events: seq<Event>)
    requires Safe(s) && forall i :: 0 <= i < |events| ==> Sound(events[i])
    ensures Safe(Run(s, events))
    decreases |events|
  {
    hide Safe, Sound, Apply;
    if events != [] {
      ApplySafe(s, events[0]);
      RunSafe(Apply(s, events[0]), events[1..]);
    }
  }
}
