/** The guarantees of a proxy thread, over every run from its start. */
module ThreadTheorems {
  import opened Options
  import opened ThreadState
  import opened ThreadInvariants
  import opened CommandSteps
  import opened ServerSteps
  import opened ClientSteps
  import opened RoundSteps
  import opened ThreadSafety

  ghost predicate AllSound(events: seq<Event>) {
    forall i :: 0 <= i < |events| ==> Sound(events[i])
  }

  /** The state is reached by a run in which every reported slot map gives no slot to two nodes. */
  ghost predicate Reachable(s: State) {
    exists readonly, fullCoverage, events :: AllSound(events) && s == Run(Init(readonly, fullCoverage), events)
  }

  lemma ReachableSafe(s: State)
    requires Reachable(s)
    ensures Safe(s)
  {
    var readonly, fullCoverage, events :| AllSound(events) && s == Run(Init(readonly, fullCoverage), events);
    InitSafe(readonly, fullCoverage);
    hide Safe, Init, Run, Sound;
    RunSafe(Init(readonly, fullCoverage), events);
  }

  // ----- conservation -----

  lemma {:induction false} HeldInTwo(servers: seq<Server>, i: nat, j: nat)
    requires i < j < |servers|
    ensures HeldBy(servers[i]) + HeldBy(servers[j]) <= HeldIn(servers)
  {
    hide HeldBy;
    if i == 0 {
      HeldInContains(servers[1..], j - 1);
    } else {
      HeldInTwo(servers[1..], i - 1, j - 1);
    }
  }

  /** Every unanswered command of an issued group is held exactly once, by one server queue or by the
      retry list, and nothing else is held at all. */
  lemma CommandsConserved(s: State, r: Ref)
    requires Reachable(s)
    ensures Held(s)[r] == if Outstanding(s.groups, r) then 1 else 0
    ensures forall i, j :: 0 <= i < j < |s.servers| ==> !(r in HeldBy(s.servers[i]) && r in HeldBy(s.servers[j]))
    ensures forall i :: 0 <= i < |s.servers| ==> !(r in HeldBy(s.servers[i]) && r in s.retry)
    ensures r in Held(s) ==> r.client in s.clients && r.group in s.clients[r.client].awaiting
  {
    ReachableSafe(s);
    InvParts(s);
    hide Counted, Wired, Logged, Pooled, Tabled, Peered, Owned, Mapped, Quiet, Leaving;
    assert Held(s)[r] + multiset{}[r] == if Outstanding(s.groups, r) then 1 else 0;
    if r in Held(s) {
      AwaitingOf(s.clients, s.groups, r, s.nextClient, s.nextGroup);
    }
    hide HeldBy, Core;
    forall i, j | 0 <= i < j < |s.servers| ensures !(r in HeldBy(s.servers[i]) && r in HeldBy(s.servers[j])) {
      HeldInTwo(s.servers, i, j);
    }
    forall i | 0 <= i < |s.servers| ensures !(r in HeldBy(s.servers[i]) && r in s.retry) {
      HeldInContains(s.servers, i);
      if r in s.retry {
        assert multiset(s.retry)[r] >= 1;
      }
    }
  }

  // ----- matching -----

  /** Every reply ever handed to a command answers the request that stage of the command made, on
      the connection the reply came from; and what is still in flight stands in the same order in
      the sent queue, nulled entries and the greeting included. */
  lemma RepliesMatch(s: State)
    requires Reachable(s)
    ensures forall i :: 0 <= i < |s.log| ==> s.log[i].answers == Asked(s.log[i].sid, s.log[i].conn, s.log[i].ref, s.log[i].stage)
    ensures forall id, i :: 0 <= id < |s.servers| && 0 <= i < |s.servers[id].sent| ==>
              && |s.servers[id].wire| == |s.servers[id].sent|
              && (s.servers[id].sent[i].Some? ==>
                    var r := s.servers[id].sent[i].value;
                    Alive(s.groups, r) && s.servers[id].wire[i] == Asked(id, s.servers[id].conn, r, CmdAt(s.groups, r).stage))
  {
    ReachableSafe(s);
    InvParts(s);
    hide Counted, Pooled, Tabled, Peered, Owned, Mapped, Quiet, Leaving;
    forall id, i | 0 <= id < |s.servers| && 0 <= i < |s.servers[id].sent|
      ensures && |s.servers[id].wire| == |s.servers[id].sent|
              && (s.servers[id].sent[i].Some? ==>
                    var r := s.servers[id].sent[i].value;
                    Alive(s.groups, r) && s.servers[id].wire[i] == Asked(id, s.servers[id].conn, r, CmdAt(s.groups, r).stage))
    {
      assert Aligned(s.groups, id, s.servers[id]);
      if s.servers[id].sent[i].Some? {
        SentAlive(s.servers, s.groups, id, i, Held(s));
      }
    }
  }

  // ----- waking up -----

  /** After every turn of the loop a command that waits to be retried, or an expired slot map, has
      an update round under way with an updater that will report. */
  lemma NothingSleeps(s: State, connected: nat)
    requires Reachable(s)
    ensures Awake(Apply(s, EndTurn(connected)))
  {
    ReachableSafe(s);
    hide Safe, Apply, Awake;
    ApplySafe(s, EndTurn(connected));
  }

  /** And every client with replies to be written is watched for writing. */
  lemma OutputWatched(s: State, connected: nat)
    requires Reachable(s)
    ensures Watched(Apply(s, EndTurn(connected)).clients)
  {
    ReachableSafe(s);
    hide Safe, Apply, Watched;
    ApplySafe(s, EndTurn(connected));
  }

  // ----- giving up -----

  /** The commands swept when the cluster is given up. */
  function Swept(s: State): seq<Ref> {
    ClearMap(s.(updaters := [])).retry
  }

  ghost predicate SameShape(gs: Groups, hs: Groups) {
    gs.Keys == hs.Keys &&
    forall g :: g in gs ==> hs[g].client == gs[g].client && hs[g].issued == gs[g].issued && |hs[g].cmds| == |gs[g].cmds|
  }

  lemma {:induction false} AnswerAllShape(s: State, refs: seq<Ref>)
    ensures SameShape(s.groups, AnswerAll(s, refs).groups)
    decreases |refs|
  {
    if refs != [] {
      var t := OnRemoteResponsed(s, refs[0], Failure);
      assert SameShape(s.groups, t.groups) by {
        if Alive(s.groups, refs[0]) {
          FailureCompletes(CmdAt(s.groups, refs[0]));
        }
      }
      hide OnRemoteResponsed;
      AnswerAllShape(t, refs[1..]);
    }
  }

  /** A state in which a round may end: all that holds between events but for an open updater. */
  ghost predicate Settled(s: State) {
    Core(s, multiset{}) && Mapped(s.servers, s.table) && Quiet(s.clients) && Leaving(s.clients, s.closing)
  }

  /** What is swept is every outstanding command, each once. */
  lemma SweptOnce(s: State)
    requires Settled(s)
    ensures NoDup(Swept(s)) && forall r :: r in Swept(s) <==> Outstanding(s.groups, r)
  {
    DropUpdaters(s);
    ClearMapCore(s.(updaters := []));
    var t := ClearMap(s.(updaters := []));
    ClearGroups(s);
    NothingIn(t.servers);
    assert Held(t) == multiset(t.retry);
    hide Counted, Wired, Logged, Pooled, Tabled, Peered, Owned, Mapped, Quiet, Leaving, HeldBy, ClearMap;
    assert forall r :: multiset(t.retry)[r] + multiset{}[r] == if Outstanding(t.groups, r) then 1 else 0;
    hide Core;
    forall r ensures r in t.retry <==> Outstanding(s.groups, r) {
      assert multiset(t.retry)[r] + multiset{}[r] == if Outstanding(t.groups, r) then 1 else 0;
      assert r in t.retry <==> r in multiset(t.retry);
    }
    AtMostOnce(t.retry);
  }

  lemma ClearGroups(s: State)
    requires Settled(s)
    ensures ClearMap(s.(updaters := [])).groups == s.groups
  {
    DropUpdaters(s);
    hide Core, HeldBy;
    CloseFromCore(s.(updaters := []), s.table.Values, 0, multiset{});
  }

  lemma AtMostOnce(q: seq<Ref>)
    requires forall r :: multiset(q)[r] <= 1
    ensures NoDup(q)
  {
    forall i, j | 0 <= i < j < |q| ensures q[i] != q[j] {
      assert q == q[..j] + [q[j]] + q[j + 1..];
      assert multiset(q) == multiset(q[..j]) + multiset{q[j]} + multiset(q[j + 1..]);
      assert multiset(q)[q[j]] <= 1;
      assert multiset(q)[q[j]] == multiset(q[..j])[q[j]] + 1 + multiset(q[j + 1..])[q[j]];
      assert q[..j][i] == q[i];
      assert q[i] in multiset(q[..j]);
    }
  }

  /** The round is over without a slot map: no updater is open, and none may be used. */
  predicate GivesUp(s: State) {
    !SomeOpen(s.updaters) &&
    (s.fullCoverage || s.updaters == [] || Covered(s.updaters[Best(s.updaters)].targets) == {})
  }

  /** `t` has nothing outstanding left of `s`: every server that was mapped is closed, no server or
      list holds a command, no client awaits one, and the commands that were outstanding, each
      swept once, are all answered. */
  ghost predicate Drained(s: State, t: State) {
    && t.retry == [] && t.updaters == [] && t.table == map[]
    && (forall x :: x in s.table ==> s.table[x] < |t.servers| && !t.servers[s.table[x]].open)
    && (forall id :: 0 <= id < |t.servers| ==> t.servers[id].queue == [] && Live(t.servers[id].sent) == [])
    && (forall c :: c in t.clients ==> t.clients[c].awaitingCount == 0)
    && NoDup(Swept(s))
    && (forall r :: Outstanding(s.groups, r) <==> r in Swept(s))
    && (forall r :: r in Swept(s) ==> Alive(t.groups, r) && CmdAt(t.groups, r).answered)
  }

  lemma GivingUp(s: State)
    requires GivesUp(s)
    ensures UpdateFailed(s) == DiscardAll(s)
  {
    hide SetSlotMap, DiscardAll;
  }

  lemma DiscardShape(s: State)
    requires Settled(s)
    ensures SameShape(s.groups, DiscardAll(s).groups)
  {
    ClearGroups(s);
    var s1 := ClearMap(s.(updaters := []));
    AnswerAllShape(s1.(retry := []), s1.retry);
    hide Settled, ClearMap, AnswerAll, SameShape;
  }

  lemma SweptAnswered(gs: Groups, hs: Groups, swept: seq<Ref>)
    requires SameShape(gs, hs) && (forall r :: !Outstanding(hs, r)) && forall r :: r in swept <==> Outstanding(gs, r)
    ensures forall r :: r in swept ==> Alive(hs, r) && CmdAt(hs, r).answered
  {
    forall r | r in swept ensures Alive(hs, r) && CmdAt(hs, r).answered {
      assert Outstanding(gs, r) && !Outstanding(hs, r);
    }
  }

  lemma AllEmpty(servers: seq<Server>)
    requires forall id :: 0 <= id < |servers| ==> HeldBy(servers[id]) == multiset{}
    ensures forall id :: 0 <= id < |servers| ==> servers[id].queue == [] && Live(servers[id].sent) == []
  {
    forall id | 0 <= id < |servers| ensures servers[id].queue == [] && Live(servers[id].sent) == [] {
      EmptyHeld(servers[id]);
    }
  }

  lemma GivingUpDrains(s: State)
    requires Settled(s) && GivesUp(s)
    ensures Drained(s, UpdateFailed(s))
  {
    hide Core, Mapped, Quiet, Leaving, NoDup, Swept, DiscardAll, UpdateFailed, GivesUp, Onward, Outstanding, Alive, Live, HeldBy, SameShape;
    GivingUp(s);
    SweptOnce(s);
    DiscardAllCore(s);
    DiscardShape(s);
    var t := DiscardAll(s);
    SweptAnswered(s.groups, t.groups, Swept(s));
    AllEmpty(t.servers);
  }

  lemma EmptyHeld(v: Server)
    requires HeldBy(v) == multiset{}
    ensures v.queue == [] && Live(v.sent) == []
  {
    assert |HeldBy(v)| == |multiset(v.queue)| + |multiset(Live(v.sent))|;
    assert |multiset(v.queue)| == |v.queue| && |multiset(Live(v.sent))| == |Live(v.sent)|;
  }

  /** The last updater of a round reports too few slots and none of the round may be used. */
  predicate LastReportFails(s: State, u: nat, targets: seq<Target>) {
    && u < |s.updaters| && s.updaters[u].open
    && |Covered(targets)| < SLOT_COUNT
    && GivesUp(s.(updaters := s.updaters[u := Updater(false, targets)]))
  }

  /** An update round that fails leaves no command outstanding in the thread. */
  lemma FailedRoundDrains(s: State, u: nat, targets: seq<Target>)
    requires Reachable(s) && LastReportFails(s, u, targets)
    ensures Drained(s.(updaters := s.updaters[u := Updater(false, targets)]), Apply(s, SlotMapReply(u, targets)))
  {
    hide Core, Mapped, Quiet, Leaving, Drained, Reachable, GivesUp, UpdateFailed, SetSlotMap, InRound, Reported;
    ReachableSafe(s);
    InvParts(s);
    var s1 := s.(updaters := s.updaters[u := Updater(false, targets)]);
    WithUpdaters(s, s1.updaters);
    GivingUpDrains(s1);
  }

  /** So does a turn that ends with a round due but no node to ask. */
  lemma NoNodeDrains(s: State)
    requires Reachable(s)
    requires var s1 := AfterEvents(PollControl(s)); s1.updaters == [] && (s1.retry != [] || s1.expired)
    ensures Drained(AfterEvents(PollControl(s)), Apply(s, EndTurn(0)))
  {
    hide Core, Mapped, Quiet, Leaving, Drained, AfterEvents, Safe, UpdateFailed, Reachable, PollControl;
    ReachableSafe(s);
    PollSafe(s);
    DepartedSafe(PollControl(s));
    var s1 := AfterEvents(PollControl(s));
    InvParts(s1);
    GivingUpDrains(s1);
    assert Apply(s, EndTurn(0)) == PollControl(UpdateFailed(s1));
    PollDrained(s1, UpdateFailed(s1));
  }

  lemma PollDrained(s: State, t: State)
    requires Drained(s, t)
    ensures Drained(s, PollControl(t))
  {
    hide NoDup, Swept, Outstanding, Alive, Live;
  }

  // ----- order, counters, bounds -----

  /** The groups of a client are, in the order their requests arrived, those already written out,
      those in the output, those awaited and those only parsed; a group in the output has all its
      commands answered. */
  lemma RepliesInOrder(s: State, c: ClientId)
    requires Reachable(s) && c in s.clients
    ensures var cl := s.clients[c];
            && cl.arrived == cl.written + cl.ready + cl.awaiting + cl.parsed && NoDup(cl.arrived)
            && (forall g :: g in cl.ready ==> g in s.groups && forall i :: 0 <= i < |s.groups[g].cmds| ==> s.groups[g].cmds[i].answered)
  {
    ReachableSafe(s);
    InvParts(s);
    hide Conserved, Wired, Logged, Pooled, Tabled, Peered, Mapped, Quiet, Leaving;
    var cl := s.clients[c];
    assert ClientOwns(s.groups, c, cl, s.nextGroup);
    forall g | g in cl.ready ensures g in s.groups && forall i :: 0 <= i < |s.groups[g].cmds| ==> s.groups[g].cmds[i].answered {
      UnansweredBound(s.groups[g].cmds);
    }
  }

  /** The groups of `q` that have an unanswered command. */
  function Unfinished(gs: Groups, q: seq<GroupId>): seq<GroupId> {
    if q == [] then []
    else (if q[0] in gs && (exists i :: 0 <= i < |gs[q[0]].cmds| && !gs[q[0]].cmds[i].answered) then [q[0]] else []) + Unfinished(gs, q[1..])
  }

  lemma {:induction false} WaitingUnfinished(gs: Groups, q: seq<GroupId>)
    requires Counted(gs)
    ensures Waiting(gs, q) == |Unfinished(gs, q)|
  {
    if q != [] {
      if q[0] in gs {
        UnansweredBound(gs[q[0]].cmds);
      }
      WaitingUnfinished(gs, q[1..]);
    }
  }

  /** The counters say what they are meant to say, and the lists stay within their bounds. */
  lemma CountersAndBounds(s: State, c: ClientId)
    requires Reachable(s) && c in s.clients
    ensures var cl := s.clients[c];
            && cl.awaitingCount == |Unfinished(s.groups, cl.awaiting)|
            && (forall g :: g in cl.awaiting ==> g in s.groups && s.groups[g].counter == Unanswered(s.groups[g].cmds))
            && |cl.ready| <= 256 && |cl.awaiting| <= 128 && (cl.pending ==> |cl.awaiting| <= 64)
            && (cl.pending <==> cl.ready != [])
            && (cl.parsed != [] && !cl.closed ==> cl.awaiting != [] || cl.pending)
  {
    ReachableSafe(s);
    InvParts(s);
    hide Conserved, Wired, Logged, Pooled, Tabled, Peered, Mapped, Leaving;
    var cl := s.clients[c];
    assert ClientOwns(s.groups, c, cl, s.nextGroup);
    WaitingUnfinished(s.groups, cl.awaiting);
  }

  // ----- peers -----

  /** Every command held is alive, its client is there, and the server that holds it is a peer of
      that client; so once a client is gone, and it is gone by the end of the turn in which it
      closed, nothing refers to its commands. */
  lemma NoDanglingReference(s: State, r: Ref)
    requires Reachable(s) && r in Held(s)
    ensures Alive(s.groups, r) && r.client in s.clients
    ensures forall id :: 0 <= id < |s.servers| && r in HeldBy(s.servers[id]) ==> r.client in s.peers && id in s.peers[r.client]
  {
    CommandsConserved(s, r);
    ReachableSafe(s);
    InvParts(s);
    hide Conserved, Counted, Wired, Logged, Pooled, Tabled, Owned, Mapped, Quiet, Leaving;
  }

  lemma ClosedClientsForgotten(s: State, connected: nat, c: ClientId, r: Ref)
    requires Reachable(s) && c in s.clients && s.clients[c].closed
    ensures var t := Apply(s, EndTurn(connected)); c !in t.clients && (r in Held(t) ==> r.client != c)
  {
    hide Safe, Apply, TurnEnd, Core, Mapped, Quiet, Reachable, InRound, Reported;
    ReachableSafe(s);
    InvParts(s);
    assert c in s.closing;
    var t := Apply(s, EndTurn(connected));
    EndTurnIs(s, connected);
    ApplySafe(s, EndTurn(connected));
    LeftForGood(s, connected, c);
    assert Core(t, multiset{}) by { InvParts(t); }
    NothingRefers(t, c);
  }

  lemma EndTurnIs(s: State, connected: nat)
    ensures Apply(s, EndTurn(connected)) == TurnEnd(s, connected)
  {
    hide TurnEnd;
  }

  lemma LeftForGood(s: State, connected: nat, c: ClientId)
    requires Safe(s) && c in s.closing
    ensures c !in TurnEnd(s, connected).clients
  {
    hide Safe, AfterEvents, NewRound, SameLists;
    PollSafe(s);
    var s1 := PollControl(s);
    DepartedSafe(s1);
    ClosingLeave(s1, c);
    NewRoundKeys(AfterEvents(s1), connected);
  }

  lemma ClosingLeave(s: State, c: ClientId)
    requires Safe(s) && c in s.closing
    ensures c !in AfterEvents(s).clients
  {
    InvParts(s);
    var s0 := s.(closing := []);
    assert Core(s0, multiset{}) by {
      hide Conserved, Counted, Wired, Logged, Pooled, Tabled, Peered, Owned;
    }
    hide Core, Mapped;
    DepartAllCore(s0, s.closing);
  }

  lemma NewRoundKeys(s: State, connected: nat)
    requires Safe(s)
    ensures NewRound(s, connected).clients.Keys == s.clients.Keys
  {
    InvParts(s);
    hide Core, Mapped, Quiet, Leaving, HeldBy, Flowing;
    if s.updaters == [] && (s.retry != [] || s.expired) && connected == 0 {
      DiscardAllCore(s);
      assert UpdateFailed(s) == DiscardAll(s);
    }
  }

  // ----- the pool and the address map -----

  /** The pool holds exactly the closed servers, each once and with empty queues.  As long as no
      connection has been refused, the address map holds exactly the open ones, each under its own
      address. */
  lemma PoolDiscipline(s: State, id: ServerId)
    requires Reachable(s) && id < |s.servers|
    ensures s.servers[id].open <==> id !in s.pool
    ensures !s.servers[id].open ==> s.servers[id].queue == [] && s.servers[id].sent == []
    ensures NoDup(s.pool)
    ensures !s.refused ==> Addressed(s.servers, s.addrMap)
    ensures !s.refused ==> (s.servers[id].open <==> exists a :: a in s.addrMap && s.addrMap[a] == id)
  {
    ReachableSafe(s);
    InvParts(s);
    hide Conserved, Counted, Logged, Tabled, Owned, Peered, Mapped, Quiet, Leaving;
    assert Aligned(s.groups, id, s.servers[id]);
    hide Wired;
    if !s.refused && s.servers[id].open {
      assert s.servers[id].addr in s.addrMap && s.addrMap[s.servers[id].addr] == id;
    }
  }

  /** Asking for the server of an address keeps the address map right if and only if it does not come
      to a connection that is refused. */
  lemma GetServerAddressedIff(s: State, addr: Addr, refused: bool)
    requires Core(s, multiset{}) && Addressed(s.servers, s.addrMap)
    ensures var t := GetServer(s, addr, refused).0; Addressed(t.servers, t.addrMap) <==> !(addr !in s.addrMap && refused)
  {
    if addr !in s.addrMap {
      RefillCore(s);
      RefillOpened(s);
      var s1 := Refill(s);
      PoolOf(s1);
      RefillAddressed(s);
      hide Core, Opened, Refill, Addressed;
      AllocShape(s1, addr, refused);
      AllocRefilled(s, addr, refused);
      hide AllocServer;
      TriedAddressedIff(s1.servers, s1.addrMap, s1.pool[|s1.pool| - 1], addr, s.readonly, refused);
    }
  }

  lemma RefillAddressed(s: State)
    requires Addressed(s.servers, s.addrMap)
    ensures Addressed(Refill(s).servers, Refill(s).addrMap) && Refill(s).readonly == s.readonly
  {
  }

  lemma TriedAddressedIff(servers: seq<Server>, addrMap: map<Addr, ServerId>, id: ServerId, addr: Addr, readonly: bool, refused: bool)
    requires Addressed(servers, addrMap) && addr !in addrMap && id < |servers| && !servers[id].open
    ensures Addressed(servers[id := Tried(servers[id], id, addr, readonly, refused)], addrMap[addr := id]) <==> !refused
  {
    var us, m := servers[id := Tried(servers[id], id, addr, readonly, refused)], addrMap[addr := id];
    if refused {
      assert addr in m && !us[m[addr]].open;
    }
  }

  lemma PoolOf(s: State)
    requires Core(s, multiset{})
    ensures forall id :: id in s.pool ==> id < |s.servers| && !s.servers[id].open
    ensures s.pool != [] ==> s.pool[|s.pool| - 1] < |s.servers| && !s.servers[s.pool[|s.pool| - 1]].open
  {
    hide Conserved, Counted, Wired, Logged, Owned, Peered;
    if s.pool != [] {
      assert s.pool[|s.pool| - 1] in s.pool;
    }
  }

  const MISROUTED := [Target(1, {0}, true), Target(2, {1}, false)]

  /** The slot of the first node goes to the second. */
  predicate Misrouted(s: State) {
    && 1 in s.addrMap && 2 in s.addrMap && s.addrMap[1] == s.addrMap[2]
    && ServerBySlot(s, 0) == Some(s.addrMap[1]) && Srv(s, s.addrMap[1]).addr == 2
  }

  /** A node that refuses its connection is registered with the server that goes to the next node, and
      the slots of the first node are served by the second. */
  lemma RefusedMisroutes(readonly: bool)
    ensures Misrouted(Run(Init(readonly, false), [EndTurn(1), SlotMapReply(0, MISROUTED)]))
  {
    hide ReplaceMap, SetSlotMap, UpdateFailed, TurnEnd, Run, NotifyUpdated, Misrouted;
    var s0 := Init(readonly, false);
    FirstRound(readonly);
    TwoEvents(s0, EndTurn(1), SlotMapReply(0, MISROUTED));
    PartialAdopted(s0.(updaters := [Updater(true, [])]));
    MisroutedAfter(s0.(updaters := [Updater(false, MISROUTED)]));
  }

  lemma MisroutedAfter(s: State)
    requires s.servers == [] && s.pool == [] && s.addrMap == map[] && s.table == map[] && s.retry == []
    ensures Misrouted(SetSlotMap(s, MISROUTED).(updaters := []))
  {
    hide ReplaceMap, SetSlotMap;
    MisroutedMap(s);
    NothingToRetry(s, MISROUTED);
  }

  lemma TwoEvents(s: State, d: Event, e: Event)
    ensures Run(s, [d, e]) == Apply(Apply(s, d), e)
  {
    hide Apply;
    assert [d, e][1..] == [e];
    assert Run(Apply(s, d), [e]) == Apply(Apply(s, d), e);
  }

  lemma NothingToRetry(s: State, targets: seq<Target>)
    requires ReplaceMap(s, targets).retry == []
    ensures SetSlotMap(s, targets) == ReplaceMap(s, targets).(expired := false)
  {
    hide ReplaceMap;
  }

  lemma FirstRound(readonly: bool)
    ensures Apply(Init(readonly, false), EndTurn(1)) == Init(readonly, false).(updaters := [Updater(true, [])])
  {
    var s := Init(readonly, false);
    assert PollControl(s) == s;
    assert AfterEvents(s) == s;
    assert seq(1, _ => Updater(true, [])) == [Updater(true, [])];
    assert NewRound(s, 1) == s.(updaters := [Updater(true, [])]);
  }

  lemma PartialAdopted(s: State)
    requires !s.fullCoverage && s.updaters == [Updater(true, [])]
    ensures NotifyUpdated(s, 0, MISROUTED) == SetSlotMap(s.(updaters := [Updater(false, MISROUTED)]), MISROUTED).(updaters := [])
  {
    hide SetSlotMap;
    assert Covered(MISROUTED) == {0, 1} by {
      assert MISROUTED[1..] == [Target(2, {1}, false)];
      assert MISROUTED[1..][1..] == [];
    }
    assert 0 in Covered(MISROUTED) && |{0, 1}| == 2;
    hide Covered;
    var us := [Updater(false, MISROUTED)];
    assert s.updaters[0 := Updater(false, MISROUTED)] == us && !SomeOpen(us);
    assert Best(us) == 0;
    assert UpdateFailed(s.(updaters := us)) == SetSlotMap(s.(updaters := us), MISROUTED).(updaters := []);
  }

  lemma MisroutedMap(s: State)
    requires s.servers == [] && s.pool == [] && s.addrMap == map[] && s.table == map[] && s.retry == []
    ensures var t := ReplaceMap(s, MISROUTED);
            && t.addrMap == map[1 := 7, 2 := 7] && t.table == map[0 := 7, 1 := 7] && t.retry == []
            && 7 < |t.servers| && t.servers[7].open && t.servers[7].addr == 2
  {
    hide CloseFrom, AssignOne;
    var w0 := Swap(s, {}, {});
    RefusedFirst(w0);
    var w1 := AssignOne(w0, MISROUTED[0]);
    AcceptedSecond(w1);
    var w2 := AssignOne(w1, MISROUTED[1]);
    assert AssignAll(w0, MISROUTED) == w2 by {
      assert MISROUTED[1..] == [MISROUTED[1]] && MISROUTED[1..][1..] == [];
    }
    assert w2.removed - w2.mapped == {};
    CloseNothing(w2.st, {}, 0);
    assert ReplaceMap(s, MISROUTED) == w2.st;
  }

  lemma RefusedFirst(w: Swap)
    requires w.st.servers == [] && w.st.pool == [] && w.st.addrMap == map[] && w.st.table == map[] && w.st.retry == []
    requires w.removed == {} && w.mapped == {}
    ensures var v := AssignOne(w, MISROUTED[0]);
            && v.removed == {} && v.mapped == {7} && v.st.table == map[0 := 7] && v.st.addrMap == map[1 := 7] && v.st.retry == []
            && |v.st.servers| == 8 && !v.st.servers[7].open && |v.st.pool| == 8 && v.st.pool[7] == 7
  {
  }

  lemma AcceptedSecond(w: Swap)
    requires w.removed == {} && w.mapped == {7} && w.st.table == map[0 := 7] && w.st.addrMap == map[1 := 7] && w.st.retry == []
    requires |w.st.servers| == 8 && |w.st.pool| == 8 && w.st.pool[7] == 7
    ensures var v := AssignOne(w, MISROUTED[1]);
            && v.removed == {} && v.mapped == {7} && v.st.table == map[0 := 7, 1 := 7] && v.st.addrMap == map[1 := 7, 2 := 7] && v.st.retry == []
            && 7 < |v.st.servers| && v.st.servers[7].open && v.st.servers[7].addr == 2
  {
  }

  lemma {:induction false} CloseNothing(s: State, ids: set<ServerId>, k: nat)
    requires ids == {}
    ensures CloseFrom(s, ids, k) == s
    decreases |s.servers| - k
  {
    if k < |s.servers| {
      CloseNothing(s, ids, k + 1);
    }
  }
}
