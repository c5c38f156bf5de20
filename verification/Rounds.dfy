/** Slot map rounds: when one starts, which map is adopted, and where the commands that waited for it go. */
module Rounds {
  import opened Options
  import opened ThreadState
  import opened ThreadInvariants
  import opened CommandSteps
  import opened ServerSteps
  import opened ClientSteps
  import opened RoundSteps
  import opened ThreadSafety
  import opened ThreadTheorems
  import opened Selecting
  import opened Replying

  // ----- retrying -----

  /** The slot of the command leads to no open server. */
  ghost predicate Lost(s: State, r: Ref) {
    Alive(s.groups, r) && forall x: Slot, id: ServerId :: GoesBy(CmdAt(s.groups, r), x) ==> !Leads(s, x, id)
  }

  lemma LostWhen(s: State, r: Ref)
    requires Alive(s.groups, r)
    ensures Lost(s, r) <==> ServerBySlot(s, CmdAt(s.groups, r).CurrentSlot()).None?
  {
    var c := CmdAt(s.groups, r);
    assert forall x :: GoesBy(c, x) <==> x == c.CurrentSlot();
    var x := c.CurrentSlot();
    if ServerBySlot(s, x).Some? {
      assert Leads(s, x, s.table[x]);
    }
  }

  lemma StillLost(s: State, t: State, r: Ref)
    requires Grown(s, t) && t.groups == s.groups
    ensures Lost(t, r) <==> Lost(s, r)
  {
    assert forall x: Slot, id: ServerId :: Leads(t, x, id) <==> Leads(s, x, id);
  }

  ghost predicate SomeLost(s: State, refs: seq<Ref>) {
    exists r :: r in refs && Lost(s, r)
  }

  /** One command is retried. */
  function RetryOne(s: State, r: Ref): State {
    var s1 := SelectServer(s, r);
    if Alive(s.groups, r) && ServerBySlot(s, CmdAt(s.groups, r).CurrentSlot()).None? then s1.(expired := true) else s1
  }

  lemma RetryOneDoes(s: State, r: Ref)
    requires Alive(s.groups, r)
    ensures var t := RetryOne(s, r);
            && Grown(s, t) && t.groups == s.groups && t.clients == s.clients && t.updaters == s.updaters
            && (t.expired <==> s.expired || Lost(s, r))
            && (forall x :: GoesBy(CmdAt(s.groups, r), x) ==> Placed(t, r, x))
  {
    hide Placed, SelectServer, Lost, GoesBy, Grown;
    SelectGrows(s, r);
    SelectServerFrame(s, r);
    LostWhen(s, r);
    var s1, t := SelectServer(s, r), RetryOne(s, r);
    assert s1.expired == s.expired by { SelectKeepsExpired(s, r); }
    GrownExpired(s1, t);
    GrownTrans(s, s1, t);
    forall x | GoesBy(CmdAt(s.groups, r), x) ensures Placed(t, r, x) {
      SelectPlaces(s, r, x);
      StillPlaced(s1, t, r, x);
    }
  }

  lemma SelectKeepsExpired(s: State, r: Ref)
    ensures SelectServer(s, r).expired == s.expired
  {
    hide PushClientCommand, RetryLater, ServerBySlot;
    if Alive(s.groups, r) {
      match ServerBySlot(s, CmdAt(s.groups, r).CurrentSlot())
      case None => assert RetryLater(s, r).expired == s.expired by { KeepsExpired(s, 0, r); }
      case Some(id) => KeepsExpired(s, id, r);
    }
  }

  lemma KeepsExpired(s: State, id: ServerId, r: Ref)
    ensures RetryLater(s, r).expired == s.expired && PushClientCommand(s, id, r).expired == s.expired
  {
    hide Queued, PeersOf;
  }

  lemma GrownExpired(s: State, t: State)
    requires t == s.(expired := t.expired)
    ensures Grown(s, t)
  {
  }

  /** Every command that is retried finds its place, and the map has expired if and only if the slot of
      some command leads nowhere. */
  lemma {:induction false} RetryAllPlaces(s: State, refs: seq<Ref>)
    requires forall r :: r in refs ==> Alive(s.groups, r)
    ensures var t := RetryAll(s, refs);
            && Grown(s, t) && t.groups == s.groups && t.clients == s.clients && t.updaters == s.updaters
            && (t.expired <==> s.expired || SomeLost(s, refs))
            && (forall r, x :: r in refs && GoesBy(CmdAt(s.groups, r), x) ==> Placed(t, r, x))
    decreases |refs|
  {
    hide Placed, Lost, GoesBy, Grown, Alive;
    if refs == [] {
      GrownSame(s);
    } else {
      var s1 := RetryOne(s, refs[0]);
      assert refs[0] in refs;
      RetryOneDoes(s, refs[0]);
      assert forall r :: r in refs[1..] ==> r in refs;
      RetryAllPlaces(s1, refs[1..]);
      var t := RetryAll(s, refs);
      assert t == RetryAll(s1, refs[1..]);
      GrownTrans(s, s1, t);
      SomeLostFirst(s, s1, refs);
      forall r, x | r in refs && GoesBy(CmdAt(s.groups, r), x) ensures Placed(t, r, x) {
        if r == refs[0] {
          StillPlaced(s1, t, r, x);
        } else {
          assert r in refs[1..];
        }
      }
    }
  }

  lemma SomeLostFirst(s: State, t: State, refs: seq<Ref>)
    requires refs != [] && Grown(s, t) && t.groups == s.groups
    ensures SomeLost(s, refs) <==> Lost(s, refs[0]) || SomeLost(t, refs[1..])
  {
    hide Lost, Grown;
    forall r ensures Lost(t, r) <==> Lost(s, r) {
      StillLost(s, t, r);
    }
    if SomeLost(s, refs) {
      var r :| r in refs && Lost(s, r);
      assert r == refs[0] || r in refs[1..];
    }
    if Lost(s, refs[0]) {
      assert refs[0] in refs;
    }
    if SomeLost(t, refs[1..]) {
      var r :| r in refs[1..] && Lost(t, r);
      assert r in refs;
    }
  }

  // ----- adopting a map -----

  /** The new map is in force: the table and the connections are those `replace_map` makes of the targets,
      the round is over, every command that waited has found its place, and the map is to be fetched again
      if and only if some slot among theirs leads nowhere. */
  ghost predicate Adopted(s: State, t: State, targets: seq<Target>) {
    var s0 := ReplaceMap(s, targets);
    && t.updaters == [] && t.table == s0.table && |t.servers| == |s0.servers|
    && (forall id :: 0 <= id < |t.servers| ==> t.servers[id].open == s0.servers[id].open && t.servers[id].addr == s0.servers[id].addr)
    && t.groups == s.groups && t.clients == s.clients
    && (forall r, x :: r in s0.retry && Alive(s.groups, r) && GoesBy(CmdAt(s.groups, r), x) ==> Placed(t, r, x))
    && (t.expired <==> SomeLost(t, s0.retry))
  }

  lemma RetryAlive(s: State)
    requires Core(s, multiset{})
    ensures forall r :: r in s.retry ==> Alive(s.groups, r)
  {
    hide Counted, Owned, Wired, Logged, Peered, Pooled, Tabled, HeldIn;
    forall r | r in s.retry ensures Alive(s.groups, r) {
      assert r in multiset(s.retry);
      assert Held(s)[r] + multiset{}[r] == if Outstanding(s.groups, r) then 1 else 0;
    }
  }

  lemma SetSlotMapAdopts(s: State, targets: seq<Target>)
    requires Core(s, multiset{}) && Mapped(s.servers, s.table) && Apart(targets)
    ensures Adopted(s, SetSlotMap(s, targets).(updaters := []), targets)
  {
    hide Core, Mapped, Apart, ReplaceMap, RetryAll, Placed, GoesBy, Alive;
    ReplaceMapCore(s, targets);
    var s0 := ReplaceMap(s, targets);
    RetryAlive(s0);
    var s1 := s0.(expired := false, retry := []);
    RetryAllPlaces(s1, s0.retry);
    var t1 := RetryAll(s1, s0.retry);
    var t := t1.(updaters := []);
    assert SetSlotMap(s, targets) == t1;
    forall r, x | r in s0.retry && Alive(s.groups, r) && GoesBy(CmdAt(s.groups, r), x) ensures Placed(t, r, x) {
      PlacedApart(t1, t, r, x);
    }
    SameLost(s1, t, s0.retry);
  }

  lemma PlacedApart(s: State, t: State, r: Ref, x: Slot)
    requires Placed(s, r, x) && t == s.(updaters := t.updaters)
    ensures Placed(t, r, x)
  {
    assert forall id: ServerId :: Leads(t, x, id) <==> Leads(s, x, id);
  }

  lemma SameLost(s: State, t: State, refs: seq<Ref>)
    requires t.groups == s.groups && t.table == s.table && |t.servers| == |s.servers|
    requires forall id :: 0 <= id < |s.servers| ==> t.servers[id].open == s.servers[id].open
    ensures SomeLost(t, refs) <==> SomeLost(s, refs)
  {
    assert forall x: Slot, id: ServerId :: Leads(t, x, id) <==> Leads(s, x, id);
    assert forall r :: Lost(t, r) <==> Lost(s, r);
    hide Lost;
  }

  // ----- reports -----

  /** The state once updater `u` has closed and reported */
  function Reporting(s: State, u: nat, targets: seq<Target>): State
    requires u < |s.updaters|
  {
    s.(updaters := s.updaters[u := Updater(false, targets)])
  }

  lemma ReportingCore(s: State, u: nat, targets: seq<Target>)
    requires Safe(s) && u < |s.updaters|
    ensures var s1 := Reporting(s, u, targets); Core(s1, multiset{}) && Mapped(s1.servers, s1.table)
  {
    InvParts(s);
    WithUpdaters(s, s.updaters[u := Updater(false, targets)]);
  }

  /** A report that covers every slot is adopted, whatever the other updaters have reported or will. */
  lemma FullMapAdopted(s: State, u: nat, targets: seq<Target>)
    requires Safe(s) && Apart(targets) && u < |s.updaters| && s.updaters[u].open && |Covered(targets)| >= 16384
    ensures Adopted(Reporting(s, u, targets), Apply(s, SlotMapReply(u, targets)), targets)
  {
    hide Safe, Core, Mapped, Apart, SetSlotMap, UpdateFailed, Adopted, Covered;
    ReportingCore(s, u, targets);
    SetSlotMapAdopts(Reporting(s, u, targets), targets);
  }

  /** A report that does not, while another updater is still open, is only kept. */
  lemma PartialMapWaits(s: State, u: nat, targets: seq<Target>, k: nat)
    requires u < |s.updaters| && s.updaters[u].open && |Covered(targets)| < 16384
    requires k < |s.updaters| && k != u && s.updaters[k].open
    ensures Apply(s, SlotMapReply(u, targets)) == Reporting(s, u, targets)
  {
    hide SetSlotMap, DiscardAll, Covered;
    assert Reporting(s, u, targets).updaters[k].open;
  }

  /** An updater that is closed has nothing more to say. */
  lemma ReportsOnce(s: State, u: nat, targets: seq<Target>)
    requires u >= |s.updaters| || !s.updaters[u].open
    ensures Apply(s, SlotMapReply(u, targets)) == s
  {
    hide UpdateFailed, SetSlotMap;
  }

  /** The last report, when none of the round covers every slot and that is not required: a map that covers
      the most slots is adopted. */
  lemma LargestMapAdopted(s: State, u: nat, targets: seq<Target>) returns (k: nat)
    requires Safe(s) && Apart(targets) && !s.fullCoverage && u < |s.updaters| && s.updaters[u].open && |Covered(targets)| < 16384
    requires forall i :: 0 <= i < |s.updaters| && i != u ==> !s.updaters[i].open
    requires var us := Reporting(s, u, targets).updaters; exists i :: 0 <= i < |us| && Covered(us[i].targets) != {}
    ensures var us := Reporting(s, u, targets).updaters;
            && k < |us| && (forall i :: 0 <= i < |us| ==> |Covered(us[i].targets)| <= |Covered(us[k].targets)|)
            && Adopted(Reporting(s, u, targets), Apply(s, SlotMapReply(u, targets)), us[k].targets)
  {
    hide Safe, Core, Mapped, Apart, SetSlotMap, DiscardAll, Adopted, Covered;
    var s1 := Reporting(s, u, targets);
    ReportingCore(s, u, targets);
    ReportedApart(s, u, targets);
    k := Best(s1.updaters);
    assert !SomeOpen(s1.updaters);
    assert Covered(s1.updaters[k].targets) != {} by {
      var i :| 0 <= i < |s1.updaters| && Covered(s1.updaters[i].targets) != {};
      assert CoveredSlots(s1.updaters[i]) <= CoveredSlots(s1.updaters[k]);
    }
    SetSlotMapAdopts(s1, s1.updaters[k].targets);
  }

  lemma ReportedApart(s: State, u: nat, targets: seq<Target>)
    requires Safe(s) && Apart(targets) && u < |s.updaters|
    ensures forall i :: 0 <= i < |s.updaters| ==> Apart(Reporting(s, u, targets).updaters[i].targets)
  {
    hide Apart, Inv;
  }

  lemma {:induction false} CoveredIs(targets: seq<Target>, x: Slot)
    ensures x in Covered(targets) <==> exists i :: 0 <= i < |targets| && x in targets[i].slots
  {
    if targets != [] {
      CoveredIs(targets[1..], x);
      if x in Covered(targets[1..]) {
        var i :| 0 <= i < |targets[1..]| && x in targets[1..][i].slots;
        assert x in targets[i + 1].slots;
      }
      if i :| 0 < i < |targets| && x in targets[i].slots {
        assert x in targets[1..][i - 1].slots;
      }
    }
  }

  // ----- when a round starts -----

  lemma {:induction false} WithoutHas(q: seq<Ref>, c: ClientId, r: Ref)
    ensures r in Without(q, c) <==> r in q && r.client != c
  {
    if q != [] {
      WithoutHas(q[1..], c, r);
      assert r in q <==> r == q[0] || r in q[1..];
    }
  }

  /** Destroying clients drops their commands from the retry list, and leaves connections and the map. */
  lemma {:induction false} DepartAllRetry(s: State, cs: seq<ClientId>, r: Ref)
    ensures var t := DepartAll(s, cs);
            && (r in t.retry <==> r in s.retry && !(r.client in cs && r.client in s.clients))
            && t.updaters == s.updaters && t.expired == s.expired && t.active == s.active && t.table == s.table
            && |t.servers| == |s.servers| && (forall id :: 0 <= id < |s.servers| ==> t.servers[id].open == s.servers[id].open)
    decreases |cs|
  {
    hide Depart;
    if cs != [] {
      DepartDoes(s, cs[0], r);
      DepartAllRetry(Depart(s, cs[0]), cs[1..], r);
      assert r.client in cs <==> r.client == cs[0] || r.client in cs[1..];
    }
  }

  lemma DepartDoes(s: State, c: ClientId, r: Ref)
    ensures var t := Depart(s, c);
            && (r in t.retry <==> r in s.retry && !(r.client == c && c in s.clients))
            && (forall d :: d in t.clients <==> d in s.clients && d != c)
            && t.updaters == s.updaters && t.expired == s.expired && t.active == s.active && t.table == s.table
            && |t.servers| == |s.servers| && (forall id :: 0 <= id < |s.servers| ==> t.servers[id].open == s.servers[id].open)
  {
    hide Without, Nulled;
    if c in s.clients {
      WithoutHas(s.retry, c, r);
    }
  }

  /** A round is due: a command of a client that stays waits to be retried, the map has expired, or a
      server that had events is closed. */
  ghost predicate Due(s: State) {
    || (exists r :: r in s.retry && r.client !in s.closing)
    || s.expired
    || (exists id :: id in s.active && !Srv(s, id).open)
  }

  lemma RetryClients(s: State)
    requires Core(s, multiset{})
    ensures forall r :: r in s.retry ==> r.client in s.clients
  {
    hide Counted, Wired, Logged, Peered, Pooled, Tabled, HeldIn;
    forall r | r in s.retry ensures r.client in s.clients {
      assert r in multiset(s.retry);
      assert Held(s)[r] + multiset{}[r] == if Outstanding(s.groups, r) then 1 else 0;
      assert Listed(s.clients, s.groups[r.group].client, r.group);
    }
  }

  lemma DueAfterEvents(s: State)
    requires Core(s, multiset{})
    ensures var t := AfterEvents(s);
            && (t.retry != [] || t.expired <==> Due(s)) && t.updaters == s.updaters && t.active == {} && t.table == s.table
  {
    hide Core, DepartAll;
    RetryClients(s);
    var s0 := s.(closing := []);
    var s1 := DepartAll(s0, s.closing);
    forall r ensures r in s1.retry <==> r in s.retry && r.client !in s.closing {
      DepartAllRetry(s0, s.closing, r);
    }
    DepartAllRetry(s0, s.closing, Ref(0, 0, 0));
    assert forall id: ServerId :: Srv(s1, id).open == Srv(s, id).open;
    if s1.retry != [] {
      assert s1.retry[0] in s1.retry;
    }
  }

  /** A turn that ends without a round under way starts one, with all the updaters that could be created,
      if and only if one is due. */
  lemma RoundStarts(s: State, n: nat)
    requires Safe(s) && s.updaters == [] && n > 0
    ensures var t := Apply(s, EndTurn(n));
            && |t.updaters| == (if Due(s) then n else 0) && t.active == {} && t.table == s.table
            && (forall i :: 0 <= i < |t.updaters| ==> t.updaters[i] == Updater(true, []))
  {
    hide Safe, Core, AfterEvents, PollControl, Polled, SameLists, Due;
    PollSafe(s);
    var s1 := PollControl(s);
    SafeCoreOf(s1);
    DueAfterEvents(s1);
    assert Due(s1) <==> Due(s) by { DuePolled(s, s1); }
    PollTables(NewRound(AfterEvents(s1), n));
    assert Apply(s, EndTurn(n)) == PollControl(NewRound(AfterEvents(s1), n));
  }

  lemma PollTables(s: State)
    ensures var t := PollControl(s); t.updaters == s.updaters && t.active == s.active && t.table == s.table
  {
    hide Polled;
  }

  lemma DuePolled(s: State, t: State)
    requires t == s.(clients := t.clients)
    ensures Due(t) <==> Due(s)
  {
    assert forall id: ServerId :: Srv(t, id) == Srv(s, id);
  }

  /** A round that is under way goes on. */
  lemma RoundGoesOn(s: State, n: nat)
    requires Safe(s) && s.updaters != []
    ensures Apply(s, EndTurn(n)).updaters == s.updaters && Apply(s, EndTurn(n)).table == s.table
  {
    hide Safe, Core, AfterEvents, PollControl, Polled, SameLists, Due;
    PollSafe(s);
    var s1 := PollControl(s);
    SafeCoreOf(s1);
    DueAfterEvents(s1);
    PollTables(AfterEvents(s1));
    assert Apply(s, EndTurn(n)) == PollControl(AfterEvents(s1));
  }

  /** Losing a connection starts a round at the end of the turn, even if no command was on it. */
  lemma ResetStartsRound(s: State, id: ServerId, n: nat)
    requires Safe(s) && id < |s.servers| && s.servers[id].open && n > 0
    ensures var t := Apply(Apply(s, Reset(id)), EndTurn(n));
            && (s.updaters == [] ==> t.updaters == seq(n, _ => Updater(true, [])))
            && (s.updaters != [] ==> t.updaters == s.updaters)
  {
    hide Safe, Apply, Due;
    ApplySafe(s, Reset(id));
    var s1 := Apply(s, Reset(id));
    ResetEnds(s, id);
    assert Due(s1) by { ClosedIsDue(s1, id); }
    ResetKeepsRound(s, id);
    if s.updaters == [] {
      RoundStarts(s1, n);
    } else {
      RoundGoesOn(s1, n);
    }
  }

  lemma ClosedIsDue(s: State, id: ServerId)
    requires id in s.active && !Srv(s, id).open
    ensures Due(s)
  {
  }

  lemma ResetKeepsRound(s: State, id: ServerId)
    ensures Apply(s, Reset(id)).updaters == s.updaters
  {
  }

  /** So does a notice that the map has changed. */
  lemma ExpireStartsRound(s: State, n: nat)
    requires Safe(s) && s.updaters == [] && n > 0
    ensures Apply(Apply(s, Expire), EndTurn(n)).updaters == seq(n, _ => Updater(true, []))
  {
    hide Safe, TurnEnd;
    ApplySafe(s, Expire);
    RoundStarts(Apply(s, Expire), n);
  }

  // ----- clients that leave -----

  /** At the end of a turn the clients that are left are those that have not closed. */
  lemma OpenClientsStay(s: State, n: nat, c: ClientId)
    requires Safe(s)
    ensures c in Apply(s, EndTurn(n)).clients <==> c in s.clients && !s.clients[c].closed
  {
    hide Safe, Core, AfterEvents, NewRound, SameLists, Leaving;
    PollSafe(s);
    var s1 := PollControl(s);
    ClosingClosed(s1, c);
    LeaversGone(s1, c);
    DepartedSafe(s1);
    NewRoundKeys(AfterEvents(s1), n);
  }

  lemma ClosingClosed(s: State, c: ClientId)
    requires Safe(s)
    ensures c in s.clients ==> (c in s.closing <==> s.clients[c].closed)
  {
    InvParts(s);
  }

  lemma LeaversGone(s: State, c: ClientId)
    ensures c in AfterEvents(s).clients <==> c in s.clients && c !in s.closing
  {
    hide DepartAll;
    DepartAllClients(s.(closing := []), s.closing, c);
  }

  lemma {:induction false} DepartAllClients(s: State, cs: seq<ClientId>, c: ClientId)
    ensures c in DepartAll(s, cs).clients <==> c in s.clients && c !in cs
    decreases |cs|
  {
    hide Depart;
    if cs != [] {
      DepartDoes(s, cs[0], Ref(0, 0, 0));
      DepartAllClients(Depart(s, cs[0]), cs[1..], c);
    }
  }

  /** A client that hangs up is gone at the end of the turn, and every other open one stays. */
  lemma HangUpLeaves(s: State, c: ClientId, n: nat, d: ClientId)
    requires Safe(s) && Listening(s, c)
    ensures var t := Apply(Apply(s, HangUp(c)), EndTurn(n)); c !in t.clients && (d != c && Listening(s, d) ==> d in t.clients)
  {
    hide Safe, TurnEnd;
    ApplySafe(s, HangUp(c));
    OpenClientsStay(Apply(s, HangUp(c)), n, c);
    OpenClientsStay(Apply(s, HangUp(c)), n, d);
  }

  /** A connection that is accepted is a new client, open and idle, and changes no other. */
  lemma AcceptAdds(s: State)
    requires Safe(s)
    ensures var t := Apply(s, Accept);
            && t.clients.Keys == s.clients.Keys + {s.nextClient} && s.nextClient !in s.clients && t.nextClient != s.nextClient
            && t.clients[s.nextClient] == Client(false, [], [], [], 0, false, None, false, [], [])
            && forall c :: c in s.clients ==> t.clients[c] == s.clients[c]
  {
    InvParts(s);
    NewClientUnknown(s);
    hide Core;
  }

  // ----- new connections -----

  /** An empty pool is filled with eight servers, of which the last is taken. */
  lemma PoolGrows(s: State, addr: Addr)
    requires s.pool == [] && !(addr in s.addrMap && Srv(s, s.addrMap[addr]).open)
    ensures var (t, id) := GetServer(s, addr, false); |t.servers| == |s.servers| + 8 && id == |s.servers| + 7 && |t.pool| == 7
  {
    var s1 := Refill(s);
    assert |s1.servers| == |s.servers| + 8 && |s1.pool| == 8 && s1.pool[7] == |s.servers| + 7;
    hide Refill, AllocServer, Tried;
    AllocRefilled(s, addr, false);
    AllocShape(s1, addr, false);
  }

  /** A new connection starts with nothing queued and nothing sent but, in read-slave mode, the READONLY
      greeting, whose reply no command gets. */
  lemma ConnectGreets(s: State, addr: Addr)
    requires Core(s, multiset{}) && !(addr in s.addrMap && Srv(s, s.addrMap[addr]).open)
    ensures var (t, id) := GetServer(s, addr, false);
            && id < |t.servers| && t.servers[id].open && t.servers[id].addr == addr && t.servers[id].queue == []
            && t.servers[id].sent == (if s.readonly then [None] else [])
            && t.servers[id].wire == (if s.readonly then [Greeting(id, t.servers[id].conn)] else [])
            && (id < |s.servers| ==> !s.servers[id].open && t.servers[id].conn != s.servers[id].conn)
  {
    hide Core, Refill, AllocServer, Opened;
    RefillCore(s);
    RefillOpened(s);
    var s1 := Refill(s);
    AllocRefilled(s, addr, false);
    RefillKeeps(s);
    LastIdle(s1);
    assert forall id :: 0 <= id < |s.servers| ==> s1.servers[id] == s1.servers[..|s.servers|][id];
    AllocShape(s1, addr, false);
  }

  lemma RefillKeeps(s: State)
    ensures Refill(s).readonly == s.readonly && |s.servers| <= |Refill(s).servers|
    ensures Refill(s).servers[..|s.servers|] == s.servers
  {
    if s.pool == [] {
      assert Refill(s).servers == s.servers + seq(POOL_GROWTH, _ => IDLE_SERVER);
      assert Refill(s).readonly == s.readonly;
      hide Refill;
    }
  }

  lemma LastIdle(s: State)
    requires Core(s, multiset{}) && s.pool != []
    ensures var id := s.pool[|s.pool| - 1];
            id < |s.servers| && !s.servers[id].open && s.servers[id].queue == [] && s.servers[id].sent == [] && s.servers[id].wire == []
  {
    hide Conserved, Counted, Owned, Logged, Peered, Tabled, Addressed;
    var id := s.pool[|s.pool| - 1];
    assert id in s.pool;
    assert Aligned(s.groups, id, s.servers[id]);
  }
}
