/** The steps of a slot map update: opening servers, replacing the table, retrying, giving up. */
module RoundSteps {
  import opened Options
  import opened ThreadState
  import opened ThreadInvariants
  import opened CommandSteps
  import opened ServerSteps

  /** No client stalled, and none that awaits no command was touched. */
  ghost predicate Onward(cs: map<ClientId, Client>, ds: map<ClientId, Client>) {
    (Flowing(cs) ==> Flowing(ds)) && Untouched(cs, ds)
  }

  // ----- get_server -----

  lemma {:induction false} HeldInConcat(a: seq<Server>, b: seq<Server>)
    ensures HeldIn(a + b) == HeldIn(a) + HeldIn(b)
  {
    if a == [] {
      assert a + b == b;
    } else {
      assert (a + b)[1..] == a[1..] + b;
      HeldInConcat(a[1..], b);
    }
  }

  lemma {:induction false} HeldInIdle(a: seq<Server>)
    requires forall i :: 0 <= i < |a| ==> a[i] == IDLE_SERVER
    ensures HeldIn(a) == multiset{}
  {
    if a != [] {
      HeldInIdle(a[1..]);
    }
  }

  /** Servers may have been opened or added, but none of them holds a command yet. */
  ghost predicate Opened(s: State, t: State) {
    && t.clients == s.clients && t.groups == s.groups && t.closing == s.closing && t.updaters == s.updaters
    && t.retry == s.retry && t.table == s.table && t.fullCoverage == s.fullCoverage
    && |s.servers| <= |t.servers|
    && (forall id :: 0 <= id < |s.servers| ==> HeldBy(t.servers[id]) == HeldBy(s.servers[id]))
    && (forall id :: |s.servers| <= id < |t.servers| ==> HeldBy(t.servers[id]) == multiset{})
  }

  lemma RefillPooled(servers: seq<Server>, addrMap: map<Addr, ServerId>, refused: bool)
    requires Pooled(servers, addrMap, [], refused)
    ensures Pooled(servers + seq(POOL_GROWTH, _ => IDLE_SERVER), addrMap, seq(POOL_GROWTH, i => |servers| + i), refused)
  {
    var n := |servers|;
    var pool := seq(POOL_GROWTH, i => n + i);
    var us := servers + seq(POOL_GROWTH, _ => IDLE_SERVER);
    forall id | 0 <= id < |us| && !us[id].open ensures id in pool {
      if id >= n {
        assert pool[id - n] == id;
      }
    }
  }

  lemma OpenedTrans(s: State, t: State, u: State)
    requires Opened(s, t) && Opened(t, u)
    ensures Opened(s, u)
  {
    hide HeldBy;
  }

  lemma RefillOpened(s: State)
    ensures Opened(s, Refill(s)) && Refill(s).pool != [] && Refill(s).addrMap == s.addrMap && Refill(s).refused == s.refused
  {
    var t := Refill(s);
    assert HeldBy(IDLE_SERVER) == multiset{};
    hide HeldBy;
    if s.pool == [] {
      var idle := seq(POOL_GROWTH, _ => IDLE_SERVER);
      assert t.servers == s.servers + idle;
      assert |t.pool| == POOL_GROWTH;
      hide Refill;
      forall id | |s.servers| <= id < |t.servers| ensures HeldBy(t.servers[id]) == multiset{} {
        assert t.servers[id] == idle[id - |s.servers|];
      }
    }
  }

  lemma RefillCore(s: State)
    requires Core(s, multiset{})
    ensures Core(Refill(s), multiset{})
  {
    hide Conserved, Counted, Owned, Logged, Pooled, Wired, Peered;
    if s.pool == [] {
      var idle := seq(POOL_GROWTH, _ => IDLE_SERVER);
      HeldInConcat(s.servers, idle);
      HeldInIdle(idle);
      assert HeldIn(s.servers + idle) == HeldIn(s.servers);
      RefillPooled(s.servers, s.addrMap, s.refused);
      RefillWired(s.servers, s.groups, idle);
      RefillPeered(s.servers, s.peers, idle);
    }
  }

  lemma RefillWired(servers: seq<Server>, gs: Groups, idle: seq<Server>)
    requires Wired(servers, gs) && forall i :: 0 <= i < |idle| ==> idle[i] == IDLE_SERVER
    ensures Wired(servers + idle, gs)
  {
  }

  lemma RefillPeered(servers: seq<Server>, peers: map<ClientId, set<ServerId>>, idle: seq<Server>)
    requires Peered(servers, peers) && forall i :: 0 <= i < |idle| ==> idle[i] == IDLE_SERVER
    ensures Peered(servers + idle, peers)
  {
    assert HeldBy(IDLE_SERVER) == multiset{};
  }

  lemma ReconnectPooled(servers: seq<Server>, addrMap: map<Addr, ServerId>, pool: seq<ServerId>, refused: bool, v: Server)
    requires Pooled(servers, addrMap, pool, refused) && pool != [] && v.open && (v.addr in addrMap ==> refused)
    ensures pool[|pool| - 1] < |servers|
    ensures var id := pool[|pool| - 1];
            Pooled(servers[id := v], if v.addr in addrMap then addrMap else addrMap[v.addr := id], pool[..|pool| - 1], refused)
  {
    var id := pool[|pool| - 1];
    assert id in pool;
    var us, ps := servers[id := v], pool[..|pool| - 1];
    assert forall k :: k in ps ==> k in pool && k != id;
    forall k | 0 <= k < |us| && !us[k].open ensures k in ps {
      var j :| 0 <= j < |pool| && pool[j] == k;
      assert ps[j] == k;
    }
  }

  lemma RefusedPooled(servers: seq<Server>, addrMap: map<Addr, ServerId>, pool: seq<ServerId>, refused: bool, addr: Addr)
    requires Pooled(servers, addrMap, pool, refused) && pool != []
    ensures pool[|pool| - 1] < |servers|
    ensures var id := pool[|pool| - 1];
            Pooled(servers[id := servers[id].(addr := addr)], addrMap[addr := id], pool, true)
  {
    assert pool[|pool| - 1] in pool;
  }

  function Reopened(v: Server, id: ServerId, addr: Addr, readonly: bool): Server {
    v.(open := true, addr := addr, conn := v.conn + 1,
       sent := v.sent + if readonly then [None] else [],
       wire := v.wire + if readonly then [Greeting(id, v.conn + 1)] else [])
  }

  lemma ReopenedAligned(gs: Groups, id: ServerId, v: Server, addr: Addr, readonly: bool)
    requires Aligned(gs, id, v) && !v.open
    ensures Aligned(gs, id, Reopened(v, id, addr, readonly)) && HeldBy(Reopened(v, id, addr, readonly)) == HeldBy(v)
    ensures Reopened(v, id, addr, readonly).open && Reopened(v, id, addr, readonly).addr == addr
  {
    var greeting: seq<Option<Ref>> := if readonly then [None] else [];
    if readonly {
      assert greeting[1..] == [];
      assert Live(greeting) == [] + Live(greeting[1..]);
    }
    LiveConcat(v.sent, greeting);
  }

  /** The server that is tried: opened and taken from the pool, or left in it with its new address */
  function Tried(v: Server, id: ServerId, addr: Addr, readonly: bool, refused: bool): Server {
    if refused then v.(addr := addr) else Reopened(v, id, addr, readonly)
  }

  lemma AllocShape(s: State, addr: Addr, refused: bool)
    requires s.pool != [] && s.pool[|s.pool| - 1] < |s.servers|
    ensures var id := s.pool[|s.pool| - 1];
            AllocServer(s, addr, refused) ==
              (s.(servers := s.servers[id := Tried(s.servers[id], id, addr, s.readonly, refused)],
                  pool := if refused then s.pool else s.pool[..|s.pool| - 1],
                  addrMap := if !refused && addr in s.addrMap then s.addrMap else s.addrMap[addr := id],
                  refused := s.refused || refused), id)
  {
  }

  lemma TriedAligned(gs: Groups, id: ServerId, v: Server, addr: Addr, readonly: bool, refused: bool)
    requires Aligned(gs, id, v) && !v.open
    ensures var u := Tried(v, id, addr, readonly, refused); Aligned(gs, id, u) && HeldBy(u) == HeldBy(v)
  {
    ReopenedAligned(gs, id, v, addr, readonly);
  }

  lemma AllocOpened(s: State, addr: Addr, refused: bool)
    requires Core(s, multiset{}) && s.pool != []
    ensures var (t, id) := AllocServer(s, addr, refused); Opened(s, t) && id < |t.servers|
  {
    hide Core, AllocServer, HeldBy, Aligned, Tried;
    LastPooled(s);
    AllocShape(s, addr, refused);
    var id := s.pool[|s.pool| - 1];
    TriedAligned(s.groups, id, s.servers[id], addr, s.readonly, refused);
  }

  lemma LastPooled(s: State)
    requires Core(s, multiset{}) && s.pool != []
    ensures var id := s.pool[|s.pool| - 1]; id < |s.servers| && !s.servers[id].open && Aligned(s.groups, id, s.servers[id])
  {
    hide Conserved, Counted, Owned, Logged, Peered, Tabled, Addressed;
    assert s.pool[|s.pool| - 1] in s.pool;
  }

  lemma TriedPooled(servers: seq<Server>, addrMap: map<Addr, ServerId>, pool: seq<ServerId>, before: bool,
                    addr: Addr, readonly: bool, refused: bool)
    requires Pooled(servers, addrMap, pool, before) && pool != [] && (addr in addrMap ==> before)
    ensures pool[|pool| - 1] < |servers|
    ensures var id := pool[|pool| - 1];
            Pooled(servers[id := Tried(servers[id], id, addr, readonly, refused)],
                   if !refused && addr in addrMap then addrMap else addrMap[addr := id],
                   if refused then pool else pool[..|pool| - 1], before || refused)
  {
    hide Pooled;
    RefusedPooled(servers, addrMap, pool, before, addr);
    if !refused {
      var id := pool[|pool| - 1];
      ReconnectPooled(servers, addrMap, pool, before, Reopened(servers[id], id, addr, readonly));
    }
  }

  lemma AllocCore(s: State, addr: Addr, refused: bool)
    requires Core(s, multiset{}) && s.pool != [] && (addr in s.addrMap ==> s.refused)
    ensures Core(AllocServer(s, addr, refused).0, multiset{})
  {
    hide Conserved, Counted, Owned, Logged, Peered, Tabled, Wired, Pooled, Aligned, AllocServer, HeldBy, HeldIn, Tried;
    LastPooled(s);
    AllocShape(s, addr, refused);
    var id := s.pool[|s.pool| - 1];
    var u := Tried(s.servers[id], id, addr, s.readonly, refused);
    TriedAligned(s.groups, id, s.servers[id], addr, s.readonly, refused);
    TriedPooled(s.servers, s.addrMap, s.pool, s.refused, addr, s.readonly, refused);
    HeldReplace(s, id, u, multiset{});
    AlignedUpdate(s.servers, s.groups, id, u);
    PeeredShrink(s.servers, s.peers, id, u);
    assert Held(AllocServer(s, addr, refused).0) == Held(s);
  }

  lemma GetServerCore(s: State, addr: Addr, refused: bool)
    requires Core(s, multiset{})
    ensures var (t, id) := GetServer(s, addr, refused); Core(t, multiset{}) && Opened(s, t) && id < |t.servers|
  {
    hide Core, HeldBy, Refill, AllocServer;
    InMap(s, addr);
    if !(addr in s.addrMap && Srv(s, s.addrMap[addr]).open) {
      RefillCore(s);
      RefillOpened(s);
      AllocCore(Refill(s), addr, refused);
      AllocOpened(Refill(s), addr, refused);
      AllocRefilled(s, addr, refused);
      OpenedTrans(s, Refill(s), AllocServer(s, addr, refused).0);
    }
  }

  /** An address on record has its open server, unless a connection has been refused. */
  lemma InMap(s: State, addr: Addr)
    requires Core(s, multiset{})
    ensures addr in s.addrMap ==> s.addrMap[addr] < |s.servers|
    ensures addr in s.addrMap && !s.refused ==> s.servers[s.addrMap[addr]].open && s.servers[s.addrMap[addr]].addr == addr
  {
    hide Conserved, Counted, Owned, Logged, Peered, Tabled, Wired;
  }

  lemma AllocRefilled(s: State, addr: Addr, refused: bool)
    ensures AllocServer(Refill(s), addr, refused) == AllocServer(s, addr, refused)
  {
    assert Refill(Refill(s)) == Refill(s);
  }

  // ----- replace_map -----

  /** No slot belongs to two targets. */
  ghost predicate Apart(targets: seq<Target>) {
    targets != [] ==> targets[0].slots !! Covered(targets[1..]) && Apart(targets[1..])
  }

  /** Replacing the table: a server that holds commands is in the table or has lost a slot; one that
      got a slot keeps it, since no target to come covers it. */
  ghost predicate Swapping(w: Swap, rest: set<Slot>) {
    && Core(w.st, multiset{})
    && (forall id :: 0 <= id < |w.st.servers| && HeldBy(w.st.servers[id]) != multiset{} ==>
          id in w.st.table.Values || id in w.removed)
    && (forall id :: id in w.mapped ==> exists x :: x in w.st.table && x !in rest && w.st.table[x] == id)
  }

  function Assigned(table: map<Slot, ServerId>, slots: set<Slot>, id: ServerId): map<Slot, ServerId> {
    map x | x in table.Keys + slots :: if x in slots then id else table[x]
  }

  lemma TableCore(s: State, slots: set<Slot>, id: ServerId)
    requires Core(s, multiset{}) && id < |s.servers|
    ensures Core(s.(table := Assigned(s.table, slots, id)), multiset{})
  {
    hide Conserved, Counted, Owned, Logged, Peered, Pooled, Wired;
  }

  /** A server of the old table is in the new one, or has lost a slot. */
  lemma KeptOrRemoved(table: map<Slot, ServerId>, slots: set<Slot>, id: ServerId, k: ServerId)
    requires k in table.Values
    ensures k in Assigned(table, slots, id).Values || k in (set x | x in slots && x in table :: table[x])
  {
    var x :| x in table && table[x] == k;
    if x !in slots {
      assert Assigned(table, slots, id)[x] == k;
    }
  }

  lemma AssignOneSwapping(w: Swap, t: Target, rest: set<Slot>)
    requires Swapping(w, t.slots + rest) && t.slots !! rest
    ensures Swapping(AssignOne(w, t), rest)
    ensures var w' := AssignOne(w, t);
            w'.st.clients == w.st.clients && w'.st.groups == w.st.groups && w'.st.closing == w.st.closing
            && w'.st.updaters == w.st.updaters && w'.st.fullCoverage == w.st.fullCoverage
  {
    hide Core, HeldBy, GetServer;
    if t.slots == {} {
      assert t.slots + rest == rest;
    } else {
      GetServerCore(w.st, t.addr, t.refused);
      var (s1, id) := GetServer(w.st, t.addr, t.refused);
      var w' := AssignOne(w, t);
      assert w' == Swap(s1.(table := Assigned(s1.table, t.slots, id)),
                        w.removed + (set x | x in t.slots && x in s1.table :: s1.table[x]), w.mapped + {id});
      TableCore(s1, t.slots, id);
      forall k | 0 <= k < |w'.st.servers| && HeldBy(w'.st.servers[k]) != multiset{}
        ensures k in w'.st.table.Values || k in w'.removed
      {
        assert k < |w.st.servers|;
        if k !in w.removed {
          KeptOrRemoved(s1.table, t.slots, id, k);
        }
      }
      forall k | k in w'.mapped ensures exists x :: x in w'.st.table && x !in rest && w'.st.table[x] == k {
        if k == id {
          var x :| x in t.slots;
          assert w'.st.table[x] == id;
        } else {
          var x :| x in w.st.table && x !in t.slots + rest && w.st.table[x] == k;
          assert w'.st.table[x] == k;
        }
      }
    }
  }

  lemma {:induction false} AssignAllSwapping(w: Swap, targets: seq<Target>)
    requires Swapping(w, Covered(targets)) && Apart(targets)
    ensures Swapping(AssignAll(w, targets), {})
    ensures var w' := AssignAll(w, targets);
            w'.st.clients == w.st.clients && w'.st.groups == w.st.groups && w'.st.closing == w.st.closing
            && w'.st.updaters == w.st.updaters && w'.st.fullCoverage == w.st.fullCoverage
    decreases |targets|
  {
    hide Swapping;
    if targets != [] {
      AssignOneSwapping(w, targets[0], Covered(targets[1..]));
      AssignAllSwapping(AssignOne(w, targets[0]), targets[1..]);
    }
  }

  /** Replacing the table leaves commands only on servers the new table maps. */
  lemma ReplaceMapCore(s: State, targets: seq<Target>)
    requires Core(s, multiset{}) && Mapped(s.servers, s.table) && Apart(targets)
    ensures var t := ReplaceMap(s, targets);
            && Core(t, multiset{}) && Mapped(t.servers, t.table)
            && t.clients == s.clients && t.groups == s.groups && t.closing == s.closing
            && t.updaters == s.updaters && t.fullCoverage == s.fullCoverage
  {
    hide Core, HeldBy, AssignAll, CloseFrom, Leaving, Quiet, Flowing, Untouched;
    var w0 := Swap(s, {}, {});
    assert Swapping(w0, Covered(targets));
    AssignAllSwapping(w0, targets);
    var w := AssignAll(w0, targets);
    CloseFromCore(w.st, w.removed - w.mapped, 0, multiset{});
    var t := ReplaceMap(s, targets);
    forall id | 0 <= id < |t.servers| && HeldBy(t.servers[id]) != multiset{}
      ensures id in t.table.Values
    {
      assert id !in w.removed - w.mapped;
      assert t.servers[id] == w.st.servers[id];
      if id in w.mapped {
        var x :| x in w.st.table && x !in {} && w.st.table[x] == id;
      }
    }
  }

  // ----- retrying and answering the retry list -----

  lemma {:induction false} RetryAllCore(s: State, refs: seq<Ref>)
    requires Core(s, multiset(refs))
    ensures var t := RetryAll(s, refs); Core(t, multiset{}) && Steady(s, t)
    decreases |refs|
  {
    hide Core;
    if refs == [] {
      assert multiset(refs) == multiset{};
    } else {
      assert refs == [refs[0]] + refs[1..];
      assert multiset(refs) == multiset{refs[0]} + multiset(refs[1..]);
      assert multiset(refs) - multiset{refs[0]} == multiset(refs[1..]);
      SelectServerCore(s, refs[0], multiset(refs));
      SelectServerSteady(s, refs[0]);
      var s1 := SelectServer(s, refs[0]);
      ExpireCore(s1, multiset(refs[1..]));
      hide Steady;
      var missed := Alive(s.groups, refs[0]) && ServerBySlot(s, CmdAt(s.groups, refs[0]).CurrentSlot()).None?;
      var s2 := if missed then s1.(expired := true) else s1;
      SteadyTrans(s, s1, s1.(expired := true));
      RetryAllCore(s2, refs[1..]);
      SteadyTrans(s, s2, RetryAll(s2, refs[1..]));
    }
  }

  lemma ExpireCore(s: State, hand: multiset<Ref>)
    requires Core(s, hand)
    ensures Core(s.(expired := true), hand) && Steady(s, s.(expired := true))
    ensures Core(s.(expired := false), hand) && Steady(s, s.(expired := false))
  {
    hide Conserved, Counted, Owned, Logged, Peered, Pooled, Tabled, Wired, Mapped, Quiet, Flowing, Leaving;
  }

  lemma TakeRetry(s: State)
    requires Core(s, multiset{})
    ensures Core(s.(retry := []), multiset(s.retry)) && Steady(s, s.(retry := []))
  {
    hide Conserved, Counted, Owned, Logged, Peered, Pooled, Tabled, Wired, Mapped, Quiet, Flowing, Leaving;
    Moved(Held(s), multiset{}, Held(s.(retry := [])), multiset(s.retry), s.groups);
  }

  lemma SetSlotMapCore(s: State, targets: seq<Target>)
    requires Core(s, multiset{}) && Mapped(s.servers, s.table) && Quiet(s.clients) && Leaving(s.clients, s.closing) && Apart(targets)
    ensures var t := SetSlotMap(s, targets);
            && Core(t, multiset{}) && Mapped(t.servers, t.table) && Quiet(t.clients) && Leaving(t.clients, t.closing)
            && Onward(s.clients, t.clients) && t.closing == s.closing
  {
    hide Core, Mapped, Quiet, Flowing, Leaving, Untouched;
    ReplaceMapCore(s, targets);
    var s0 := ReplaceMap(s, targets);
    ExpireCore(s0, multiset{});
    var s1 := s0.(expired := false);
    TakeRetry(s1);
    RetryAllCore(s1.(retry := []), s1.retry);
  }

  /** A failure reply always completes a command. */
  lemma FailureCompletes(c: Cmd)
    ensures NextStage(c, Failure).None?
  {
  }

  lemma AnswerOne(s: State, r: Ref, hand: multiset<Ref>)
    requires Core(s, hand) && r in hand
    ensures var t := OnRemoteResponsed(s, r, Failure);
            Core(t, hand - multiset{r}) && Steady(s, t) && t.servers == s.servers && t.retry == s.retry
  {
    hide Core, Steady, Responsed;
    OnRemoteResponsedCore(s, r, Failure, hand);
    OnRemoteResponsedSteady(s, r, Failure, hand);
    HandAlive(s, r, hand);
    FailureCompletes(CmdAt(s.groups, r));
    ResponsedShape(s, r);
  }

  lemma {:induction false} AnswerAllCore(s: State, refs: seq<Ref>)
    requires Core(s, multiset(refs))
    ensures var t := AnswerAll(s, refs);
            && Core(t, multiset{}) && Steady(s, t) && t.servers == s.servers && t.retry == s.retry
    decreases |refs|
  {
    hide Core, OnRemoteResponsed;
    if refs == [] {
      assert multiset(refs) == multiset{};
    } else {
      hide Steady;
      var r, hand := refs[0], multiset(refs);
      assert refs == [r] + refs[1..];
      assert hand == multiset{r} + multiset(refs[1..]);
      assert hand - multiset{r} == multiset(refs[1..]);
      AnswerOne(s, r, hand);
      var t := OnRemoteResponsed(s, r, Failure);
      AnswerAllCore(t, refs[1..]);
      SteadyTrans(s, t, AnswerAll(t, refs[1..]));
    }
  }

  // ----- giving up -----

  /** No server holds anything once all mapped servers are closed. */
  lemma {:induction false} NothingIn(servers: seq<Server>)
    requires forall id :: 0 <= id < |servers| ==> HeldBy(servers[id]) == multiset{}
    ensures HeldIn(servers) == multiset{}
  {
    if servers != [] {
      NothingIn(servers[1..]);
    }
  }

  lemma ClearMapCore(s: State)
    requires Core(s, multiset{}) && Mapped(s.servers, s.table)
    ensures var t := ClearMap(s);
            && Core(t, multiset{}) && t.clients == s.clients && t.closing == s.closing && t.updaters == s.updaters
            && |t.servers| == |s.servers| && t.table == map[]
            && (forall id :: 0 <= id < |t.servers| ==> HeldBy(t.servers[id]) == multiset{})
            && (forall x :: x in s.table ==> s.table[x] < |t.servers| && !t.servers[s.table[x]].open)
  {
    hide Core, HeldBy, CloseFrom, Leaving, Quiet, Flowing, Untouched;
    MapInRange(s);
    CloseFromCore(s, s.table.Values, 0, multiset{});
    var t := CloseFrom(s, s.table.Values, 0);
    assert forall x :: x in s.table ==> s.table[x] in s.table.Values;
    DropTable(t);
  }

  lemma MapInRange(s: State)
    requires Core(s, multiset{})
    ensures forall x :: x in s.table ==> s.table[x] < |s.servers|
  {
    hide Conserved, Counted, Owned, Logged, Peered, Pooled, Wired;
  }

  lemma DropTable(t: State)
    requires Core(t, multiset{})
    ensures Core(t.(table := map[]), multiset{})
  {
    hide Conserved, Counted, Owned, Logged, Peered, Pooled, Wired;
  }

  /** Nothing is outstanding: every awaited group is answered. */
  lemma AllAnswered(s: State)
    requires Core(s, multiset{}) && Held(s) == multiset{}
    ensures forall r :: !Outstanding(s.groups, r)
    ensures forall c :: c in s.clients ==> s.clients[c].awaitingCount == 0
  {
    hide Logged, Peered, Pooled, Tabled, Wired;
    forall r ensures !Outstanding(s.groups, r) {
      assert Held(s)[r] + multiset{}[r] == if Outstanding(s.groups, r) then 1 else 0;
    }
    forall c | c in s.clients ensures s.clients[c].awaitingCount == 0 {
      var cl := s.clients[c];
      assert ClientOwns(s.groups, c, cl, s.nextGroup);
      WaitingBound(s.groups, cl.awaiting);
      forall g | g in cl.awaiting ensures s.groups[g].counter == 0 {
        NoneOpen(s.groups, g);
      }
    }
  }

  lemma NoneOpen(gs: Groups, g: GroupId)
    requires Counted(gs) && g in gs && gs[g].issued && forall r :: !Outstanding(gs, r)
    ensures gs[g].counter == 0
  {
    UnansweredBound(gs[g].cmds);
    forall i | 0 <= i < |gs[g].cmds| ensures gs[g].cmds[i].answered {
      assert !Outstanding(gs, Ref(gs[g].client, g, i));
    }
  }

  /** Giving up leaves nothing outstanding: the servers that were mapped are closed, no server and
      no list holds a command, and no client awaits one. */
  lemma DiscardAllCore(s: State)
    requires Core(s, multiset{}) && Mapped(s.servers, s.table) && Quiet(s.clients) && Leaving(s.clients, s.closing)
    ensures var t := DiscardAll(s);
            && Core(t, multiset{}) && Mapped(t.servers, t.table) && Quiet(t.clients) && Leaving(t.clients, t.closing)
            && Onward(s.clients, t.clients) && t.closing == s.closing
            && t.updaters == [] && t.retry == [] && !t.expired && t.table == map[]
            && (forall x :: x in s.table ==> s.table[x] < |t.servers| && !t.servers[s.table[x]].open)
            && (forall id :: 0 <= id < |t.servers| ==> HeldBy(t.servers[id]) == multiset{})
            && (forall r :: !Outstanding(t.groups, r))
            && (forall c :: c in t.clients ==> t.clients[c].awaitingCount == 0)
  {
    hide Core, Quiet, Leaving, Flowing, Untouched, ClearMap, AnswerAll;
    DropUpdaters(s);
    ClearMapCore(s.(updaters := []));
    var s1 := ClearMap(s.(updaters := []));
    TakeRetry(s1);
    AnswerAllCore(s1.(retry := []), s1.retry);
    var s2 := AnswerAll(s1.(retry := []), s1.retry);
    ExpireCore(s2, multiset{});
    var t := DiscardAll(s);
    assert t.servers == s1.servers && t.retry == [];
    NothingIn(t.servers);
    assert Held(t) == multiset{};
    AllAnswered(t);
  }

  lemma DropUpdaters(s: State)
    requires Core(s, multiset{})
    ensures forall us :: Core(s.(updaters := us), multiset{})
  {
    hide Conserved, Counted, Owned, Logged, Peered, Pooled, Wired, Tabled;
  }
}
