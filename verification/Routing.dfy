/** The slot table of the cluster and that of a thread: the servers a replacement gives to the slots, and
    those it closes, are the same. */
module Routing {
  import opened Options
  import opened ThreadState
  import opened ThreadInvariants
  import opened RoundSteps
  import T = SlotTable

  /** The share of a node: `addrOf` is the address chosen for it, its own or that of a replica. */
  function TargetOf(n: T.Node, addrOf: T.Node -> Addr): Target {
    Target(addrOf(n), set x: nat | x < SLOT_COUNT && T.Covers(n, x), false)
  }

  function TargetsOf(nodes: seq<T.Node>, addrOf: T.Node -> Addr): seq<Target> {
    if nodes == [] then [] else [TargetOf(nodes[0], addrOf)] + TargetsOf(nodes[1..], addrOf)
  }

  /** The thread's table, slot by slot */
  function TableOf(table: map<Slot, ServerId>): T.Table {
    seq(SLOT_COUNT, x requires 0 <= x < SLOT_COUNT => if x in table then Some(table[x]) else None)
  }

  /** `get_server` as the slot table sees it: the server an address is registered with */
  function At(addrMap: map<Addr, ServerId>, a: Addr): ServerId {
    if a in addrMap then addrMap[a] else 0
  }

  function To(addrMap: map<Addr, ServerId>, addrOf: T.Node -> Addr): T.Node -> ServerId {
    (n: T.Node) => At(addrMap, addrOf(n))
  }

  ghost predicate Right(s: State) {
    Pooled(s.servers, s.addrMap, s.pool, false)
  }

  predicate Extends(m: map<Addr, ServerId>, n: map<Addr, ServerId>) {
    forall a :: a in m ==> a in n && n[a] == m[a]
  }

  // ----- one server -----

  lemma RefillRight(s: State)
    requires Right(s)
    ensures var t := Refill(s); Right(t) && t.pool != [] && t.addrMap == s.addrMap && t.table == s.table && t.readonly == s.readonly
  {
    hide Pooled;
    if s.pool == [] {
      RefillPooled(s.servers, s.addrMap, false);
    }
  }

  /** When nothing is refused, the server of an address is the one it is registered with afterwards. */
  lemma GetServerRight(s: State, addr: Addr)
    requires Right(s)
    ensures var (t, id) := GetServer(s, addr, false);
            Right(t) && Extends(s.addrMap, t.addrMap) && addr in t.addrMap && t.addrMap[addr] == id && t.table == s.table
  {
    if addr !in s.addrMap {
      hide Pooled, AllocServer, Refill, Tried;
      RefillRight(s);
      AllocRefilled(s, addr, false);
      var s1 := Refill(s);
      TriedPooled(s1.servers, s1.addrMap, s1.pool, false, addr, s1.readonly, false);
      AllocShape(s1, addr, false);
    }
  }

  // ----- the ranges of a node -----

  function Own(serves: bool, id: ServerId): set<Option<ServerId>> {
    if serves then {Some(id)} else {}
  }

  /** Filling ranges gives every slot in one of them to the server; a slot that is lost is one the server
      did not have, or else the server has lost it to itself. */
  lemma {:induction false} RangesLose(w: T.Swap, ranges: seq<(nat, nat)>, id: ServerId)
    requires forall r :: r in ranges ==> r.1 < |w.table|
    ensures var v := T.FillRanges(w, ranges, id);
            && v.mapped == (if T.Serves(ranges) then w.mapped + {id} else w.mapped)
            && w.removed + T.HeldIn(w.table, ranges) <= v.removed <= w.removed + T.HeldIn(w.table, ranges) + Own(T.Serves(ranges), id)
    decreases |ranges|
  {
    hide T.Serves, T.Within;
    if ranges == [] {
      NothingServes(ranges, w.table);
    } else {
      var r, rest := ranges[0], ranges[1..];
      var w1 := T.FillRange(w, r, id);
      RangesLose(w1, rest, id);
      T.ServesFirst(ranges);
      HeldFirst(w, ranges, id);
    }
  }

  lemma NothingServes(ranges: seq<(nat, nat)>, t: T.Table)
    requires ranges == []
    ensures !T.Serves(ranges) && T.HeldIn(t, ranges) == {}
  {
  }

  lemma HeldFirst(w: T.Swap, ranges: seq<(nat, nat)>, id: ServerId)
    requires ranges != []
    ensures var w1, rest := T.FillRange(w, ranges[0], id), ranges[1..];
            && w.removed + T.HeldIn(w.table, ranges) <= w1.removed + T.HeldIn(w1.table, rest)
            && w1.removed + T.HeldIn(w1.table, rest) <= w.removed + T.HeldIn(w.table, ranges) + Own(ranges[0].0 <= ranges[0].1, id)
  {
    hide T.Within;
    forall x: nat ensures T.Within(ranges, x) <==> T.InOne(ranges[0], x) || T.Within(ranges[1..], x) {
      T.WithinFirst(ranges, x);
    }
    var w1, rest := T.FillRange(w, ranges[0], id), ranges[1..];
    forall o | o in T.HeldIn(w.table, ranges) ensures o in w1.removed + T.HeldIn(w1.table, rest) {
      var x: nat :| x < |w.table| && T.Within(ranges, x) && w.table[x] == o;
      if !T.InOne(ranges[0], x) {
        assert w1.table[x] == o;
      }
    }
    forall o | o in T.HeldIn(w1.table, rest) ensures o in T.HeldIn(w.table, ranges) + Own(ranges[0].0 <= ranges[0].1, id) {
      var x: nat :| x < |w1.table| && T.Within(rest, x) && w1.table[x] == o;
      assert (o == Some(id) && T.InOne(ranges[0], x)) || w.table[x] == o;
    }
  }

  // ----- the two replacements -----

  /** Both replacements stand at the same table and the same servers that got a slot; those that lost one
      differ at most in servers that got one. */
  ghost predicate Agree(w: Swap, v: T.Swap) {
    && v.table == TableOf(w.st.table) && v.mapped == w.mapped
    && (forall id :: id in w.removed - w.mapped <==> Some(id) in v.removed && id !in v.mapped)
  }

  lemma ServesHas(n: T.Node, addrOf: T.Node -> Addr)
    requires forall r :: r in n.ranges ==> r.1 < SLOT_COUNT
    ensures T.Serves(n.ranges) <==> TargetOf(n, addrOf).slots != {}
  {
    hide T.Serves, T.Covers;
    if T.Serves(n.ranges) {
      T.ServingCovers(n);
      var x :| 0 <= x < SLOT_COUNT && T.Covers(n, x);
      assert x in TargetOf(n, addrOf).slots;
    }
    if x :| x in TargetOf(n, addrOf).slots {
      T.CoveringServes(n, x);
    }
  }

  lemma AssignAgrees(w: Swap, v: T.Swap, n: T.Node, addrOf: T.Node -> Addr)
    requires Right(w.st) && Agree(w, v) && forall r :: r in n.ranges ==> r.1 < SLOT_COUNT
    ensures var t := TargetOf(n, addrOf);
            var w1 := AssignOne(w, t);
            && Right(w1.st) && Extends(w.st.addrMap, w1.st.addrMap)
            && Agree(w1, T.FillRanges(v, n.ranges, At(w1.st.addrMap, t.addr)))
            && (t.slots != {} ==> t.addr in w1.st.addrMap)
  {
    hide T.FillRanges, T.Serves, T.Covers, GetServer, Pooled;
    var t := TargetOf(n, addrOf);
    ServesHas(n, addrOf);
    GetServerRight(w.st, t.addr);
    var w1 := AssignOne(w, t);
    var id := At(w1.st.addrMap, t.addr);
    T.RangesFill(v, n.ranges, id);
    RangesLose(v, n.ranges, id);
    SlotsWithin(n, addrOf);
    var v1 := T.FillRanges(v, n.ranges, id);
    if t.slots == {} {
      assert !T.Serves(n.ranges);
      forall x: nat | x < SLOT_COUNT ensures !T.Within(n.ranges, x) {
        assert x !in t.slots;
      }
      assert T.HeldIn(v.table, n.ranges) == {};
      assert v1.table == v.table && v1.removed == v.removed;
    } else {
      assert w1.st.table == Assigned(w.st.table, t.slots, id);
      TablesAgree(w.st.table, v1.table, t.slots, id);
      LostAgree(w.st.table, n, t.slots);
    }
  }

  lemma SlotsWithin(n: T.Node, addrOf: T.Node -> Addr)
    ensures forall x: nat :: x in TargetOf(n, addrOf).slots <==> x < SLOT_COUNT && T.Within(n.ranges, x)
  {
  }

  lemma TablesAgree(table: map<Slot, ServerId>, t: T.Table, slots: set<Slot>, id: ServerId)
    requires |t| == SLOT_COUNT && forall x :: 0 <= x < SLOT_COUNT ==> t[x] == if x in slots then Some(id) else TableOf(table)[x]
    ensures t == TableOf(Assigned(table, slots, id))
  {
  }

  lemma LostAgree(table: map<Slot, ServerId>, n: T.Node, slots: set<Slot>)
    requires forall x: nat :: x in slots <==> x < SLOT_COUNT && T.Within(n.ranges, x)
    ensures forall k :: k in (set x | x in slots && x in table :: table[x]) <==> Some(k) in T.HeldIn(TableOf(table), n.ranges)
  {
    hide T.Within;
    var lost, held := set x | x in slots && x in table :: table[x], T.HeldIn(TableOf(table), n.ranges);
    forall k | k in lost ensures Some(k) in held {
      var x :| x in slots && x in table && table[x] == k;
      assert TableOf(table)[x] == Some(k);
    }
    forall k: ServerId | Some(k) in held ensures k in lost {
      var x: nat :| x < SLOT_COUNT && T.Within(n.ranges, x) && TableOf(table)[x] == Some(k);
      assert x in slots && x in table;
    }
  }

  lemma ExtendsTrans(m: map<Addr, ServerId>, n: map<Addr, ServerId>, o: map<Addr, ServerId>)
    requires Extends(m, n) && Extends(n, o)
    ensures Extends(m, o)
  {
  }

  lemma FirstInRange(nodes: seq<T.Node>)
    requires T.InRange(nodes) && nodes != []
    ensures T.InRange(nodes[1..]) && forall r :: r in nodes[0].ranges ==> r.1 < SLOT_COUNT
  {
  }

  lemma IdleNode(w: T.Swap, ranges: seq<(nat, nat)>, i: ServerId, j: ServerId)
    requires !T.Serves(ranges)
    ensures T.FillRanges(w, ranges, i) == T.FillRanges(w, ranges, j)
    decreases |ranges|
  {
    hide T.Serves;
    if ranges != [] {
      T.ServesFirst(ranges);
      assert T.FillRange(w, ranges[0], i) == T.FillRange(w, ranges[0], j);
      IdleNode(T.FillRange(w, ranges[0], i), ranges[1..], i, j);
    }
  }

  /** The nodes taken in turn: the server of each is the one its address ends up registered with. */
  lemma {:induction false} AllAgree(w: Swap, v: T.Swap, nodes: seq<T.Node>, addrOf: T.Node -> Addr)
    requires Right(w.st) && Agree(w, v) && T.InRange(nodes)
    ensures var w1 := AssignAll(w, TargetsOf(nodes, addrOf));
            && Right(w1.st) && Extends(w.st.addrMap, w1.st.addrMap)
            && Agree(w1, T.FillNodes(v, nodes, To(w1.st.addrMap, addrOf)))
            && (forall n :: n in nodes && T.Serves(n.ranges) ==> addrOf(n) in w1.st.addrMap)
    decreases |nodes|
  {
    hide Right, Agree, T.InRange, TargetOf, AssignOne, T.FillRanges, T.Serves;
    if nodes != [] {
      var n, rest := nodes[0], nodes[1..];
      FirstInRange(nodes);
      ServesHas(n, addrOf);
      AssignAgrees(w, v, n, addrOf);
      var t := TargetOf(n, addrOf);
      var w1 := AssignOne(w, t);
      var id := At(w1.st.addrMap, t.addr);
      AllAgree(w1, T.FillRanges(v, n.ranges, id), rest, addrOf);
      assert TargetsOf(nodes, addrOf)[1..] == TargetsOf(rest, addrOf);
      var last := AssignAll(w1, TargetsOf(rest, addrOf)).st.addrMap;
      ExtendsTrans(w.st.addrMap, w1.st.addrMap, last);
      TargetAddr(n, addrOf);
      if t.slots == {} {
        IdleNode(v, n.ranges, id, At(last, t.addr));
      }
    }
  }

  lemma TargetAddr(n: T.Node, addrOf: T.Node -> Addr)
    ensures TargetOf(n, addrOf).addr == addrOf(n) && !TargetOf(n, addrOf).refused
  {
  }

  /** The state in which the nodes have their servers and nothing has been closed yet */
  function Assigning(s: State, nodes: seq<T.Node>, addrOf: T.Node -> Addr): Swap {
    AssignAll(Swap(s, {}, {}), TargetsOf(nodes, addrOf))
  }

  /** When no connection is refused, a thread replaces its table as `SlotTable` says: slot by slot it has
      the same servers, and the servers closed are the same. */
  lemma ReplacesAlike(s: State, nodes: seq<T.Node>, addrOf: T.Node -> Addr)
    requires Right(s) && T.InRange(nodes)
    ensures var w := Assigning(s, nodes, addrOf);
            var v := T.Replaced(TableOf(s.table), nodes, To(w.st.addrMap, addrOf));
            && TableOf(ReplaceMap(s, TargetsOf(nodes, addrOf)).table) == v.table
            && ReplaceMap(s, TargetsOf(nodes, addrOf)) == CloseFrom(w.st, T.Closing(v), 0)
  {
    hide AssignAll, T.FillNodes, Right;
    AllAgree(Swap(s, {}, {}), T.Swap(TableOf(s.table), {}, {}), nodes, addrOf);
    var w := Assigning(s, nodes, addrOf);
    var v := T.Replaced(TableOf(s.table), nodes, To(w.st.addrMap, addrOf));
    assert w.removed - w.mapped == T.Closing(v);
    CloseKeepsOthers(w.st, T.Closing(v), 0);
  }

  /** Closing servers leaves the others, and the table, as they are. */
  lemma {:induction false} CloseKeepsOthers(s: State, ids: set<ServerId>, k: nat)
    ensures var t := CloseFrom(s, ids, k);
            && t.table == s.table && |t.servers| == |s.servers|
            && (forall id :: 0 <= id < |s.servers| && id !in ids ==> t.servers[id] == s.servers[id])
    decreases |s.servers| - k
  {
    hide CloseConn;
    if k < |s.servers| {
      CloseKeepsRest(s, k);
      CloseKeepsOthers(if k in ids then CloseConn(s, k) else s, ids, k + 1);
    }
  }

  lemma CloseKeepsRest(s: State, k: ServerId)
    ensures var t := CloseConn(s, k);
            && t.table == s.table && |t.servers| == |s.servers|
            && (forall id :: 0 <= id < |s.servers| && id != k ==> t.servers[id] == s.servers[id])
  {
  }

  /** A node with a slot has an open server at its address, and that server is not among those closed. */
  lemma GainsServer(s: State, nodes: seq<T.Node>, addrOf: T.Node -> Addr, n: T.Node)
    requires Right(s) && T.InRange(nodes) && T.Apart(nodes) && n in nodes && T.Serves(n.ranges)
    ensures var w := Assigning(s, nodes, addrOf);
            var to := To(w.st.addrMap, addrOf);
            && to(n) < |w.st.servers| && w.st.servers[to(n)].open && w.st.servers[to(n)].addr == addrOf(n)
            && to(n) !in T.Closing(T.Replaced(TableOf(s.table), nodes, to))
  {
    hide AssignAll, T.FillNodes, T.Apart, T.InRange, T.Serves;
    AllAgree(Swap(s, {}, {}), T.Swap(TableOf(s.table), {}, {}), nodes, addrOf);
    var w := Assigning(s, nodes, addrOf);
    T.NodesRemove(T.Swap(TableOf(s.table), {}, {}), TableOf(s.table), nodes, To(w.st.addrMap, addrOf));
  }

  /** When no connection is refused, every slot of a node is served, over an open connection, by a server
      at the address chosen for that node. */
  lemma RoutesRight(s: State, nodes: seq<T.Node>, addrOf: T.Node -> Addr, i: nat, x: Slot)
    requires Right(s) && T.InRange(nodes) && T.Apart(nodes) && i < |nodes| && x < SLOT_COUNT && T.Covers(nodes[i], x)
    ensures var t := ReplaceMap(s, TargetsOf(nodes, addrOf));
            ServerBySlot(t, x).Some? && Srv(t, ServerBySlot(t, x).value).addr == addrOf(nodes[i])
  {
    hide AssignAll, T.FillNodes, T.Covers, T.Apart, T.InRange, CloseFrom, ReplaceMap, T.Serves;
    var w := Assigning(s, nodes, addrOf);
    var to := To(w.st.addrMap, addrOf);
    var v := T.Replaced(TableOf(s.table), nodes, to);
    ReplacesAlike(s, nodes, addrOf);
    T.NodesFill(T.Swap(TableOf(s.table), {}, {}), nodes, to, x);
    T.CoveringServes(nodes[i], x);
    GainsServer(s, nodes, addrOf, nodes[i]);
    CloseKeepsOthers(w.st, T.Closing(v), 0);
  }
}
