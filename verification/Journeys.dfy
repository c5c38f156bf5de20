/** From the bytes of a request to the node that has its key. */
module Journeys {
  import opened Options
  import opened Bytes
  import opened Resp
  import opened SlotCalc
  import opened Streams
  import opened Commands
  import opened ClientRequests
  import opened Layers
  import opened Routing
  import ClientSplitter
  import FanoutGroups
  import Reading
  import Rounds
  import RoundSteps
  import Safety = ThreadSafety
  import Selecting
  import SlotTable
  import T = ThreadState

  // ----- a slot map in force -----

  /** The slot leads, over an open connection, to a server at the address. */
  predicate LeadsTo(s: T.State, x: T.Slot, addr: T.Addr) {
    x in s.table && s.table[x] < |s.servers| && s.servers[s.table[x]].open && s.servers[s.table[x]].addr == addr
  }

  lemma {:induction false} CoveredNodes(nodes: seq<SlotTable.Node>, addrOf: SlotTable.Node -> T.Addr, x: T.Slot)
    ensures x in T.Covered(TargetsOf(nodes, addrOf)) <==> x < T.SLOT_COUNT && SlotTable.Owned(nodes, x)
  {
    hide SlotTable.Covers, SlotTable.Owned;
    if nodes == [] {
      SlotTable.NothingOwned(x);
    } else {
      CoveredNodes(nodes[1..], addrOf, x);
      SlotTable.OwnedFirst(nodes, x);
      assert TargetsOf(nodes, addrOf)[1..] == TargetsOf(nodes[1..], addrOf);
    }
  }

  /** Nodes that share no slot make targets that share none. */
  lemma {:induction false} TargetsApart(nodes: seq<SlotTable.Node>, addrOf: SlotTable.Node -> T.Addr)
    requires SlotTable.Apart(nodes)
    ensures RoundSteps.Apart(TargetsOf(nodes, addrOf))
  {
    hide SlotTable.Covers, SlotTable.Apart;
    if nodes != [] {
      SlotTable.RestApart(nodes);
      TargetsApart(nodes[1..], addrOf);
      assert TargetsOf(nodes, addrOf)[1..] == TargetsOf(nodes[1..], addrOf);
      forall x | x in TargetOf(nodes[0], addrOf).slots ensures x !in T.Covered(TargetsOf(nodes[1..], addrOf)) {
        CoveredNodes(nodes[1..], addrOf, x);
      }
    }
  }

  lemma {:induction false} CountUpTo(s: set<T.Slot>, n: nat)
    requires forall x: nat :: x < n ==> x in s
    ensures |s| >= n
  {
    if n > 0 {
      CountUpTo(s - {n - 1}, n - 1);
      assert s == (s - {n - 1}) + {n - 1};
    }
  }

  /** Nodes that have every slot between them make a map that covers 16384 slots. */
  lemma TargetsFull(nodes: seq<SlotTable.Node>, addrOf: SlotTable.Node -> T.Addr)
    requires SlotTable.Full(nodes)
    ensures |T.Covered(TargetsOf(nodes, addrOf))| >= 16384
  {
    hide SlotTable.Owned;
    forall x: nat | x < 16384 ensures x in T.Covered(TargetsOf(nodes, addrOf)) {
      CoveredNodes(nodes, addrOf, x);
    }
    CountUpTo(T.Covered(TargetsOf(nodes, addrOf)), 16384);
  }

  lemma RightOf(s: T.State)
    requires Safety.Safe(s) && !s.refused
    ensures Right(s)
  {
    Safety.InvParts(s);
  }

  /** A map of nodes that has been adopted by a thread that has had no connection refused: every slot it
      covers leads to the address chosen for its node. */
  lemma AdoptedLeads(s: T.State, t: T.State, nodes: seq<SlotTable.Node>, addrOf: SlotTable.Node -> T.Addr, i: nat, x: T.Slot)
    requires Right(s) && SlotTable.InRange(nodes) && SlotTable.Apart(nodes) && Rounds.Adopted(s, t, TargetsOf(nodes, addrOf))
    requires i < |nodes| && x < T.SLOT_COUNT && SlotTable.Covers(nodes[i], x)
    ensures LeadsTo(t, x, addrOf(nodes[i]))
  {
    hide Right, SlotTable.InRange, SlotTable.Apart, SlotTable.Covers, T.ReplaceMap, TargetsOf, Selecting.Placed, Selecting.GoesBy;
    RoutesRight(s, nodes, addrOf, i, x);
  }

  /** After the event in which an updater reports a full map of the cluster, every slot leads to the address
      of its node, the round is over, and the clients are as they were. */
  lemma MapReportRoutes(s: T.State, u: nat, nodes: seq<SlotTable.Node>, addrOf: SlotTable.Node -> T.Addr, i: nat, x: T.Slot)
    requires Safety.Safe(s) && !s.refused && u < |s.updaters| && s.updaters[u].open
    requires SlotTable.InRange(nodes) && SlotTable.Apart(nodes) && SlotTable.Full(nodes)
    requires i < |nodes| && x < T.SLOT_COUNT && SlotTable.Covers(nodes[i], x)
    ensures var t := T.Apply(s, T.SlotMapReply(u, TargetsOf(nodes, addrOf)));
            LeadsTo(t, x, addrOf(nodes[i])) && t.updaters == [] && t.clients == s.clients && t.groups == s.groups
  {
    hide Safety.Safe, SlotTable.InRange, SlotTable.Apart, SlotTable.Covers, SlotTable.Full, TargetsOf, Rounds.Adopted, T.Apply, RoundSteps.Apart,
         T.Covered, Right;
    var targets := TargetsOf(nodes, addrOf);
    TargetsApart(nodes, addrOf);
    TargetsFull(nodes, addrOf);
    Rounds.FullMapAdopted(s, u, targets);
    var s1, t := Rounds.Reporting(s, u, targets), T.Apply(s, T.SlotMapReply(u, targets));
    RightOf(s);
    SameRight(s, s1);
    AdoptedLeads(s1, t, nodes, addrOf, i, x);
    AdoptedKeeps(s1, t, targets);
  }

  lemma SameRight(s: T.State, t: T.State)
    requires Right(s) && t == s.(updaters := t.updaters)
    ensures Right(t)
  {
  }

  lemma AdoptedKeeps(s: T.State, t: T.State, targets: seq<T.Target>)
    requires Rounds.Adopted(s, t, targets)
    ensures t.updaters == [] && t.clients == s.clients && t.groups == s.groups
  {
    hide T.ReplaceMap, Selecting.Placed, Selecting.GoesBy;
  }

  // ----- a request on its way -----

  /** The command is queued on an open connection to the address. */
  predicate QueuedAt(s: T.State, r: T.Ref, addr: T.Addr) {
    exists id :: 0 <= id < |s.servers| && s.servers[id].open && s.servers[id].addr == addr && r in s.servers[id].queue
  }

  /** Command `k` of the `i`-th request that a client sends while it awaits nothing is queued, in that very
      event, for the address its slot leads to. */
  lemma CommandReaches(table: Text -> Kind, buf: Text, ms: seq<Message>, s: T.State, c: T.ClientId, i: nat, k: nat, x: T.Slot, addr: T.Addr)
    requires AllWellFormed(ms) && ClientSplitter.AllRequests(table, ms) && Carries(buf, 0, ms) && i < Whole(ms, |buf|)
    requires Safety.Safe(s) && T.Listening(s, c) && s.clients[c].awaiting == [] && |s.clients[c].parsed| + i < 64
    requires var plans := PlansOf(RequestOf(table, ms[i])); k < |plans| && Reading.StartsAt(plans[k], x)
    requires LeadsTo(s, x, addr)
    ensures QueuedAt(T.Apply(s, ReadOf(table, buf, c)), T.Ref(c, s.nextGroup + i, k), addr)
  {
    hide ClientSplitter.SplitClient, RequestOf, PlansOf, Carries, ClientSplitter.AllRequests, Whole, AllPlans, Safety.Safe, T.Apply, Reading.StartsAt;
    RequestsRead(table, buf, ms, i);
    var requests := AllPlans(ClientSplitter.SplitClient(table, buf).0);
    Reading.ReadPlaces(s, c, requests, i, k, x);
    var t, id := T.Apply(s, ReadOf(table, buf, c)), s.table[x];
    assert Selecting.Leads(t, x, id);
  }

  /** A standard command goes to the node that has its first key. */
  lemma StandardReachesNode(table: Text -> Kind, buf: Text, ms: seq<Message>, s: T.State, c: T.ClientId, i: nat, addr: T.Addr)
    requires AllWellFormed(ms) && ClientSplitter.AllRequests(table, ms) && Carries(buf, 0, ms) && i < Whole(ms, |buf|)
    requires Safety.Safe(s) && T.Listening(s, c) && s.clients[c].awaiting == [] && |s.clients[c].parsed| + i < 64
    requires ms[i].Array? && |ms[i].items| > 1 && AllBulk(ms[i].items) && table(UpperText(ms[i].items[0].body)) == Standard
    requires LeadsTo(s, Slot(ms[i].items[1].body) as nat, addr)
    ensures QueuedAt(T.Apply(s, ReadOf(table, buf, c)), T.Ref(c, s.nextGroup + i, 0), addr)
  {
    hide ClientSplitter.SplitClient, RequestOf, Carries, ClientSplitter.AllRequests, Whole, AllPlans, Safety.Safe, T.Apply, Slot, LeadsTo, QueuedAt, Encode,
         UpperText;
    StandardRequest(table, ms[i]);
    CommandReaches(table, buf, ms, s, c, i, 0, Slot(ms[i].items[1].body) as nat, addr);
  }

  /** Each command of an MGET, MSET or DEL goes to the node that has the key it is for. */
  lemma FanReachesNodes(table: Text -> Kind, buf: Text, ms: seq<Message>, s: T.State, c: T.ClientId, i: nat, k: nat, addr: T.Addr)
    requires AllWellFormed(ms) && ClientSplitter.AllRequests(table, ms) && Carries(buf, 0, ms) && i < Whole(ms, |buf|)
    requires Safety.Safe(s) && T.Listening(s, c) && s.clients[c].awaiting == [] && |s.clients[c].parsed| + i < 64
    requires RequestOf(table, ms[i]).Fan? && k < |RequestOf(table, ms[i]).subs|
    requires FanoutGroups.NodeReads(RequestOf(table, ms[i]).subs[k].bytes).Some?
    requires LeadsTo(s, Slot(FanoutGroups.NodeReads(RequestOf(table, ms[i]).subs[k].bytes).value.key) as nat, addr)
    ensures QueuedAt(T.Apply(s, ReadOf(table, buf, c)), T.Ref(c, s.nextGroup + i, k), addr)
  {
    hide ClientSplitter.SplitClient, RequestOf, Carries, Whole, AllPlans, Safety.Safe, T.Apply, Slot, LeadsTo, QueuedAt, FanoutGroups.NodeReads,
         IsRequest;
    FanoutGroups.FanBySlot(table, ms[i], k);
    CommandReaches(table, buf, ms, s, c, i, k, RequestOf(table, ms[i]).subs[k].slot as nat, addr);
  }

  /** The two events together: a full map of the cluster is reported, and then a client's standard command
      is read.  It is queued for the node that covers the slot of its key. */
  lemma KeyFindsNode(table: Text -> Kind, buf: Text, ms: seq<Message>, s: T.State, c: T.ClientId, i: nat,
                     u: nat, nodes: seq<SlotTable.Node>, addrOf: SlotTable.Node -> T.Addr, j: nat)
    requires AllWellFormed(ms) && ClientSplitter.AllRequests(table, ms) && Carries(buf, 0, ms) && i < Whole(ms, |buf|)
    requires Safety.Safe(s) && !s.refused && T.Listening(s, c) && s.clients[c].awaiting == [] && |s.clients[c].parsed| + i < 64
    requires u < |s.updaters| && s.updaters[u].open && SlotTable.InRange(nodes) && SlotTable.Apart(nodes) && SlotTable.Full(nodes)
    requires ms[i].Array? && |ms[i].items| > 1 && AllBulk(ms[i].items) && table(UpperText(ms[i].items[0].body)) == Standard
    requires j < |nodes| && SlotTable.Covers(nodes[j], Slot(ms[i].items[1].body) as nat)
    ensures var s1 := T.Apply(s, T.SlotMapReply(u, TargetsOf(nodes, addrOf)));
            QueuedAt(T.Apply(s1, ReadOf(table, buf, c)), T.Ref(c, s1.nextGroup + i, 0), addrOf(nodes[j]))
  {
    hide ClientSplitter.SplitClient, RequestOf, Carries, ClientSplitter.AllRequests, Whole, AllPlans, Safety.Safe, T.Apply, Slot, LeadsTo, QueuedAt,
         UpperText, SlotTable.InRange, SlotTable.Apart, SlotTable.Full, SlotTable.Covers, TargetsOf, RoundSteps.Apart;
    var e := T.SlotMapReply(u, TargetsOf(nodes, addrOf));
    SlotInTable(ms[i].items[1].body);
    MapReportRoutes(s, u, nodes, addrOf, j, Slot(ms[i].items[1].body) as nat);
    TargetsApart(nodes, addrOf);
    Safety.ApplySafe(s, e);
    StandardReachesNode(table, buf, ms, T.Apply(s, e), c, i, addrOf(nodes[j]));
  }
}
