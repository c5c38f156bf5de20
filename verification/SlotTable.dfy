/** Replacing the slot table: which server every slot gets, and which servers are closed. */
module SlotTable {
  import opened Options
  import opened Bytes
  import opened Responses

  const SLOT_COUNT: nat := 16384

  type ServerId = nat

  /** A node of the cluster: a replica names its master, a master names nobody. */
  datatype Node = Node(addr: nat, host: Text, id: Text, master: Text, ranges: seq<(nat, nat)>)

  type Table = seq<Option<ServerId>>

  predicate InRange(nodes: seq<Node>) {
    forall i, r :: 0 <= i < |nodes| && r in nodes[i].ranges ==> r.1 < SLOT_COUNT
  }

  // ----- the replacement as a fold -----

  /** The table, the servers that lost a slot (or none), and those that got one */
  datatype Swap = Swap(table: Table, removed: set<Option<ServerId>>, mapped: set<ServerId>)

  function FillRange(w: Swap, r: (nat, nat), id: ServerId): Swap {
    Swap(seq(|w.table|, x requires 0 <= x < |w.table| => if r.0 <= x <= r.1 then Some(id) else w.table[x]),
         w.removed + (set x | 0 <= x < |w.table| && r.0 <= x <= r.1 :: w.table[x]),
         if r.0 <= r.1 then w.mapped + {id} else w.mapped)
  }

  function FillRanges(w: Swap, ranges: seq<(nat, nat)>, id: ServerId): Swap
    decreases |ranges|
  {
    if ranges == [] then w else FillRanges(FillRange(w, ranges[0], id), ranges[1..], id)
  }

  function FillNodes(w: Swap, nodes: seq<Node>, to: Node -> ServerId): Swap
    decreases |nodes|
  {
    if nodes == [] then w else FillNodes(FillRanges(w, nodes[0].ranges, to(nodes[0])), nodes[1..], to)
  }

  /** The servers to close: those that lost a slot and got none */
  function Closing(w: Swap): set<ServerId> {
    set o | o in w.removed && o.Some? && o.value !in w.mapped :: o.value
  }

  // ----- the loops -----

  class SlotMap {
    const servers: array<Option<ServerId>>

    ghost function View(): Table
      reads this, servers
    {
      servers[..]
    }

    constructor ()
      ensures fresh(servers) && servers.Length == SLOT_COUNT && View() == seq(SLOT_COUNT, _ => None)
    {
      servers := new Option<ServerId>[SLOT_COUNT](_ => None);
    }

    /** The innermost loop of `replace_map` */
    method Fill(r: (nat, nat), id: ServerId, removed: set<Option<ServerId>>, mapped: set<ServerId>)
      returns (removed': set<Option<ServerId>>, mapped': set<ServerId>)
      requires r.1 < servers.Length
      modifies servers
      ensures Swap(View(), removed', mapped') == FillRange(Swap(old(View()), removed, mapped), r, id)
    {
      removed', mapped' := removed, mapped;
      var s := r.0;
      while s <= r.1
        invariant r.0 <= s && s <= (if r.0 <= r.1 then r.1 + 1 else r.0)
        invariant forall x :: 0 <= x < servers.Length ==>
                    servers[x] == if r.0 <= x < s then Some(id) else old(View())[x]
        invariant removed' == removed + (set x | 0 <= x < servers.Length && r.0 <= x < s && x <= r.1 :: old(View())[x])
        invariant mapped' == if r.0 < s then mapped + {id} else mapped
      {
        removed' := removed' + {servers[s]};
        mapped' := mapped' + {id};
        servers[s] := Some(id);
        s := s + 1;
      }
      ghost var w := FillRange(Swap(old(View()), removed, mapped), r, id);
      assert View() == w.table;
      assert removed' == w.removed;
    }

    /** `replace_map`, with `to` the server `get_server` gives for a node */
    method ReplaceMap(nodes: seq<Node>, to: Node -> ServerId) returns (closing: set<ServerId>)
      requires servers.Length == SLOT_COUNT && InRange(nodes)
      modifies servers
      ensures var w := FillNodes(Swap(old(View()), {}, {}), nodes, to); View() == w.table && closing == Closing(w)
    {
      hide FillRange;
      var removed, mapped := {}, {};
      ghost var all := FillNodes(Swap(View(), removed, mapped), nodes, to);
      assert nodes[0..] == nodes;
      for i := 0 to |nodes|
        invariant FillNodes(Swap(View(), removed, mapped), nodes[i..], to) == all
      {
        assert nodes[i..][1..] == nodes[i + 1..];
        var node := nodes[i];
        ghost var filled := FillRanges(Swap(View(), removed, mapped), node.ranges, to(node));
        assert node.ranges[0..] == node.ranges;
        for j := 0 to |node.ranges|
          invariant FillRanges(Swap(View(), removed, mapped), node.ranges[j..], to(node)) == filled
        {
          assert node.ranges[j..][1..] == node.ranges[j + 1..];
          removed, mapped := Fill(node.ranges[j], to(node), removed, mapped);
        }
      }
      closing := set o | o in removed && o.Some? && o.value !in mapped :: o.value;
    }

    /** `clear` */
    method Clear() returns (closing: set<ServerId>)
      modifies servers
      ensures closing == Mapped(old(View())) && View() == seq(servers.Length, _ => None)
    {
      closing := {};
      for x := 0 to servers.Length
        modifies {}
        invariant closing == Mapped(servers[..x])
      {
        assert servers[..x + 1] == servers[..x] + [servers[x]];
        if servers[x].Some? {
          closing := closing + {servers[x].value};
        }
      }
      assert servers[..servers.Length] == servers[..];
      for x := 0 to servers.Length
        invariant forall y :: 0 <= y < x ==> servers[y] == None
      {
        servers[x] := None;
      }
    }
  }

  /** The servers of a table */
  function Mapped(t: Table): set<ServerId> {
    set o | o in t && o.Some? :: o.value
  }

  // ----- what every slot gets -----

  predicate InOne(r: (nat, nat), x: nat) {
    r.0 <= x <= r.1
  }

  predicate Within(ranges: seq<(nat, nat)>, x: nat) {
    exists i :: 0 <= i < |ranges| && InOne(ranges[i], x)
  }

  predicate Covers(n: Node, x: nat) {
    Within(n.ranges, x)
  }

  lemma WithinFirst(ranges: seq<(nat, nat)>, x: nat)
    requires ranges != []
    ensures Within(ranges, x) <==> InOne(ranges[0], x) || Within(ranges[1..], x)
  {
    if Within(ranges, x) {
      var i :| 0 <= i < |ranges| && InOne(ranges[i], x);
      if i > 0 {
        assert InOne(ranges[1..][i - 1], x);
      }
    }
    if Within(ranges[1..], x) {
      var i :| 0 <= i < |ranges[1..]| && InOne(ranges[1..][i], x);
      assert InOne(ranges[i + 1], x);
    }
  }

  lemma {:induction false} RangesFill(w: Swap, ranges: seq<(nat, nat)>, id: ServerId)
    ensures |FillRanges(w, ranges, id).table| == |w.table|
    ensures forall x :: 0 <= x < |w.table| ==>
              FillRanges(w, ranges, id).table[x] == if Within(ranges, x) then Some(id) else w.table[x]
    decreases |ranges|
  {
    hide Within;
    if ranges == [] {
      forall x | 0 <= x < |w.table| ensures !Within(ranges, x) {
        NothingWithin(x);
      }
    } else {
      RangesFill(FillRange(w, ranges[0], id), ranges[1..], id);
      forall x | 0 <= x < |w.table|
        ensures FillRanges(w, ranges, id).table[x] == if Within(ranges, x) then Some(id) else w.table[x]
      {
        WithinFirst(ranges, x);
      }
    }
  }

  lemma NothingWithin(x: nat)
    ensures !Within([], x)
  {
  }

  /** No slot belongs to two nodes, and no node has a slot twice. */
  ghost predicate Apart(nodes: seq<Node>) {
    && (forall i, j, x :: 0 <= i < j < |nodes| && Covers(nodes[i], x) ==> !Covers(nodes[j], x))
    && (forall i, j, k, x :: 0 <= i < |nodes| && 0 <= j < k < |nodes[i].ranges| && InOne(nodes[i].ranges[j], x) ==>
          !InOne(nodes[i].ranges[k], x))
  }

  /** Every slot belongs to some node. */
  ghost predicate Full(nodes: seq<Node>) {
    forall x :: 0 <= x < SLOT_COUNT ==> Owned(nodes, x)
  }

  predicate Owned(nodes: seq<Node>, x: nat) {
    exists i :: 0 <= i < |nodes| && Covers(nodes[i], x)
  }

  /** Slots that a node covers get its server, and the others keep theirs. */
  lemma {:induction false} NodesFill(w: Swap, nodes: seq<Node>, to: Node -> ServerId, x: nat)
    requires Apart(nodes) && x < |w.table|
    ensures |FillNodes(w, nodes, to).table| == |w.table|
    ensures !Owned(nodes, x) ==> FillNodes(w, nodes, to).table[x] == w.table[x]
    ensures forall i :: 0 <= i < |nodes| && Covers(nodes[i], x) ==> FillNodes(w, nodes, to).table[x] == Some(to(nodes[i]))
    decreases |nodes|
  {
    hide Covers, FillRanges;
    if nodes != [] {
      var n, rest := nodes[0], nodes[1..];
      var w1 := FillRanges(w, n.ranges, to(n));
      NodeFills(w, n, to(n), x);
      RestApart(nodes);
      NodesFill(w1, rest, to, x);
      assert forall i :: 0 < i < |nodes| ==> nodes[i] == rest[i - 1];
      if Owned(rest, x) {
        var i :| 0 <= i < |rest| && Covers(rest[i], x);
        assert Covers(nodes[i + 1], x);
      }
    }
  }

  lemma NodeFills(w: Swap, n: Node, id: ServerId, x: nat)
    requires x < |w.table|
    ensures var w1 := FillRanges(w, n.ranges, id);
            |w1.table| == |w.table| && w1.table[x] == if Covers(n, x) then Some(id) else w.table[x]
  {
    hide FillRanges;
    RangesFill(w, n.ranges, id);
  }

  lemma RestApart(nodes: seq<Node>)
    requires Apart(nodes) && nodes != []
    ensures Apart(nodes[1..])
    ensures forall x, i :: 0 <= i < |nodes[1..]| && Covers(nodes[0], x) ==> !Covers(nodes[1..][i], x)
  {
    hide Covers;
  }

  // ----- who is closed -----

  /** The node has a range that is not empty. */
  predicate Serves(ranges: seq<(nat, nat)>) {
    exists i :: 0 <= i < |ranges| && ranges[i].0 <= ranges[i].1
  }

  /** What the slots of some ranges held */
  function HeldIn(t: Table, ranges: seq<(nat, nat)>): set<Option<ServerId>> {
    set x | 0 <= x < |t| && Within(ranges, x) :: t[x]
  }

  lemma {:induction false} RangesRemove(w: Swap, t: Table, ranges: seq<(nat, nat)>, id: ServerId)
    requires |t| == |w.table|
    requires forall i, j, x :: 0 <= i < j < |ranges| && InOne(ranges[i], x) ==> !InOne(ranges[j], x)
    requires forall x :: 0 <= x < |t| && Within(ranges, x) ==> w.table[x] == t[x]
    ensures FillRanges(w, ranges, id).removed == w.removed + HeldIn(t, ranges)
    ensures FillRanges(w, ranges, id).mapped == if Serves(ranges) then w.mapped + {id} else w.mapped
    decreases |ranges|
  {
    if ranges != [] {
      var r, rest := ranges[0], ranges[1..];
      var w1 := FillRange(w, r, id);
      forall x ensures Within(ranges, x) <==> InOne(r, x) || Within(rest, x) {
        WithinFirst(ranges, x);
      }
      forall x | 0 <= x < |t| && Within(rest, x) ensures w1.table[x] == t[x] {
        var i :| 0 <= i < |rest| && InOne(rest[i], x);
        assert InOne(ranges[i + 1], x);
        assert !InOne(r, x);
      }
      RangesRemove(w1, t, rest, id);
      ServesFirst(ranges);
      assert HeldIn(t, ranges) == (set x | 0 <= x < |t| && r.0 <= x <= r.1 :: w.table[x]) + HeldIn(t, rest);
    }
  }

  lemma ServesFirst(ranges: seq<(nat, nat)>)
    requires ranges != []
    ensures Serves(ranges) <==> ranges[0].0 <= ranges[0].1 || Serves(ranges[1..])
  {
    if Serves(ranges[1..]) {
      var i :| 0 <= i < |ranges[1..]| && ranges[1..][i].0 <= ranges[1..][i].1;
      assert ranges[i + 1].0 <= ranges[i + 1].1;
    }
    if i :| 0 < i < |ranges| && ranges[i].0 <= ranges[i].1 {
      assert ranges[1..][i - 1].0 <= ranges[1..][i - 1].1;
    }
  }

  /** What the slots of all the nodes held */
  function Lost(t: Table, nodes: seq<Node>): set<Option<ServerId>> {
    set x | 0 <= x < |t| && Owned(nodes, x) :: t[x]
  }

  /** The servers of the nodes that have a slot */
  function Gained(nodes: seq<Node>, to: Node -> ServerId): set<ServerId> {
    set n | n in nodes && Serves(n.ranges) :: to(n)
  }

  lemma OwnedFirst(nodes: seq<Node>, x: nat)
    requires nodes != []
    ensures Owned(nodes, x) <==> Covers(nodes[0], x) || Owned(nodes[1..], x)
  {
    hide Covers;
    if i :| 0 < i < |nodes| && Covers(nodes[i], x) {
      assert Covers(nodes[1..][i - 1], x);
    }
    if Owned(nodes[1..], x) {
      var i :| 0 <= i < |nodes[1..]| && Covers(nodes[1..][i], x);
      assert Covers(nodes[i + 1], x);
    }
  }

  lemma NodeRemoves(w: Swap, t: Table, nodes: seq<Node>, id: ServerId)
    requires Apart(nodes) && nodes != [] && |t| == |w.table|
    requires forall x :: 0 <= x < |t| && Owned(nodes, x) ==> w.table[x] == t[x]
    ensures var w1 := FillRanges(w, nodes[0].ranges, id);
            && w1.removed == w.removed + HeldIn(t, nodes[0].ranges)
            && w1.mapped == (if Serves(nodes[0].ranges) then w.mapped + {id} else w.mapped)
            && |w1.table| == |t| && (forall x :: 0 <= x < |t| && Owned(nodes[1..], x) ==> w1.table[x] == t[x])
  {
    hide FillRanges, Serves, HeldIn;
    var n := nodes[0];
    RestApart(nodes);
    forall x | 0 <= x < |t| && Within(n.ranges, x) ensures w.table[x] == t[x] {
      assert Covers(n, x);
      assert Owned(nodes, x);
    }
    RangesRemove(w, t, n.ranges, id);
    RangesFill(w, n.ranges, id);
    forall x | 0 <= x < |t| && Owned(nodes[1..], x)
      ensures FillRanges(w, n.ranges, id).table[x] == t[x]
    {
      OwnedFirst(nodes, x);
      var i :| 0 <= i < |nodes[1..]| && Covers(nodes[1..][i], x);
      assert !Covers(n, x);
    }
  }

  lemma {:induction false} NodesRemove(w: Swap, t: Table, nodes: seq<Node>, to: Node -> ServerId)
    requires Apart(nodes) && |t| == |w.table|
    requires forall x :: 0 <= x < |t| && Owned(nodes, x) ==> w.table[x] == t[x]
    ensures FillNodes(w, nodes, to).removed == w.removed + Lost(t, nodes)
    ensures FillNodes(w, nodes, to).mapped == w.mapped + Gained(nodes, to)
    decreases |nodes|
  {
    hide FillRanges, Serves, Owned, Within, Apart;
    if nodes == [] {
      forall x ensures !Owned(nodes, x) {
        NothingOwned(x);
      }
    } else {
      var n, rest := nodes[0], nodes[1..];
      NodeRemoves(w, t, nodes, to(n));
      RestApart(nodes);
      NodesRemove(FillRanges(w, n.ranges, to(n)), t, rest, to);
      forall x ensures Owned(nodes, x) <==> Covers(n, x) || Owned(rest, x) {
        OwnedFirst(nodes, x);
      }
      assert Lost(t, nodes) == HeldIn(t, n.ranges) + Lost(t, rest);
      GainedFirst(nodes, to);
    }
  }

  lemma NothingOwned(x: nat)
    ensures !Owned([], x)
  {
  }

  lemma GainedFirst(nodes: seq<Node>, to: Node -> ServerId)
    requires nodes != []
    ensures Gained(nodes, to) == (if Serves(nodes[0].ranges) then {to(nodes[0])} else {}) + Gained(nodes[1..], to)
  {
    hide Serves;
    assert nodes == [nodes[0]] + nodes[1..];
  }

  function Replaced(t: Table, nodes: seq<Node>, to: Node -> ServerId): Swap {
    FillNodes(Swap(t, {}, {}), nodes, to)
  }

  /** The servers of the slots that no node covers */
  function Untouched(t: Table, nodes: seq<Node>): set<ServerId> {
    set x | 0 <= x < |t| && !Owned(nodes, x) && t[x].Some? :: t[x].value
  }

  lemma ServingCovers(n: Node)
    requires Serves(n.ranges) && forall r :: r in n.ranges ==> r.1 < SLOT_COUNT
    ensures exists x :: 0 <= x < SLOT_COUNT && Covers(n, x)
  {
    var i :| 0 <= i < |n.ranges| && n.ranges[i].0 <= n.ranges[i].1;
    var x := n.ranges[i].0;
    assert n.ranges[i] in n.ranges;
    assert InOne(n.ranges[i], x) && Covers(n, x);
  }

  lemma CoveringServes(n: Node, x: nat)
    requires Covers(n, x)
    ensures Serves(n.ranges)
  {
    var i :| 0 <= i < |n.ranges| && InOne(n.ranges[i], x);
    assert n.ranges[i].0 <= n.ranges[i].1;
  }

  /** The new table holds the servers of the nodes that have a slot, and those of untouched slots. */
  lemma NewServers(t: Table, nodes: seq<Node>, to: Node -> ServerId)
    requires |t| == SLOT_COUNT && InRange(nodes) && Apart(nodes)
    ensures Mapped(Replaced(t, nodes, to).table) == Gained(nodes, to) + Untouched(t, nodes)
  {
    hide FillNodes, Serves, Covers, Apart;
    var w := Replaced(t, nodes, to);
    forall x | 0 <= x < |t|
      ensures |w.table| == |t| && (!Owned(nodes, x) ==> w.table[x] == t[x])
      ensures forall i :: 0 <= i < |nodes| && Covers(nodes[i], x) ==> w.table[x] == Some(to(nodes[i]))
    {
      NodesFill(Swap(t, {}, {}), nodes, to, x);
    }
    NodesFill(Swap(t, {}, {}), nodes, to, 0);
    forall id | id in Mapped(w.table) ensures id in Gained(nodes, to) + Untouched(t, nodes) {
      var x :| 0 <= x < |w.table| && w.table[x] == Some(id);
      if Owned(nodes, x) {
        var i :| 0 <= i < |nodes| && Covers(nodes[i], x);
        CoveringServes(nodes[i], x);
        assert nodes[i] in nodes;
      }
    }
    forall id | id in Gained(nodes, to) ensures id in Mapped(w.table) {
      var n :| n in nodes && Serves(n.ranges) && to(n) == id;
      var i :| 0 <= i < |nodes| && nodes[i] == n;
      ServingCovers(n);
      var x :| 0 <= x < SLOT_COUNT && Covers(n, x);
      assert w.table[x] in w.table;
    }
    forall id | id in Untouched(t, nodes) ensures id in Mapped(w.table) {
      var x :| 0 <= x < |t| && !Owned(nodes, x) && t[x].Some? && t[x].value == id;
      assert w.table[x] in w.table;
    }
  }

  lemma OldServers(t: Table, nodes: seq<Node>)
    ensures Mapped(t) == (set o | o in Lost(t, nodes) && o.Some? :: o.value) + Untouched(t, nodes)
  {
    hide Owned;
    forall id | id in Mapped(t)
      ensures id in (set o | o in Lost(t, nodes) && o.Some? :: o.value) + Untouched(t, nodes)
    {
      var x :| 0 <= x < |t| && t[x] == Some(id);
      if Owned(nodes, x) {
        assert t[x] in Lost(t, nodes);
      }
    }
    forall id | id in (set o | o in Lost(t, nodes) && o.Some? :: o.value) ensures id in Mapped(t) {
      var x :| 0 <= x < |t| && Owned(nodes, x) && t[x] == Some(id);
      assert t[x] in t;
    }
    forall id | id in Untouched(t, nodes) ensures id in Mapped(t) {
      var x :| 0 <= x < |t| && !Owned(nodes, x) && t[x].Some? && t[x].value == id;
      assert t[x] in t;
    }
  }

  /** The servers told to close are those that lost a slot and got none. */
  lemma ClosesLosers(t: Table, nodes: seq<Node>, to: Node -> ServerId)
    requires Apart(nodes)
    ensures Closing(Replaced(t, nodes, to)) == (set o | o in Lost(t, nodes) && o.Some? :: o.value) - Gained(nodes, to)
  {
    hide FillNodes, Apart, Lost, Gained;
    NodesRemove(Swap(t, {}, {}), t, nodes, to);
    assert {} + Lost(t, nodes) == Lost(t, nodes) && {} + Gained(nodes, to) == Gained(nodes, to);
  }

  /** A server that has an untouched slot, loses another and gets none */
  ghost predicate ClosedWhileMapped(t: Table, nodes: seq<Node>, to: Node -> ServerId) {
    exists id :: id in Untouched(t, nodes) && Some(id) in Lost(t, nodes) && id !in Gained(nodes, to)
  }

  /** The servers told to close are exactly those of the old table that are not in the new one, if and
      only if no server with an untouched slot loses another and gets none. */
  lemma ClosesExactlyIff(t: Table, nodes: seq<Node>, to: Node -> ServerId)
    requires |t| == SLOT_COUNT && InRange(nodes) && Apart(nodes)
    ensures var w := Replaced(t, nodes, to);
            Closing(w) == Mapped(t) - Mapped(w.table) <==> !ClosedWhileMapped(t, nodes, to)
  {
    hide Replaced, Lost, Gained, Untouched, Apart, InRange, Mapped, Closing;
    NewServers(t, nodes, to);
    OldServers(t, nodes);
    ClosesLosers(t, nodes, to);
    var lost, gained, kept := set o | o in Lost(t, nodes) && o.Some? :: o.value, Gained(nodes, to), Untouched(t, nodes);
    assert (lost + kept) - (gained + kept) == lost - gained - kept;
    if ClosedWhileMapped(t, nodes, to) {
      var id :| id in kept && Some(id) in Lost(t, nodes) && id !in gained;
      assert id in lost - gained && id !in lost - gained - kept;
    } else {
      assert lost - gained - kept == lost - gained;
    }
  }

  /** With full coverage every slot gets the server of its node, and the servers closed are exactly
      those of the old table that are not in the new one. */
  lemma FullReplacement(t: Table, nodes: seq<Node>, to: Node -> ServerId)
    requires |t| == SLOT_COUNT && InRange(nodes) && Apart(nodes) && Full(nodes)
    ensures var w := Replaced(t, nodes, to);
            && |w.table| == SLOT_COUNT
            && (forall x, i :: 0 <= x < SLOT_COUNT && 0 <= i < |nodes| && Covers(nodes[i], x) ==> w.table[x] == Some(to(nodes[i])))
            && Closing(w) == Mapped(t) - Mapped(w.table)
  {
    hide FillNodes, Covers, Apart, InRange, Owned, Closing;
    forall x | 0 <= x < SLOT_COUNT
      ensures |Replaced(t, nodes, to).table| == SLOT_COUNT
      ensures forall i :: 0 <= i < |nodes| && Covers(nodes[i], x) ==> Replaced(t, nodes, to).table[x] == Some(to(nodes[i]))
    {
      NodesFill(Swap(t, {}, {}), nodes, to, x);
    }
    NodesFill(Swap(t, {}, {}), nodes, to, 0);
    ClosesExactlyIff(t, nodes, to);
    assert Untouched(t, nodes) == {};
  }

  /** A table that is only partly covered: a server is closed although a slot still leads to it. */
  lemma PartialCoverCloses()
    ensures var t, nodes := seq(SLOT_COUNT, _ => Some(7)), [Node(1, [], [], [], [(0, 0)])];
            var w := Replaced(t, nodes, _ => 8);
            7 in Closing(w) && w.table[1] == Some(7)
  {
    var t, n := seq(SLOT_COUNT, _ => Some(7)), Node(1, [], [], [], [(0, 0)]);
    var w1 := FillRange(Swap(t, {}, {}), (0, 0), 8);
    assert n.ranges[1..] == [] && [n][1..] == [];
    assert FillRanges(Swap(t, {}, {}), n.ranges, 8) == FillRanges(w1, [], 8) == w1;
    assert t[0] in w1.removed;
    assert FillNodes(w1, [], _ => 8) == w1;
  }

  // ----- read-slave mode -----

  function Prefers(filter: Text, n: Node): bool {
    StartsIgnoringCase(n.host, filter)
  }

  predicate Replicates(n: Node, master: Text) {
    n.master != [] && n.master == master
  }

  /** The replica that stands for a master: the first whose host matches, else the last */
  ghost predicate StandsFor(nodes: seq<Node>, master: Text, filter: Text, i: nat) {
    && i < |nodes| && Replicates(nodes[i], master)
    && (if Prefers(filter, nodes[i]) then
          forall j :: 0 <= j < i ==> !(Replicates(nodes[j], master) && Prefers(filter, nodes[j]))
        else
          && (forall j :: 0 <= j < |nodes| ==> !(Replicates(nodes[j], master) && Prefers(filter, nodes[j])))
          && (forall j :: i < j < |nodes| ==> !Replicates(nodes[j], master)))
  }

  /** Every master that has a replica is given the one that stands for it. */
  ghost predicate Chosen(nodes: seq<Node>, filter: Text, used: map<Text, nat>) {
    && (forall m :: m in used ==> StandsFor(nodes, m, filter, used[m]))
    && (forall m, i :: 0 <= i < |nodes| && Replicates(nodes[i], m) ==> m in used)
  }

  lemma NobodyChosen(filter: Text)
    ensures Chosen([], filter, map[])
  {
  }

  lemma NextStands(nodes: seq<Node>, master: Text, filter: Text, i: nat, n: Node)
    requires StandsFor(nodes, master, filter, i)
    ensures StandsFor(nodes + [n], master, filter, if Replicates(n, master) && !Prefers(filter, nodes[i]) then |nodes| else i)
  {
    hide Prefers;
  }

  lemma FirstStands(nodes: seq<Node>, filter: Text, n: Node)
    requires n.master != [] && forall i :: 0 <= i < |nodes| ==> !Replicates(nodes[i], n.master)
    ensures StandsFor(nodes + [n], n.master, filter, |nodes|)
  {
    hide Prefers;
  }

  /** One more node: a replica takes over unless the one chosen before matches. */
  lemma NextNode(nodes: seq<Node>, filter: Text, used: map<Text, nat>, n: Node)
    requires Chosen(nodes, filter, used)
    ensures n.master in used ==> used[n.master] < |nodes|
    ensures Chosen(nodes + [n], filter,
                   if n.master != [] && (n.master in used ==> !Prefers(filter, nodes[used[n.master]])) then used[n.master := |nodes|] else used)
  {
    hide Prefers, StandsFor;
    forall m | m in used
      ensures used[m] < |nodes|
      ensures StandsFor(nodes + [n], m, filter, if Replicates(n, m) && !Prefers(filter, nodes[used[m]]) then |nodes| else used[m])
    {
      StandsIn(nodes, m, filter, used[m]);
      NextStands(nodes, m, filter, used[m], n);
    }
    if n.master != [] && n.master !in used {
      FirstStands(nodes, filter, n);
    }
  }

  lemma StandsIn(nodes: seq<Node>, m: Text, filter: Text, i: nat)
    requires StandsFor(nodes, m, filter, i)
    ensures i < |nodes|
  {
  }

  /** The loop of `select_slave_if_possible` over the nodes: for each master the replica to use */
  method ChooseReplicas(nodes: seq<Node>, filter: Text) returns (slaveOf: map<Text, nat>)
    ensures Chosen(nodes, filter, slaveOf)
  {
    hide StartsIgnoringCase, Chosen;
    NobodyChosen(filter);
    assert nodes[..0] == [];
    slaveOf := map[];
    for i := 0 to |nodes|
      invariant Chosen(nodes[..i], filter, slaveOf)
    {
      var n := nodes[i];
      NextNode(nodes[..i], filter, slaveOf, n);
      assert nodes[..i + 1] == nodes[..i] + [n];
      if n.master != [] {
        var taken := false;
        if n.master in slaveOf {
          taken := StartsWith(nodes[slaveOf[n.master]].host, filter);
        }
        if !taken {
          slaveOf := slaveOf[n.master := i];
        }
      }
    }
    assert nodes[..|nodes|] == nodes;
  }

  /** The server of a node: that of the replica used for it, if there is one, else its own */
  function Destination(nodes: seq<Node>, used: map<Text, nat>, serverAt: nat -> ServerId): Node -> ServerId {
    (n: Node) => serverAt(if n.id in used && used[n.id] < |nodes| then nodes[used[n.id]].addr else n.addr)
  }

  /** `replace_map` in read-slave mode */
  method ReplaceWithReplicas(m: SlotMap, nodes: seq<Node>, filter: Text, serverAt: nat -> ServerId)
    returns (closing: set<ServerId>, used: map<Text, nat>)
    requires m.servers.Length == SLOT_COUNT && InRange(nodes)
    modifies m.servers
    ensures Chosen(nodes, filter, used)
    ensures var w := Replaced(old(m.View()), nodes, Destination(nodes, used, serverAt));
            m.View() == w.table && closing == Closing(w)
  {
    hide Chosen, Closing;
    used := ChooseReplicas(nodes, filter);
    closing := m.ReplaceMap(nodes, Destination(nodes, used, serverAt));
  }

  /** In read-slave mode with full coverage, a slot leads to the replica that stands for its node, or
      to the node itself if it has no replica. */
  lemma ReplicaOfEverySlot(t: Table, nodes: seq<Node>, filter: Text, used: map<Text, nat>, serverAt: nat -> ServerId, x: nat, i: nat)
    requires |t| == SLOT_COUNT && InRange(nodes) && Apart(nodes) && Full(nodes)
    requires Chosen(nodes, filter, used)
    requires x < SLOT_COUNT && i < |nodes| && Covers(nodes[i], x)
    ensures var w := Replaced(t, nodes, Destination(nodes, used, serverAt));
            && |w.table| == SLOT_COUNT
            && (forall j: nat :: StandsFor(nodes, nodes[i].id, filter, j) ==> w.table[x] == Some(serverAt(nodes[j].addr)))
            && ((forall j :: 0 <= j < |nodes| ==> !Replicates(nodes[j], nodes[i].id)) ==> w.table[x] == Some(serverAt(nodes[i].addr)))
  {
    hide Replaced, Apart, Full, Covers, InRange, Closing, Prefers;
    FullReplacement(t, nodes, Destination(nodes, used, serverAt));
    forall j: nat | StandsFor(nodes, nodes[i].id, filter, j) ensures nodes[i].id in used && used[nodes[i].id] == j {
      OneStands(nodes, nodes[i].id, filter, used[nodes[i].id], j);
    }
  }

  lemma OneStands(nodes: seq<Node>, master: Text, filter: Text, i: nat, j: nat)
    requires StandsFor(nodes, master, filter, i) && StandsFor(nodes, master, filter, j)
    ensures i == j
  {
    hide Prefers;
  }

  /** The host begins with the filter, letters in either case. */
  predicate HostBegins(host: Text, filter: Text) {
    |filter| <= |host| && forall i :: 0 <= i < |filter| ==>
      host[i] == filter[i] || (65 <= host[i] <= 90 && filter[i] == host[i] + 32) || (65 <= filter[i] <= 90 && host[i] == filter[i] + 32)
  }

  lemma PrefersHost(filter: Text, n: Node)
    ensures Prefers(filter, n) <==> HostBegins(n.host, filter)
  {
    if Prefers(filter, n) {
      forall i | 0 <= i < |filter|
        ensures n.host[i] == filter[i] || (65 <= n.host[i] <= 90 && filter[i] == n.host[i] + 32) || (65 <= filter[i] <= 90 && n.host[i] == filter[i] + 32)
      {
        assert Upper(n.host[i]) == Upper(filter[i]);
      }
    }
  }

  /** The replica that a slot leads to, told by hosts: the first replica of its master whose host begins
      with the filter, or, when none does, the last one. */
  lemma ReplicaByHost(t: Table, nodes: seq<Node>, filter: Text, used: map<Text, nat>, serverAt: nat -> ServerId, x: nat, i: nat, j: nat)
    requires |t| == SLOT_COUNT && InRange(nodes) && Apart(nodes) && Full(nodes)
    requires Chosen(nodes, filter, used)
    requires x < SLOT_COUNT && i < |nodes| && Covers(nodes[i], x) && nodes[i].id != []
    requires j < |nodes| && nodes[j].master == nodes[i].id
    requires if HostBegins(nodes[j].host, filter) then
               forall k :: 0 <= k < j && nodes[k].master == nodes[i].id ==> !HostBegins(nodes[k].host, filter)
             else
               && (forall k :: 0 <= k < |nodes| && nodes[k].master == nodes[i].id ==> !HostBegins(nodes[k].host, filter))
               && (forall k :: j < k < |nodes| ==> nodes[k].master != nodes[i].id)
    ensures var w := Replaced(t, nodes, Destination(nodes, used, serverAt));
            |w.table| == SLOT_COUNT && w.table[x] == Some(serverAt(nodes[j].addr))
  {
    hide Replaced, Apart, Full, Covers, InRange, Prefers, HostBegins, Chosen, Destination;
    forall k | 0 <= k < |nodes| ensures Prefers(filter, nodes[k]) <==> HostBegins(nodes[k].host, filter) {
      PrefersHost(filter, nodes[k]);
    }
    assert StandsFor(nodes, nodes[i].id, filter, j);
    ReplicaOfEverySlot(t, nodes, filter, used, serverAt, x, i);
  }
}
