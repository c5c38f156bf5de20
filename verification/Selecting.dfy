/** Where commands go: to the queue of the open server their slot leads to, or to the retry list. */
module Selecting {
  import opened Options
  import opened ThreadState
  import opened ThreadInvariants
  import opened CommandSteps
  import opened ServerSteps
  import opened ClientSteps

  /** The table has an open server for the slot. */
  predicate Leads(s: State, x: Slot, id: ServerId) {
    x in s.table && s.table[x] == id && id < |s.servers| && s.servers[id].open
  }

  // ----- one command -----

  /** A command of one slot joins the queue of the open server its slot leads to, and that server becomes
      a peer of its client. */
  lemma SelectRoutes(s: State, r: Ref, x: Slot, id: ServerId)
    requires Alive(s.groups, r) && CmdAt(s.groups, r).plan == OneSlot(x) && Leads(s, x, id)
    ensures SelectServer(s, r) ==
              s.(servers := s.servers[id := s.servers[id].(queue := s.servers[id].queue + [r])],
                 peers := s.peers[r.client := (if r.client in s.peers then s.peers[r.client] else {}) + {id}])
  {
  }

  /** If its slot leads to no open server, it is retried. */
  lemma SelectRetries(s: State, r: Ref, x: Slot)
    requires Alive(s.groups, r) && CmdAt(s.groups, r).plan == OneSlot(x) && forall id: ServerId :: !Leads(s, x, id)
    ensures SelectServer(s, r) == s.(retry := s.retry + [r])
  {
    if x in s.table {
      assert !Leads(s, x, s.table[x]);
    }
  }

  /** A RENAME over two slots goes to the slot of the new key for its SET, and to that of the old key for
      its GET and its DEL. */
  lemma SelectRename(s: State, r: Ref, src: Slot, dst: Slot)
    requires Alive(s.groups, r) && CmdAt(s.groups, r).plan == Rename(src, dst)
    ensures var x := if CmdAt(s.groups, r).stage == 1 then dst else src;
            var t := SelectServer(s, r);
            && (forall id: ServerId :: Leads(s, x, id) ==> t.servers == s.servers[id := s.servers[id].(queue := s.servers[id].queue + [r])])
            && ((forall id: ServerId :: !Leads(s, x, id)) ==> t == s.(retry := s.retry + [r]))
  {
    var x := if CmdAt(s.groups, r).stage == 1 then dst else src;
    if x in s.table {
      assert Leads(s, x, s.table[x]) || !Leads(s, x, s.table[x]);
    }
  }

  // ----- several commands -----

  /** The slot a command goes by */
  predicate GoesBy(c: Cmd, x: Slot) {
    c.plan == OneSlot(x) || (c.plan.Rename? && x == if c.stage == 1 then c.plan.dst else c.plan.src)
  }

  /** The command is in the queue of the server its slot leads to, or in the retry list if it leads to none. */
  ghost predicate Placed(s: State, r: Ref, x: Slot) {
    && (forall id: ServerId :: Leads(s, x, id) ==> r in s.servers[id].queue)
    && ((forall id: ServerId :: !Leads(s, x, id)) ==> r in s.retry)
  }

  /** Commands have been added to queues and to the retry list, and no connection or table has changed. */
  ghost predicate Grown(s: State, t: State) {
    && t.table == s.table && |t.servers| == |s.servers| && s.retry <= t.retry
    && (forall id :: 0 <= id < |s.servers| ==>
          && t.servers[id].open == s.servers[id].open && t.servers[id].addr == s.servers[id].addr
          && s.servers[id].queue <= t.servers[id].queue && t.servers[id].sent == s.servers[id].sent)
  }

  lemma GrownTrans(s: State, t: State, u: State)
    requires Grown(s, t) && Grown(t, u)
    ensures Grown(s, u)
  {
  }

  lemma StillPlaced(s: State, t: State, r: Ref, x: Slot)
    requires Grown(s, t) && Placed(s, r, x)
    ensures Placed(t, r, x)
  {
    assert forall id: ServerId :: Leads(t, x, id) <==> Leads(s, x, id);
    if forall id: ServerId :: !Leads(t, x, id) {
      assert r in s.retry && s.retry <= t.retry;
    }
  }

  lemma SelectGrows(s: State, r: Ref)
    ensures Grown(s, SelectServer(s, r)) && SelectServer(s, r).groups == s.groups && SelectServer(s, r).clients == s.clients
  {
    hide CmdAt;
  }

  lemma SelectPlaces(s: State, r: Ref, x: Slot)
    requires Alive(s.groups, r) && GoesBy(CmdAt(s.groups, r), x)
    ensures Placed(SelectServer(s, r), r, x)
  {
    hide SelectServer, Placed;
    match CmdAt(s.groups, r).plan
    case OneSlot(_) =>
      if id: ServerId :| Leads(s, x, id) {
        SelectRoutes(s, r, x, id);
        QueuedPlaced(s, SelectServer(s, r), r, x, id);
      } else {
        SelectRetries(s, r, x);
        RetriedPlaced(s, SelectServer(s, r), r, x);
      }
    case Rename(src, dst) =>
      SelectRename(s, r, src, dst);
      SelectGrows(s, r);
      if id: ServerId :| Leads(s, x, id) {
        QueuedPlaced(s, SelectServer(s, r), r, x, id);
      } else {
        RetriedPlaced(s, SelectServer(s, r), r, x);
      }
  }

  lemma QueuedPlaced(s: State, t: State, r: Ref, x: Slot, id: ServerId)
    requires Leads(s, x, id) && t.table == s.table
    requires t.servers == s.servers[id := s.servers[id].(queue := s.servers[id].queue + [r])]
    ensures Placed(t, r, x)
  {
    assert Leads(t, x, id);
    assert t.servers[id].queue[|s.servers[id].queue|] == r;
  }

  lemma RetriedPlaced(s: State, t: State, r: Ref, x: Slot)
    requires (forall id: ServerId :: !Leads(s, x, id)) && t == s.(retry := s.retry + [r])
    ensures Placed(t, r, x)
  {
    assert forall id: ServerId :: Leads(t, x, id) <==> Leads(s, x, id);
    assert t.retry[|s.retry|] == r;
  }

  lemma {:induction false} SelectAllGrows(s: State, refs: seq<Ref>)
    ensures Grown(s, SelectAll(s, refs)) && SelectAll(s, refs).groups == s.groups && SelectAll(s, refs).clients == s.clients
    decreases |refs|
  {
    hide SelectServer, Grown;
    if refs == [] {
      assert Grown(s, s) by { GrownSame(s); }
    } else {
      SelectGrows(s, refs[0]);
      SelectAllGrows(SelectServer(s, refs[0]), refs[1..]);
      GrownTrans(s, SelectServer(s, refs[0]), SelectAll(s, refs));
    }
  }

  lemma GrownSame(s: State)
    ensures Grown(s, s)
  {
  }

  /** Every command of a group finds its place. */
  lemma {:induction false} SelectAllPlaces(s: State, refs: seq<Ref>, r: Ref, x: Slot)
    requires r in refs && Alive(s.groups, r) && GoesBy(CmdAt(s.groups, r), x)
    ensures Placed(SelectAll(s, refs), r, x)
    decreases |refs|
  {
    hide SelectServer, Grown, Placed, GoesBy;
    var s1 := SelectServer(s, refs[0]);
    SelectGrows(s, refs[0]);
    if refs[0] == r {
      SelectPlaces(s, r, x);
      SelectAllGrows(s1, refs[1..]);
      StillPlaced(s1, SelectAll(s1, refs[1..]), r, x);
    } else {
      SelectAllPlaces(s1, refs[1..], r, x);
    }
  }

  // ----- issuing groups -----

  /** The commands of the groups are the same; some groups have been issued. */
  ghost predicate SameCommands(gs: Groups, hs: Groups) {
    gs.Keys == hs.Keys &&
    forall g :: g in gs ==> hs[g].client == gs[g].client && hs[g].cmds == gs[g].cmds && hs[g].counter == gs[g].counter && (gs[g].issued ==> hs[g].issued)
  }

  lemma SameCommandsTrans(a: Groups, b: Groups, c: Groups)
    requires SameCommands(a, b) && SameCommands(b, c)
    ensures SameCommands(a, c)
  {
  }

  lemma {:induction false} RefsHave(c: ClientId, g: GroupId, i: nat, n: nat, k: nat)
    requires i <= k < n
    ensures Ref(c, g, k) in RefsFrom(c, g, i, n)
    decreases n - i
  {
    assert RefsFrom(c, g, i, n) == [Ref(c, g, i)] + RefsFrom(c, g, i + 1, n);
    if i < k {
      RefsHave(c, g, i + 1, n, k);
    }
  }

  lemma IssueFirstGrows(s: State, c: ClientId)
    requires c in s.clients && s.clients[c].parsed != [] && s.clients[c].parsed[0] in s.groups
    ensures var t := IssueFirst(s, c); Grown(s, t) && SameCommands(s.groups, t.groups)
    ensures var g := s.clients[c].parsed[0]; g in IssueFirst(s, c).groups && IssueFirst(s, c).groups[g].issued
  {
    hide SelectAll, Grown, IssueFirst;
    IssueFirstShape(s, c);
    var g := s.clients[c].parsed[0];
    var s1 := s.(clients := s.clients[c := MoveFirst(s.clients[c], s.groups[g].cmds != [])], groups := Issued(s.groups, g));
    SelectAllGrows(s1, RefsFrom(c, g, 0, |s.groups[g].cmds|));
    assert Grown(s, s1) by { GrownLists(s, s1); }
    GrownTrans(s, s1, IssueFirst(s, c));
  }

  lemma GrownLists(s: State, t: State)
    requires t == s.(clients := t.clients, groups := t.groups)
    ensures Grown(s, t)
  {
  }

  lemma IssueFirstPlaces(s: State, c: ClientId, k: nat, x: Slot)
    requires c in s.clients && s.clients[c].parsed != [] && s.clients[c].parsed[0] in s.groups
    requires var g := s.clients[c].parsed[0]; s.groups[g].client == c && k < |s.groups[g].cmds| && GoesBy(s.groups[g].cmds[k], x)
    ensures Placed(IssueFirst(s, c), Ref(c, s.clients[c].parsed[0], k), x)
  {
    hide SelectAll, Placed, IssueFirst, GoesBy;
    IssueFirstShape(s, c);
    var g := s.clients[c].parsed[0];
    var s1 := s.(clients := s.clients[c := MoveFirst(s.clients[c], s.groups[g].cmds != [])], groups := Issued(s.groups, g));
    var n := |s.groups[g].cmds|;
    RefsHave(c, g, 0, n, k);
    SelectAllPlaces(s1, RefsFrom(c, g, 0, n), Ref(c, g, k), x);
  }

  /** The groups of `q` are all there and belong to the client. */
  predicate OwnsAll(gs: Groups, c: ClientId, q: seq<GroupId>) {
    forall g :: g in q ==> g in gs && gs[g].client == c
  }

  lemma ParsedOwned(s: State, c: ClientId)
    requires Core(s, multiset{}) && c in s.clients
    ensures OwnsAll(s.groups, c, s.clients[c].parsed)
  {
    hide Conserved, Counted, Wired, Logged, Pooled, Tabled, Peered;
    OwnsOf(s.clients, s.groups, c, s.nextClient, s.nextGroup);
  }

  lemma {:induction false} IssueManyGrows(s: State, c: ClientId, n: nat)
    requires Core(s, multiset{}) && Mapped(s.servers, s.table) && c in s.clients && n <= |s.clients[c].parsed|
    ensures var t := IssueMany(s, c, n); Grown(s, t) && SameCommands(s.groups, t.groups)
    decreases n
  {
    hide Core, Mapped, IssueFirst, IssueMany, Grown, SameCommands;
    if n == 0 {
      IssueManyNone(s, c);
      GrownSame(s);
      assert SameCommands(s.groups, s.groups) by { CommandsSame(s.groups); }
    } else {
      ParsedOwned(s, c);
      assert s.clients[c].parsed[0] in s.clients[c].parsed;
      IssueFirstCore(s, c);
      IssueManyStep(s, c, n);
      IssueFirstGrows(s, c);
      var t := IssueFirst(s, c);
      IssueManyGrows(t, c, n - 1);
      GrownTrans(s, t, IssueMany(s, c, n));
      SameCommandsTrans(s.groups, t.groups, IssueMany(s, c, n).groups);
    }
  }

  lemma CommandsSame(gs: Groups)
    ensures SameCommands(gs, gs)
  {
  }

  /** Each command of the first `n` parsed groups finds its place, and the groups are issued. */
  lemma {:induction false} IssueManyPlaces(s: State, c: ClientId, n: nat, i: nat, k: nat, x: Slot)
    requires Core(s, multiset{}) && Mapped(s.servers, s.table) && c in s.clients && i < n <= |s.clients[c].parsed|
    requires var g := s.clients[c].parsed[i]; g in s.groups && k < |s.groups[g].cmds| && GoesBy(s.groups[g].cmds[k], x)
    ensures Placed(IssueMany(s, c, n), Ref(c, s.clients[c].parsed[i], k), x)
    decreases n
  {
    hide Core, Mapped, IssueFirst, IssueMany, Grown, Placed, GoesBy, SameCommands;
    ParsedOwned(s, c);
    var g := s.clients[c].parsed[i];
    assert g in s.clients[c].parsed && s.clients[c].parsed[0] in s.clients[c].parsed;
    IssueFirstCore(s, c);
    IssueManyStep(s, c, n);
    IssueFirstGrows(s, c);
    var t := IssueFirst(s, c);
    if i == 0 {
      IssueFirstPlaces(s, c, k, x);
      IssueManyGrows(t, c, n - 1);
      StillPlaced(t, IssueMany(t, c, n - 1), Ref(c, g, k), x);
    } else {
      CommandsOf(s.groups, t.groups, g);
      IssueManyPlaces(t, c, n - 1, i - 1, k, x);
    }
  }

  lemma CommandsOf(gs: Groups, hs: Groups, g: GroupId)
    requires SameCommands(gs, hs) && g in gs
    ensures g in hs && hs[g].cmds == gs[g].cmds && hs[g].client == gs[g].client && hs[g].counter == gs[g].counter && (gs[g].issued ==> hs[g].issued)
  {
  }

  lemma {:induction false} IssueManyIssues(s: State, c: ClientId, n: nat, i: nat)
    requires Core(s, multiset{}) && Mapped(s.servers, s.table) && c in s.clients && i < n <= |s.clients[c].parsed|
    ensures var g, t := s.clients[c].parsed[i], IssueMany(s, c, n); g in t.groups && t.groups[g].issued
    decreases n
  {
    hide Core, Mapped, IssueFirst, IssueMany, Grown, SameCommands;
    ParsedOwned(s, c);
    var g := s.clients[c].parsed[i];
    assert g in s.clients[c].parsed && s.clients[c].parsed[0] in s.clients[c].parsed;
    IssueFirstCore(s, c);
    IssueManyStep(s, c, n);
    IssueFirstGrows(s, c);
    var t := IssueFirst(s, c);
    if i == 0 {
      IssueManyGrows(t, c, n - 1);
      CommandsOf(t.groups, IssueMany(t, c, n - 1).groups, g);
    } else {
      IssueManyIssues(t, c, n - 1, i - 1);
    }
  }

  // ----- `_process` -----

  function Batch(q: seq<GroupId>): nat {
    if |q| < 64 then |q| else 64
  }

  /** `_process` issues the first 64 parsed groups, all of them if there are fewer, and leaves the others
      parsed; whatever it issues is awaited or, answered at once, ready. */
  lemma ProcessIssues(s: State, c: ClientId)
    requires Core(s, multiset{}) && Mapped(s.servers, s.table) && c in s.clients
    ensures var t, q := Process(s, c), s.clients[c].parsed;
            && Grown(s, t) && SameCommands(s.groups, t.groups) && OnlyClient(s, t, c)
            && t.clients[c].parsed == q[Batch(q)..] && t.clients[c].arrived == s.clients[c].arrived
            && t.clients[c].ready + t.clients[c].awaiting == s.clients[c].ready + s.clients[c].awaiting + q[..Batch(q)]
            && t.clients[c].written == s.clients[c].written
            && (s.clients[c].interest == Some(true) ==> t.clients[c].interest == Some(true))
            && (forall i :: 0 <= i < Batch(q) ==> q[i] in t.groups && t.groups[q[i]].issued)
  {
    hide Core, Mapped, IssueMany, Grown, SameCommands, Process, Processed;
    var cl := s.clients[c];
    var n := Batch(cl.parsed);
    IssueManyCore(s, c, n);
    IssueManyGrows(s, c, n);
    IssuedAll(s, c, n);
    var s1, t := IssueMany(s, c, n), Process(s, c);
    ProcessShape(s, c);
    SameButClient(s, s1, t, c);
    ProcessedKeeps(cl, s1.clients[c], n);
    GrownLists(s1, t);
    GrownTrans(s, s1, t);
  }

  /** The client once its first groups have been issued */
  function Processed(cl: Client): Client {
    if 0 < cl.awaitingCount then cl else PushAwaitingsToReady(cl)
  }

  lemma ProcessShape(s: State, c: ClientId)
    requires c in s.clients && c in IssueMany(s, c, Batch(s.clients[c].parsed)).clients
    ensures var s1 := IssueMany(s, c, Batch(s.clients[c].parsed)); Process(s, c) == s1.(clients := s1.clients[c := Processed(s1.clients[c])])
  {
    hide IssueMany, PushAwaitingsToReady;
    var s1 := IssueMany(s, c, Batch(s.clients[c].parsed));
    assert s1.clients[c := s1.clients[c]] == s1.clients;
  }

  lemma SameButClient(s: State, s1: State, t: State, c: ClientId)
    requires OnlyClient(s, s1, c) && t == s1.(clients := s1.clients[c := Processed(s1.clients[c])])
    ensures OnlyClient(s, t, c)
  {
  }

  lemma ProcessedKeeps(cl: Client, k: Client, n: nat)
    requires n <= |cl.parsed| && k == cl.(parsed := cl.parsed[n..], awaiting := cl.awaiting + cl.parsed[..n], awaitingCount := k.awaitingCount)
    ensures var p := Processed(k);
            && p.parsed == cl.parsed[n..] && p.arrived == cl.arrived && p.written == cl.written
            && p.ready + p.awaiting == cl.ready + cl.awaiting + cl.parsed[..n]
            && (cl.interest == Some(true) ==> p.interest == Some(true))
  {
    assert cl.ready + (cl.awaiting + cl.parsed[..n]) == cl.ready + cl.awaiting + cl.parsed[..n];
    assert k.ready + k.awaiting + [] == k.ready + k.awaiting;
  }

  lemma IssuedAll(s: State, c: ClientId, n: nat)
    requires Core(s, multiset{}) && Mapped(s.servers, s.table) && c in s.clients && n <= |s.clients[c].parsed|
    ensures var q, t := s.clients[c].parsed, IssueMany(s, c, n); forall i :: 0 <= i < n ==> q[i] in t.groups && t.groups[q[i]].issued
  {
    hide Core, Mapped, IssueMany;
    var q, t := s.clients[c].parsed, IssueMany(s, c, n);
    forall i: nat | i < n ensures q[i] in t.groups && t.groups[q[i]].issued {
      IssueManyIssues(s, c, n, i);
    }
  }

  /** And each command of a group it issues finds its place. */
  lemma ProcessPlaces(s: State, c: ClientId, i: nat, k: nat, x: Slot)
    requires Core(s, multiset{}) && Mapped(s.servers, s.table) && c in s.clients && i < Batch(s.clients[c].parsed)
    requires var g := s.clients[c].parsed[i]; g in s.groups && k < |s.groups[g].cmds| && GoesBy(s.groups[g].cmds[k], x)
    ensures Placed(Process(s, c), Ref(c, s.clients[c].parsed[i], k), x)
  {
    hide Core, Mapped, IssueMany, Grown, Placed, GoesBy, Process, Processed;
    var n := Batch(s.clients[c].parsed);
    IssueManyCore(s, c, n);
    IssueManyPlaces(s, c, n, i, k, x);
    ProcessShape(s, c);
    var s1, t := IssueMany(s, c, n), Process(s, c);
    GrownLists(s1, t);
    StillPlaced(s1, t, Ref(c, s.clients[c].parsed[i], k), x);
  }
}
