/** The steps of a client connection: reading requests, issuing groups, writing responses, leaving. */
module ClientSteps {
  import opened Options
  import opened ThreadState
  import opened ThreadInvariants
  import opened CommandSteps
  import opened ServerSteps

  // ----- issuing a group -----

  lemma {:induction false} RefsFromCount(c: ClientId, g: GroupId, i: nat, n: nat, r: Ref)
    requires i <= n
    ensures multiset(RefsFrom(c, g, i, n))[r] == if r.client == c && r.group == g && i <= r.index < n then 1 else 0
    decreases n - i
  {
    if i < n {
      var rest := RefsFrom(c, g, i + 1, n);
      RefsFromCount(c, g, i + 1, n, r);
      assert RefsFrom(c, g, i, n) == [Ref(c, g, i)] + rest;
      assert multiset([Ref(c, g, i)] + rest) == multiset{Ref(c, g, i)} + multiset(rest);
      assert multiset(RefsFrom(c, g, i, n))[r] == multiset{Ref(c, g, i)}[r] + multiset(rest)[r];
    } else {
      assert RefsFrom(c, g, i, n) == [];
    }
  }

  function Issued(gs: Groups, g: GroupId): Groups
    requires g in gs
  {
    gs[g := gs[g].(issued := true)]
  }

  lemma IssuedOutstanding(gs: Groups, g: GroupId, r: Ref)
    requires Counted(gs) && g in gs && !gs[g].issued
    ensures Outstanding(Issued(gs, g), r) <==>
              Outstanding(gs, r) || (r.client == gs[g].client && r.group == g && r.index < |gs[g].cmds|)
    ensures r.group == g ==> !Outstanding(gs, r)
  {
    UnansweredBound(gs[g].cmds);
  }

  lemma IssuedConserved(held: multiset<Ref>, gs: Groups, g: GroupId)
    requires Conserved(held, multiset{}, gs) && Counted(gs) && g in gs && !gs[g].issued
    ensures Conserved(held, multiset(RefsFrom(gs[g].client, g, 0, |gs[g].cmds|)), Issued(gs, g))
    ensures Counted(Issued(gs, g))
  {
    IssuedCounted(gs, g);
    hide Outstanding, Counted, Issued;
    var n := |gs[g].cmds|;
    forall r
      ensures held[r] + multiset(RefsFrom(gs[g].client, g, 0, n))[r] == if Outstanding(Issued(gs, g), r) then 1 else 0
    {
      RefsFromCount(gs[g].client, g, 0, n, r);
      IssuedOutstanding(gs, g, r);
      assert held[r] + multiset{}[r] == if Outstanding(gs, r) then 1 else 0;
    }
  }

  lemma IssuedCounted(gs: Groups, g: GroupId)
    requires Counted(gs) && g in gs
    ensures Counted(Issued(gs, g))
  {
  }

  function MoveFirst(cl: Client, remote: bool): Client
    requires cl.parsed != []
  {
    cl.(parsed := cl.parsed[1..], awaiting := cl.awaiting + [cl.parsed[0]],
        awaitingCount := cl.awaitingCount + if remote then 1 else 0)
  }

  lemma MoveFirstOrder(cl: Client, remote: bool)
    requires cl.parsed != [] && cl.arrived == cl.written + cl.ready + cl.awaiting + cl.parsed && NoDup(cl.arrived)
    ensures var k := MoveFirst(cl, remote);
            && k.arrived == k.written + k.ready + k.awaiting + k.parsed
            && cl.parsed[0] in cl.parsed && cl.parsed[0] !in cl.awaiting && cl.parsed[0] !in cl.ready
            && (forall x :: x in k.parsed ==> x in cl.parsed && x != cl.parsed[0])
            && (forall x :: x in k.awaiting ==> x in cl.awaiting || x == cl.parsed[0])
  {
    var k := MoveFirst(cl, remote);
    assert cl.parsed == [cl.parsed[0]] + cl.parsed[1..];
    NoDupParts(cl);
  }

  lemma MoveFirstWaiting(gs: Groups, q: seq<GroupId>, g: GroupId)
    requires g in gs && g !in q
    ensures Waiting(Issued(gs, g), q + [g]) == Waiting(gs, q) + if gs[g].counter != 0 then 1 else 0
  {
    var hs := Issued(gs, g);
    WaitingConcat(hs, q, [g]);
    WaitingFrame(gs, hs, q);
    assert [g][1..] == [];
    assert Waiting(hs, [g]) == (if g in hs && hs[g].counter != 0 then 1 else 0) + Waiting(hs, []);
  }

  lemma MoveFirstOwns(gs: Groups, c: ClientId, cl: Client, n: GroupId)
    requires ClientOwns(gs, c, cl, n) && cl.parsed != [] && Counted(gs)
    ensures cl.parsed[0] in gs && gs[cl.parsed[0]].client == c && !gs[cl.parsed[0]].issued
    ensures ClientOwns(Issued(gs, cl.parsed[0]), c, MoveFirst(cl, gs[cl.parsed[0]].cmds != []), n)
  {
    var g := cl.parsed[0];
    assert g in cl.parsed;
    MoveFirstOrder(cl, gs[g].cmds != []);
    MoveFirstWaiting(gs, cl.awaiting, g);
    hide Waiting, NoDup;
  }

  /** The first parsed group joins the awaiting ones; its commands are all in hand. */
  lemma IssuingCore(s: State, c: ClientId)
    requires Core(s, multiset{}) && c in s.clients && s.clients[c].parsed != []
    ensures var g := s.clients[c].parsed[0];
            && g in s.groups
            && var s1 := s.(clients := s.clients[c := MoveFirst(s.clients[c], s.groups[g].cmds != [])], groups := Issued(s.groups, g));
               Core(s1, multiset(RefsFrom(c, g, 0, |s.groups[g].cmds|)))
  {
    hide Conserved, Wired, Logged, Peered, Pooled, Tabled, Counted, Owned, ClientOwns, HeldIn, Issued, MoveFirst;
    var cl := s.clients[c];
    OwnsOf(s.clients, s.groups, c, s.nextClient, s.nextGroup);
    MoveFirstOwns(s.groups, c, cl, s.nextGroup);
    var g := cl.parsed[0];
    IssuedConserved(Held(s), s.groups, g);
    IssuedOwned(s.clients, s.groups, c, s.nextClient, s.nextGroup);
    IssuedWired(s.servers, s.groups, g);
  }

  lemma IssuedWired(servers: seq<Server>, gs: Groups, g: GroupId)
    requires Wired(servers, gs) && g in gs
    ensures Wired(servers, Issued(gs, g))
  {
    WiredFrame(servers, gs, Issued(gs, g));
  }

  lemma IssuedOwned(clients: map<ClientId, Client>, gs: Groups, c: ClientId, nc: ClientId, n: GroupId)
    requires Owned(clients, gs, nc, n) && Counted(gs) && c in clients && clients[c].parsed != []
    requires clients[c].parsed[0] in gs && gs[clients[c].parsed[0]].client == c
    ensures var g := clients[c].parsed[0];
            Owned(clients[c := MoveFirst(clients[c], gs[g].cmds != [])], Issued(gs, g), nc, n)
  {
    hide Owned, ClientOwns, Counted;
    var cl := clients[c];
    var g := cl.parsed[0];
    OwnsOf(clients, gs, c, nc, n);
    MoveFirstOwns(gs, c, cl, n);
    var k := MoveFirst(cl, gs[g].cmds != []);
    assert forall x :: (x in k.ready || x in k.awaiting || x in k.parsed) == (x in cl.ready || x in cl.awaiting || x in cl.parsed) by {
      assert cl.parsed == [g] + cl.parsed[1..];
    }
    OwnedUpdate(clients, gs, g, gs[g].(issued := true), k, nc, n);
  }

  lemma {:induction false} SelectAllMapped(s: State, refs: seq<Ref>)
    requires Mapped(s.servers, s.table)
    ensures Mapped(SelectAll(s, refs).servers, s.table)
    decreases |refs|
  {
    if refs != [] {
      SelectServerSteady(s, refs[0]);
      hide Mapped;
      SelectAllMapped(SelectServer(s, refs[0]), refs[1..]);
    }
  }

  /** What `IssueFirst` and `_process` may change: the queues, the groups, and the lists of client `c`. */
  predicate OnlyClient(s: State, t: State, c: ClientId) {
    && c in s.clients && c in t.clients && t.clients == s.clients[c := t.clients[c]]
    && t.nextClient == s.nextClient && t.nextGroup == s.nextGroup
    && t.closing == s.closing && t.active == s.active && t.table == s.table && t.updaters == s.updaters
    && t.readonly == s.readonly && t.fullCoverage == s.fullCoverage
    && |t.servers| == |s.servers|
    && t.clients[c].closed == s.clients[c].closed
  }

  lemma IssueFirstShape(s: State, c: ClientId)
    requires c in s.clients && s.clients[c].parsed != [] && s.clients[c].parsed[0] in s.groups
    ensures var g := s.clients[c].parsed[0];
            IssueFirst(s, c) ==
              SelectAll(s.(clients := s.clients[c := MoveFirst(s.clients[c], s.groups[g].cmds != [])], groups := Issued(s.groups, g)),
                        RefsFrom(c, g, 0, |s.groups[g].cmds|))
  {
  }

  lemma IssueFirstCore(s: State, c: ClientId)
    requires Core(s, multiset{}) && Mapped(s.servers, s.table) && c in s.clients && s.clients[c].parsed != []
    ensures var t, cl := IssueFirst(s, c), s.clients[c];
            && Core(t, multiset{}) && Mapped(t.servers, t.table) && OnlyClient(s, t, c)
            && t.clients[c] == cl.(parsed := cl.parsed[1..], awaiting := cl.awaiting + [cl.parsed[0]], awaitingCount := t.clients[c].awaitingCount)
  {
    hide Core, Mapped;
    IssuingCore(s, c);
    IssueFirstShape(s, c);
    var g := s.clients[c].parsed[0];
    var s1 := s.(clients := s.clients[c := MoveFirst(s.clients[c], s.groups[g].cmds != [])], groups := Issued(s.groups, g));
    var refs := RefsFrom(c, g, 0, |s.groups[g].cmds|);
    hide IssueFirst;
    SelectAllCore(s1, refs, multiset(refs));
    assert multiset(refs) - multiset(refs) == multiset{};
    SelectAllMapped(s1, refs);
  }

  /** Issuing `n` groups moves exactly the first `n` parsed ones, in order. */
  lemma IssueManyStep(s: State, c: ClientId, n: nat)
    requires n > 0 && c in s.clients && s.clients[c].parsed != []
    ensures IssueMany(s, c, n) == IssueMany(IssueFirst(s, c), c, n - 1)
  {
    hide IssueFirst;
  }

  lemma IssueManyNone(s: State, c: ClientId)
    ensures IssueMany(s, c, 0) == s
  {
  }

  lemma {:induction false} IssueManyCore(s: State, c: ClientId, n: nat)
    requires Core(s, multiset{}) && Mapped(s.servers, s.table) && c in s.clients && n <= |s.clients[c].parsed|
    ensures var t, cl := IssueMany(s, c, n), s.clients[c];
            && Core(t, multiset{}) && Mapped(t.servers, t.table) && OnlyClient(s, t, c)
            && t.clients[c] == cl.(parsed := cl.parsed[n..], awaiting := cl.awaiting + cl.parsed[..n], awaitingCount := t.clients[c].awaitingCount)
    decreases n
  {
    hide Core, Mapped, IssueFirst, IssueMany;
    var cl := s.clients[c];
    if n == 0 {
      IssueManyNone(s, c);
      assert cl.parsed[0..] == cl.parsed && cl.awaiting + cl.parsed[..0] == cl.awaiting;
      assert s.clients == s.clients[c := cl];
    } else {
      IssueFirstCore(s, c);
      IssueManyStep(s, c, n);
      var t := IssueFirst(s, c);
      IssueManyCore(t, c, n - 1);
      assert t.clients[c].parsed[n - 1..] == cl.parsed[n..];
      assert t.clients[c].awaiting + t.clients[c].parsed[..n - 1] == cl.awaiting + cl.parsed[..n];
    }
  }

  // ----- `_process` -----

  lemma CountNotNegative(s: State, c: ClientId)
    requires Core(s, multiset{}) && c in s.clients
    ensures s.clients[c].awaitingCount >= 0
  {
    hide Conserved, Wired, Logged, Peered, Pooled, Tabled, Counted;
    assert ClientOwns(s.groups, c, s.clients[c], s.nextGroup);
  }

  lemma PushCore(s: State, c: ClientId)
    requires Core(s, multiset{}) && c in s.clients
    ensures Core(WithCli(s, c, PushAwaitingsToReady(s.clients[c])), multiset{})
  {
    hide Conserved, Wired, Logged, Peered, Pooled, Tabled, Counted, Owned, HeldIn, PushAwaitingsToReady;
    PushOwned(s.clients, s.groups, c, s.nextClient, s.nextGroup);
  }

  lemma PushOwned(clients: map<ClientId, Client>, gs: Groups, c: ClientId, nc: ClientId, n: GroupId)
    requires Owned(clients, gs, nc, n) && c in clients
    ensures Owned(clients[c := PushAwaitingsToReady(clients[c])], gs, nc, n)
  {
    hide ClientOwns;
    PushAwaitingsOwns(gs, c, clients[c], n);
    var t := clients[c := PushAwaitingsToReady(clients[c])];
    forall g | g in gs ensures Listed(t, gs[g].client, g) {
      assert Listed(clients, gs[g].client, g);
    }
  }

  /** The client may be processed: what it awaits leaves room for one more batch. */
  predicate HasRoom(cl: Client) {
    && (cl.pending <==> cl.ready != [])
    && |cl.ready| <= MAX_RESPONSES
    && |cl.awaiting| <= MAX_PIPE
    && (cl.pending ==> cl.awaiting == [])
    && Heard(cl)
  }

  /** All groups awaited are answered, no request is parsed, and the ready list is too full to take them. */
  predicate Crowded(cl: Client) {
    && cl.pending && cl.parsed == [] && cl.awaiting != [] && cl.awaitingCount == 0
    && |cl.awaiting| + |cl.ready| > MAX_RESPONSES
  }

  lemma ProcessBounded(cl: Client, n: nat, count: int)
    requires HasRoom(cl) && n == (if |cl.parsed| < MAX_PIPE then |cl.parsed| else MAX_PIPE) && count >= 0
    ensures var k := cl.(parsed := cl.parsed[n..], awaiting := cl.awaiting + cl.parsed[..n], awaitingCount := count);
            Bounded(if 0 < count then k else PushAwaitingsToReady(k))
    ensures var k := cl.(parsed := cl.parsed[n..], awaiting := cl.awaiting + cl.parsed[..n], awaitingCount := count);
            var k' := if 0 < count then k else PushAwaitingsToReady(k);
            !Stalled(k') && (cl.ready == [] ==> !Crowded(k'))
  {
  }

  lemma ProcessCore(s: State, c: ClientId)
    requires Core(s, multiset{}) && Mapped(s.servers, s.table) && c in s.clients && HasRoom(s.clients[c])
    ensures var t := Process(s, c);
            && Core(t, multiset{}) && Mapped(t.servers, t.table) && OnlyClient(s, t, c)
            && Bounded(t.clients[c]) && !Stalled(t.clients[c]) && (s.clients[c].ready == [] ==> !Crowded(t.clients[c]))
  {
    hide Core, Mapped;
    var cl := s.clients[c];
    var n := if |cl.parsed| < MAX_PIPE then |cl.parsed| else MAX_PIPE;
    IssueManyCore(s, c, n);
    var s1 := IssueMany(s, c, n);
    CountNotNegative(s1, c);
    hide Bounded, Stalled, Crowded;
    ProcessBounded(cl, n, s1.clients[c].awaitingCount);
    if 0 >= s1.clients[c].awaitingCount {
      PushCore(s1, c);
      hide PushAwaitingsToReady;
      assert OnlyClient(s, WithCli(s1, c, PushAwaitingsToReady(s1.clients[c])), c) by {
        PushKeepsClosed(s1.clients[c]);
      }
    }
  }

  lemma PushKeepsClosed(cl: Client)
    ensures PushAwaitingsToReady(cl).closed == cl.closed
  {
  }

  // ----- writing -----

  lemma DropReadyConserved(held: multiset<Ref>, gs: Groups, dropped: set<GroupId>)
    requires Conserved(held, multiset{}, gs) && Counted(gs)
    requires forall g :: g in dropped ==> g in gs && gs[g].counter == 0
    ensures Conserved(held, multiset{}, gs - dropped) && Counted(gs - dropped)
  {
    forall r ensures held[r] + multiset{}[r] == if Outstanding(gs - dropped, r) then 1 else 0 {
      assert held[r] + multiset{}[r] == if Outstanding(gs, r) then 1 else 0;
      if r.group in dropped {
        UnansweredBound(gs[r.group].cmds);
        assert !Outstanding(gs, r);
      }
    }
  }

  function Written(cl: Client): Client {
    cl.(written := cl.written + cl.ready, ready := [], pending := false)
  }

  lemma WrittenOwns(gs: Groups, dropped: set<GroupId>, c: ClientId, cl: Client, n: GroupId)
    requires ClientOwns(gs, c, cl, n) && dropped == set g | g in cl.ready
    ensures ClientOwns(gs - dropped, c, Written(cl), n)
    ensures forall g :: g in dropped ==> Owns(gs, c, g, true)
  {
    NoDupParts(cl);
    assert cl.written + cl.ready + cl.awaiting + cl.parsed == cl.written + cl.ready + [] + cl.awaiting + cl.parsed;
    WaitingFrame(gs, gs - dropped, cl.awaiting);
  }

  lemma OtherDropOwns(gs: Groups, dropped: set<GroupId>, c: ClientId, k: ClientId, cl: Client, n: GroupId)
    requires ClientOwns(gs, k, cl, n) && c != k && forall g :: g in dropped ==> Owns(gs, c, g, true)
    ensures ClientOwns(gs - dropped, k, cl, n)
  {
    assert forall g :: g in dropped ==> g !in cl.ready && g !in cl.awaiting && g !in cl.parsed;
    WaitingFrame(gs, gs - dropped, cl.awaiting);
  }

  lemma DropReadyOwned(clients: map<ClientId, Client>, gs: Groups, c: ClientId, nc: ClientId, n: GroupId)
    requires Owned(clients, gs, nc, n) && c in clients
    ensures Owned(clients[c := Written(clients[c])], gs - (set g | g in clients[c].ready), nc, n)
  {
    hide ClientOwns;
    var cl := clients[c];
    var dropped := set g | g in cl.ready;
    var hs := gs - dropped;
    WrittenOwns(gs, dropped, c, cl, n);
    forall k | k in clients && k != c ensures ClientOwns(hs, k, clients[k], n) {
      OtherDropOwns(gs, dropped, c, k, clients[k], n);
    }
    forall g | g in hs ensures Listed(clients[c := Written(cl)], hs[g].client, g) {
      assert Listed(clients, gs[g].client, g);
    }
  }

  /** No server holds a command of a client that awaits nothing. */
  lemma NothingHeld(s: State, c: ClientId)
    requires Core(s, multiset{}) && c in s.clients && s.clients[c].awaiting == []
    ensures forall id, r :: 0 <= id < |s.servers| && r in HeldBy(s.servers[id]) ==> r.client != c
  {
    hide Wired, Logged, Peered, Pooled, Tabled;
    forall id, r | 0 <= id < |s.servers| && r in HeldBy(s.servers[id])
      ensures r.client != c
    {
      HeldInContains(s.servers, id);
      assert Held(s)[r] + multiset{}[r] == if Outstanding(s.groups, r) then 1 else 0;
      AwaitingOf(s.clients, s.groups, r, s.nextClient, s.nextGroup);
    }
  }

  lemma PeeredClear(servers: seq<Server>, peers: map<ClientId, set<ServerId>>, c: ClientId)
    requires Peered(servers, peers)
    requires forall id, r :: 0 <= id < |servers| && r in HeldBy(servers[id]) ==> r.client != c
    ensures Peered(servers, peers[c := {}])
  {
  }

  lemma DropReadyShape(s: State, c: ClientId)
    requires c in s.clients
    ensures var cl := s.clients[c];
            DropReady(s, c) ==
              s.(groups := s.groups - (set g | g in cl.ready),
                 peers := if cl.awaiting == [] then s.peers[c := {}] else s.peers,
                 clients := s.clients[c := cl.(written := cl.written + cl.ready, ready := [], pending := false)])
  {
  }

  lemma DropReadyCore(s: State, c: ClientId)
    requires Core(s, multiset{}) && c in s.clients
    ensures Core(DropReady(s, c), multiset{})
  {
    hide Conserved, Wired, Logged, Peered, Pooled, Tabled, Counted, Owned, HeldIn, ClientOwns, DropReady;
    DropReadyShape(s, c);
    var cl := s.clients[c];
    OwnsOf(s.clients, s.groups, c, s.nextClient, s.nextGroup);
    ReadyAnswered(s.groups, c, cl, s.nextGroup);
    var dropped := set g | g in cl.ready;
    DropReadyConserved(Held(s), s.groups, dropped);
    DropReadyOwned(s.clients, s.groups, c, s.nextClient, s.nextGroup);
    DropWired(s.servers, s.groups, dropped);
    if cl.awaiting == [] {
      NothingHeld(s, c);
      PeeredClear(s.servers, s.peers, c);
    }
  }

  lemma ReadyAnswered(gs: Groups, c: ClientId, cl: Client, n: GroupId)
    requires ClientOwns(gs, c, cl, n)
    ensures forall g :: g in cl.ready ==> g in gs && gs[g].counter == 0
  {
  }

  lemma DropWired(servers: seq<Server>, gs: Groups, dropped: set<GroupId>)
    requires Wired(servers, gs)
    ensures Wired(servers, gs - dropped)
  {
    WiredFrame(servers, gs, gs - dropped);
  }

  lemma SendBufferSetCore(s: State, c: ClientId, done: bool)
    requires Core(s, multiset{}) && Mapped(s.servers, s.table) && c in s.clients && Bounded(s.clients[c]) && s.clients[c].pending
    ensures var t, cl := SendBufferSet(s, c, done), s.clients[c];
            && Core(t, multiset{}) && Mapped(t.servers, t.table) && OnlyClient(s, t, c) && Bounded(t.clients[c])
            && (!done ==> t == s)
            && (done ==> (Stalled(t.clients[c]) <==> cl.parsed == [] && cl.awaiting != [] && cl.awaitingCount == 0))
            && (done ==> !Crowded(t.clients[c]))
  {
    hide Core, Mapped;
    if done {
      DropReadyCore(s, c);
      DropReadyShape(s, c);
      var s1 := DropReady(s, c);
      if s1.clients[c].parsed != [] {
        assert HasRoom(s1.clients[c]);
        ProcessCore(s1, c);
      }
    } else {
      assert s.clients == s.clients[c := s.clients[c]];
    }
  }

  lemma OnlyClientTrans(s: State, t: State, u: State, c: ClientId)
    requires OnlyClient(s, t, c) && OnlyClient(t, u, c)
    ensures OnlyClient(s, u, c)
  {
  }

  lemma WriteAgain(s: State, c: ClientId, done: bool)
    requires Core(s, multiset{}) && Mapped(s.servers, s.table) && c in s.clients && Bounded(s.clients[c])
    requires s.clients[c].awaiting != [] && s.clients[c].awaitingCount == 0
    ensures var t := SendBufferSet(WithCli(s, c, PushAwaitingsToReady(s.clients[c])), c, done);
            && Core(t, multiset{}) && Mapped(t.servers, t.table) && OnlyClient(s, t, c) && Bounded(t.clients[c])
            && (Stalled(t.clients[c]) <==> done && Crowded(s.clients[c]))
  {
    hide Core, Mapped;
    PushCore(s, c);
    var k := PushAwaitingsToReady(s.clients[c]);
    var s1 := WithCli(s, c, k);
    assert OnlyClient(s, s1, c);
    SendBufferSetCore(s1, c, done);
    OnlyClientTrans(s, s1, SendBufferSet(s1, c, done), c);
  }

  /** Writing keeps every bound.  It stalls a client that was not stalled exactly when the first
      `writev` stops short, the second one finishes, and the groups awaited could not join the
      ready ones in between. */
  lemma WriteResponseCore(s: State, c: ClientId, done1: bool, done2: bool)
    requires Core(s, multiset{}) && Mapped(s.servers, s.table) && c in s.clients && Bounded(s.clients[c])
    ensures var t, cl := WriteResponse(s, c, done1, done2), s.clients[c];
            && Core(t, multiset{}) && Mapped(t.servers, t.table) && OnlyClient(s, t, c) && Bounded(t.clients[c])
            && (Stalled(t.clients[c]) <==> !done1 && done2 && Crowded(cl))
  {
    hide Core, Mapped;
    var cl := s.clients[c];
    var s1 := if cl.pending then SendBufferSet(s, c, done1) else s;
    if cl.pending {
      SendBufferSetCore(s, c, done1);
    } else {
      assert s.clients == s.clients[c := s.clients[c]];
    }
    assert OnlyClient(s, s1, c) && Bounded(s1.clients[c]);
    if s1.clients[c].awaiting != [] && s1.clients[c].awaitingCount == 0 {
      WriteAgain(s1, c, done2);
      OnlyClientTrans(s, s1, WriteResponse(s, c, done1, done2), c);
    }
  }

  // ----- reading -----

  lemma FreshGroup(gs: Groups, g: GroupId, c: ClientId, plans: seq<Plan>, held: multiset<Ref>)
    requires g !in gs && Conserved(held, multiset{}, gs) && Counted(gs)
    ensures var hs := gs[g := Group(c, Fresh(plans), |plans|, false)];
            Conserved(held, multiset{}, hs) && Counted(hs)
  {
    var hs := gs[g := Group(c, Fresh(plans), |plans|, false)];
    UnansweredBound(Fresh(plans));
    forall r ensures held[r] + multiset{}[r] == if Outstanding(hs, r) then 1 else 0 {
      assert held[r] + multiset{}[r] == if Outstanding(gs, r) then 1 else 0;
    }
  }

  lemma ArriveOwns(gs: Groups, grp: Group, c: ClientId, cl: Client, n: GroupId)
    requires ClientOwns(gs, c, cl, n) && n !in gs && grp.client == c && !grp.issued
    ensures ClientOwns(gs[n := grp], c, cl.(parsed := cl.parsed + [n], arrived := cl.arrived + [n]), n + 1)
  {
    var hs := gs[n := grp];
    var k := cl.(parsed := cl.parsed + [n], arrived := cl.arrived + [n]);
    assert k.arrived == k.written + k.ready + k.awaiting + k.parsed;
    WaitingFrame(gs, hs, cl.awaiting);
    assert NoDup(k.arrived) by {
      assert n !in cl.arrived;
      assert forall i :: 0 <= i < |cl.arrived| ==> k.arrived[i] == cl.arrived[i];
    }
    assert forall x :: x in k.parsed ==> x in cl.parsed || x == n;
    assert forall x :: x in k.arrived ==> x in cl.arrived || x == n;
    assert forall x :: x in cl.parsed ==> Owns(gs, c, x, false);
  }

  lemma OtherArriveOwns(gs: Groups, grp: Group, c: ClientId, cl: Client, n: GroupId)
    requires ClientOwns(gs, c, cl, n) && n !in gs
    ensures ClientOwns(gs[n := grp], c, cl, n + 1)
  {
    WaitingFrame(gs, gs[n := grp], cl.awaiting);
  }

  lemma ArriveOwned(clients: map<ClientId, Client>, gs: Groups, grp: Group, c: ClientId, nc: ClientId, n: GroupId)
    requires Owned(clients, gs, nc, n) && c in clients && grp.client == c && !grp.issued
    ensures n !in gs
    ensures var cl := clients[c];
            Owned(clients[c := cl.(parsed := cl.parsed + [n], arrived := cl.arrived + [n])], gs[n := grp], nc, n + 1)
  {
    hide ClientOwns;
    var cl := clients[c];
    var k := cl.(parsed := cl.parsed + [n], arrived := cl.arrived + [n]);
    ArriveOwns(gs, grp, c, cl, n);
    forall x | x in clients && x != c ensures ClientOwns(gs[n := grp], x, clients[x], n + 1) {
      OtherArriveOwns(gs, grp, x, clients[x], n);
    }
    forall g | g in gs ensures Listed(clients[c := k], gs[g].client, g) {
      assert Listed(clients, gs[g].client, g);
    }
  }

  lemma PushGroupShape(s: State, c: ClientId, plans: seq<Plan>)
    requires c in s.clients
    ensures var cl := s.clients[c];
            PushGroup(s, c, plans) ==
              s.(groups := s.groups[s.nextGroup := Group(c, Fresh(plans), |plans|, false)],
                 clients := s.clients[c := cl.(parsed := cl.parsed + [s.nextGroup], arrived := cl.arrived + [s.nextGroup])],
                 nextGroup := s.nextGroup + 1)
  {
  }

  lemma PushGroupCore(s: State, c: ClientId, plans: seq<Plan>)
    requires Core(s, multiset{}) && c in s.clients
    ensures Core(PushGroup(s, c, plans), multiset{})
  {
    hide Conserved, Wired, Logged, Peered, Pooled, Tabled, Counted, Owned, PushGroup, HeldIn, Fresh;
    PushGroupShape(s, c, plans);
    var grp := Group(c, Fresh(plans), |plans|, false);
    ArriveOwned(s.clients, s.groups, grp, c, s.nextClient, s.nextGroup);
    FreshGroup(s.groups, s.nextGroup, c, plans, Held(s));
    NewGroupWired(s.servers, s.groups, s.nextGroup, grp, Held(s));
  }

  lemma SentAlive(servers: seq<Server>, gs: Groups, id: nat, i: nat, held: multiset<Ref>)
    requires id < |servers| && i < |servers[id].sent| && servers[id].sent[i].Some?
    requires Conserved(held, multiset{}, gs) && HeldIn(servers) <= held
    ensures Alive(gs, servers[id].sent[i].value)
  {
    var r := servers[id].sent[i].value;
    LiveMember(servers[id].sent, i);
    HeldInContains(servers, id);
    assert held[r] + multiset{}[r] == if Outstanding(gs, r) then 1 else 0;
  }

  lemma NewGroupWired(servers: seq<Server>, gs: Groups, g: GroupId, grp: Group, held: multiset<Ref>)
    requires Wired(servers, gs) && g !in gs && Conserved(held, multiset{}, gs) && HeldIn(servers) <= held
    ensures Wired(servers, gs[g := grp])
  {
    hide Conserved, HeldIn;
    forall id | 0 <= id < |servers| ensures Aligned(gs[g := grp], id, servers[id]) {
      var v := servers[id];
      assert Aligned(gs, id, v);
      forall i | 0 <= i < |v.sent| && v.sent[i].Some? ensures Alive(gs, v.sent[i].value) {
        SentAlive(servers, gs, id, i, held);
      }
    }
  }

  predicate SameTables(s: State, t: State) {
    && t.nextClient == s.nextClient
    && t.closing == s.closing && t.active == s.active && t.table == s.table && t.updaters == s.updaters
    && t.readonly == s.readonly && t.fullCoverage == s.fullCoverage && t.servers == s.servers
  }

  lemma {:induction false} PushGroupsCore(s: State, c: ClientId, requests: seq<seq<Plan>>)
    requires Core(s, multiset{}) && c in s.clients
    ensures var t, cl := PushGroups(s, c, requests), s.clients[c];
            && Core(t, multiset{}) && SameTables(s, t) && c in t.clients && t.clients == s.clients[c := t.clients[c]]
            && t.clients[c] == cl.(parsed := t.clients[c].parsed, arrived := t.clients[c].arrived)
            && |t.clients[c].parsed| == |cl.parsed| + |requests|
    decreases |requests|
  {
    hide Core;
    if requests != [] {
      PushGroupCore(s, c, requests[0]);
      PushGroupsCore(PushGroup(s, c, requests[0]), c, requests[1..]);
    } else {
      assert s.clients == s.clients[c := s.clients[c]];
    }
  }

  /** Reading keeps every bound, and stalls no client. */
  lemma ReadRequestCore(s: State, c: ClientId, requests: seq<seq<Plan>>)
    requires Core(s, multiset{}) && Mapped(s.servers, s.table) && c in s.clients && Bounded(s.clients[c])
    ensures var t := ReadRequest(s, c, requests);
            && Core(t, multiset{}) && Mapped(t.servers, t.table)
            && c in t.clients && t.clients == s.clients[c := t.clients[c]] && Bounded(t.clients[c])
            && t.clients[c].closed == s.clients[c].closed
            && t.closing == s.closing && t.active == s.active && t.updaters == s.updaters && |t.servers| == |s.servers|
            && (Stalled(t.clients[c]) <==> Stalled(s.clients[c]))
  {
    hide Core, Mapped;
    PushGroupsCore(s, c, requests);
    var s1 := PushGroups(s, c, requests);
    if s1.clients[c].awaiting == [] {
      assert HasRoom(s1.clients[c]);
      ProcessCore(s1, c);
    }
  }

  // ----- leaving -----

  lemma {:induction false} WithoutCount(q: seq<Ref>, c: ClientId, r: Ref)
    ensures multiset(Without(q, c))[r] == if Mine(c, r) then 0 else multiset(q)[r]
  {
    if q == [] {
    } else {
      WithoutCount(q[1..], c, r);
      assert q == [q[0]] + q[1..];
      assert multiset(q) == multiset{q[0]} + multiset(q[1..]);
      if !Mine(c, q[0]) {
        assert multiset(Without(q, c)) == multiset{q[0]} + multiset(Without(q[1..], c));
      }
    }
  }

  lemma {:induction false} LiveNulled(sent: seq<Option<Ref>>, c: ClientId)
    ensures Live(Nulled(sent, c)) == Without(Live(sent), c)
  {
    if sent != [] {
      assert Nulled(sent, c)[1..] == Nulled(sent[1..], c);
      LiveNulled(sent[1..], c);
      var rest := Live(sent[1..]);
      if sent[0].Some? {
        assert Live(sent) == [sent[0].value] + rest;
        assert ([sent[0].value] + rest)[1..] == rest;
      } else {
        assert Live(sent) == rest;
      }
    }
  }

  ghost predicate Stripped(v: Server, u: Server, c: ClientId) {
    forall r :: HeldBy(u)[r] == if Mine(c, r) then 0 else HeldBy(v)[r]
  }

  lemma PopStripped(servers: seq<Server>, peers: map<ClientId, set<ServerId>>, c: ClientId, id: nat)
    requires Peered(servers, peers) && id < |servers|
    ensures Stripped(servers[id], PopFromServers(servers, if c in peers then peers[c] else {}, c)[id], c)
  {
    var mine := if c in peers then peers[c] else {};
    var v, u := servers[id], PopFromServers(servers, mine, c)[id];
    forall r ensures HeldBy(u)[r] == if Mine(c, r) then 0 else HeldBy(v)[r] {
      if id in mine {
        WithoutCount(v.queue, c, r);
        LiveNulled(v.sent, c);
        WithoutCount(Live(v.sent), c, r);
      } else if Mine(c, r) {
        assert r !in HeldBy(v);
      }
    }
  }

  lemma {:induction false} StrippedHeld(servers: seq<Server>, us: seq<Server>, c: ClientId, r: Ref)
    requires |us| == |servers| && forall i :: 0 <= i < |us| ==> Stripped(servers[i], us[i], c)
    ensures HeldIn(us)[r] == if Mine(c, r) then 0 else HeldIn(servers)[r]
  {
    if us != [] {
      StrippedHeld(servers[1..], us[1..], c, r);
      assert Stripped(servers[0], us[0], c);
    }
  }

  function GroupsWithout(gs: Groups, c: ClientId): Groups {
    map g | g in gs && gs[g].client != c :: gs[g]
  }

  lemma DepartHeld(s: State, c: ClientId, r: Ref)
    requires Peered(s.servers, s.peers)
    ensures (HeldIn(PopFromServers(s.servers, PeersOf(s, c), c)) + multiset(Without(s.retry, c)))[r] == if Mine(c, r) then 0 else Held(s)[r]
  {
    var us := PopFromServers(s.servers, PeersOf(s, c), c);
    forall i | 0 <= i < |us| ensures Stripped(s.servers[i], us[i], c) {
      PopStripped(s.servers, s.peers, c, i);
    }
    hide Peered, Stripped, PopFromServers, HeldIn, HeldBy;
    StrippedHeld(s.servers, us, c, r);
    WithoutCount(s.retry, c, r);
  }

  lemma DepartOutstanding(gs: Groups, c: ClientId, r: Ref)
    ensures Outstanding(GroupsWithout(gs, c), r) == (Outstanding(gs, r) && !Mine(c, r))
  {
  }

  lemma DepartConserved(s: State, c: ClientId)
    requires Conserved(Held(s), multiset{}, s.groups) && Peered(s.servers, s.peers)
    ensures Conserved(HeldIn(PopFromServers(s.servers, PeersOf(s, c), c)) + multiset(Without(s.retry, c)), multiset{}, GroupsWithout(s.groups, c))
  {
    hide Peered, PopFromServers, HeldIn, GroupsWithout, Outstanding, Without;
    var held, hs := HeldIn(PopFromServers(s.servers, PeersOf(s, c), c)) + multiset(Without(s.retry, c)), GroupsWithout(s.groups, c);
    forall r ensures held[r] + multiset{}[r] == if Outstanding(hs, r) then 1 else 0 {
      DepartHeld(s, c, r);
      DepartOutstanding(s.groups, c, r);
      assert Held(s)[r] + multiset{}[r] == if Outstanding(s.groups, r) then 1 else 0;
    }
  }

  lemma OtherDepartOwns(gs: Groups, c: ClientId, k: ClientId, cl: Client, n: GroupId)
    requires ClientOwns(gs, k, cl, n) && k != c
    ensures ClientOwns(GroupsWithout(gs, c), k, cl, n)
  {
    WaitingFrame(gs, GroupsWithout(gs, c), cl.awaiting);
  }

  lemma DepartOwned(clients: map<ClientId, Client>, gs: Groups, c: ClientId, nc: ClientId, n: GroupId)
    requires Owned(clients, gs, nc, n)
    ensures Owned(clients - {c}, GroupsWithout(gs, c), nc, n)
  {
    hide ClientOwns;
    var hs := GroupsWithout(gs, c);
    forall k | k in clients && k != c ensures ClientOwns(hs, k, clients[k], n) {
      OtherDepartOwns(gs, c, k, clients[k], n);
    }
    forall g | g in hs ensures Listed(clients - {c}, hs[g].client, g) {
      assert Listed(clients, gs[g].client, g);
    }
  }

  lemma DepartServers(servers: seq<Server>, gs: Groups, peers: map<ClientId, set<ServerId>>, mine: set<ServerId>, c: ClientId)
    requires Wired(servers, gs) && Peered(servers, peers) && mine == if c in peers then peers[c] else {}
    ensures Wired(PopFromServers(servers, mine, c), GroupsWithout(gs, c))
    ensures Peered(PopFromServers(servers, mine, c), peers - {c})
  {
    hide Wired, HeldBy, GroupsWithout, PopFromServers, Mine;
    DepartWired(servers, gs, mine, c);
    var us := PopFromServers(servers, mine, c);
    PopLength(servers, mine, c);
    forall id, r | 0 <= id < |us| && r in HeldBy(us[id]) ensures r.client in peers - {c} && id in (peers - {c})[r.client] {
      PopStripped(servers, peers, c, id);
      MineIs(c, r);
      assert HeldBy(us[id])[r] == if Mine(c, r) then 0 else HeldBy(servers[id])[r];
      assert r in HeldBy(servers[id]);
    }
  }

  lemma MineIs(c: ClientId, r: Ref)
    ensures Mine(c, r) <==> r.client == c
  {
  }

  lemma PopLength(servers: seq<Server>, mine: set<ServerId>, c: ClientId)
    ensures |PopFromServers(servers, mine, c)| == |servers|
  {
  }

  lemma DepartWired(servers: seq<Server>, gs: Groups, mine: set<ServerId>, c: ClientId)
    requires Wired(servers, gs)
    ensures Wired(PopFromServers(servers, mine, c), GroupsWithout(gs, c))
  {
    var us, hs := PopFromServers(servers, mine, c), GroupsWithout(gs, c);
    forall id | 0 <= id < |us| ensures Aligned(hs, id, us[id]) {
      assert Aligned(gs, id, servers[id]);
    }
  }

  lemma DepartPooled(servers: seq<Server>, mine: set<ServerId>, c: ClientId, addrMap: map<Addr, ServerId>, pool: seq<ServerId>, refused: bool)
    requires Pooled(servers, addrMap, pool, refused)
    ensures Pooled(PopFromServers(servers, mine, c), addrMap, pool, refused)
  {
  }

  lemma DepartMapped(servers: seq<Server>, peers: map<ClientId, set<ServerId>>, mine: set<ServerId>, c: ClientId, table: map<Slot, ServerId>)
    requires Peered(servers, peers) && Mapped(servers, table) && mine == if c in peers then peers[c] else {}
    ensures Mapped(PopFromServers(servers, mine, c), table)
  {
    var us := PopFromServers(servers, mine, c);
    forall id | 0 <= id < |us| && HeldBy(us[id]) != multiset{} ensures id in table.Values {
      PopStripped(servers, peers, c, id);
      var r :| r in HeldBy(us[id]);
      assert r in HeldBy(servers[id]);
    }
  }

  /** A client leaves: no queue and no list of the thread refers to any of its commands any more. */
  lemma DepartCore(s: State, c: ClientId)
    requires Core(s, multiset{}) && Mapped(s.servers, s.table)
    ensures var t := Depart(s, c);
            && Core(t, multiset{}) && Mapped(t.servers, t.table)
            && t.clients == s.clients - {c} && t.closing == s.closing && t.updaters == s.updaters
            && (forall r :: r in Held(t) ==> r.client != c)
  {
    hide Conserved, Wired, Logged, Peered, Pooled, Tabled, Counted, Owned, Mapped;
    if c in s.clients {
      var t := Depart(s, c);
      DepartConserved(s, c);
      DepartOwned(s.clients, s.groups, c, s.nextClient, s.nextGroup);
      DepartServers(s.servers, s.groups, s.peers, PeersOf(s, c), c);
      DepartPooled(s.servers, PeersOf(s, c), c, s.addrMap, s.pool, s.refused);
      DepartMapped(s.servers, s.peers, PeersOf(s, c), c, s.table);
      DepartCounted(s.groups, c);
      assert t.groups == GroupsWithout(s.groups, c);
      assert Core(t, multiset{});
      NothingRefers(t, c);
    } else {
      assert s.clients - {c} == s.clients;
      NothingRefers(s, c);
    }
  }

  lemma DepartCounted(gs: Groups, c: ClientId)
    requires Counted(gs)
    ensures Counted(GroupsWithout(gs, c))
  {
  }

  lemma NothingRefers(t: State, c: ClientId)
    requires Core(t, multiset{}) && c !in t.clients
    ensures forall r :: r in Held(t) ==> r.client != c
  {
    hide Wired, Logged, Peered, Pooled, Tabled, Counted;
    forall r | r in Held(t) ensures r.client != c {
      assert Held(t)[r] + multiset{}[r] == if Outstanding(t.groups, r) then 1 else 0;
      assert Listed(t.clients, t.groups[r.group].client, r.group);
    }
  }

  /** Every client that closed during the turn is gone after it. */
  lemma {:induction false} DepartAllCore(s: State, cs: seq<ClientId>)
    requires Core(s, multiset{}) && Mapped(s.servers, s.table)
    ensures var t := DepartAll(s, cs);
            && Core(t, multiset{}) && Mapped(t.servers, t.table)
            && t.closing == s.closing && t.updaters == s.updaters
            && (forall k :: k in t.clients <==> k in s.clients && k !in cs)
            && (forall k :: k in t.clients ==> t.clients[k] == s.clients[k])
    decreases |cs|
  {
    hide Core, Mapped;
    if cs != [] {
      DepartCore(s, cs[0]);
      DepartAllCore(Depart(s, cs[0]), cs[1..]);
    }
  }
}
