/** What a callback of a client does with the requests it reads and the replies it writes. */
module Reading {
  import opened Options
  import opened ThreadState
  import opened ThreadInvariants
  import opened CommandSteps
  import opened ServerSteps
  import opened ClientSteps
  import opened ThreadSafety
  import opened Selecting

  /** The identities of `n` groups, from `first` on */
  function Numbered(first: GroupId, n: nat): seq<GroupId> {
    seq(n, i requires 0 <= i < n => first + i)
  }

  /** The group has one command for each plan, in order, and none of them has been answered. */
  predicate Waits(gs: Groups, c: ClientId, g: GroupId, plans: seq<Plan>) {
    && g in gs && gs[g].client == c && gs[g].counter == |plans| && |gs[g].cmds| == |plans|
    && forall k :: 0 <= k < |plans| ==> gs[g].cmds[k] == Cmd(plans[k], 0, false)
  }

  predicate Unissued(gs: Groups, g: GroupId) {
    g in gs && !gs[g].issued
  }

  // ----- pushing -----

  lemma PushWaits(s: State, c: ClientId, plans: seq<Plan>)
    requires c in s.clients
    ensures var t := PushGroup(s, c, plans); Waits(t.groups, c, s.nextGroup, plans) && Unissued(t.groups, s.nextGroup)
  {
  }

  lemma NumberedFirst(first: GroupId, n: nat)
    requires n > 0
    ensures Numbered(first, n) == [first] + Numbered(first + 1, n - 1)
  {
  }

  /** Requests become parsed groups in order, each with its commands, none of them issued. */
  lemma {:induction false} PushedInOrder(s: State, c: ClientId, requests: seq<seq<Plan>>)
    requires c in s.clients && forall g :: g in s.groups ==> g < s.nextGroup
    ensures var t, more := PushGroups(s, c, requests), Numbered(s.nextGroup, |requests|);
            && t.nextGroup == s.nextGroup + |requests| && (forall g :: g in t.groups ==> g < t.nextGroup)
            && (forall g :: g in s.groups ==> g in t.groups && t.groups[g] == s.groups[g])
            && (forall i :: 0 <= i < |requests| ==>
                  Waits(t.groups, c, s.nextGroup + i, requests[i]) && Unissued(t.groups, s.nextGroup + i))
            && c in t.clients
            && t.clients[c].parsed == s.clients[c].parsed + more && t.clients[c].arrived == s.clients[c].arrived + more
    decreases |requests|
  {
    hide PushGroup, Fresh, Waits;
    if requests != [] {
      var s1 := PushGroup(s, c, requests[0]);
      PushGroupShape(s, c, requests[0]);
      PushWaits(s, c, requests[0]);
      PushedInOrder(s1, c, requests[1..]);
      NumberedFirst(s.nextGroup, |requests|);
      var t := PushGroups(s, c, requests);
      assert t == PushGroups(s1, c, requests[1..]);
      assert s.nextGroup in s1.groups && t.groups[s.nextGroup] == s1.groups[s.nextGroup];
      SameWaits(s1.groups, t.groups, c, s.nextGroup, requests[0]);
      forall i | 0 <= i < |requests|
        ensures Waits(t.groups, c, s.nextGroup + i, requests[i]) && Unissued(t.groups, s.nextGroup + i)
      {
        if i > 0 {
          assert requests[1..][i - 1] == requests[i];
          assert Waits(t.groups, c, s1.nextGroup + (i - 1), requests[1..][i - 1]);
        }
      }
    }
  }

  lemma SameWaits(gs: Groups, hs: Groups, c: ClientId, g: GroupId, plans: seq<Plan>)
    requires Waits(gs, c, g, plans) && g in hs && hs[g].client == gs[g].client && hs[g].cmds == gs[g].cmds && hs[g].counter == gs[g].counter
    ensures Waits(hs, c, g, plans)
  {
  }

  // ----- reading -----

  lemma GroupsBelow(s: State)
    requires Core(s, multiset{})
    ensures forall g :: g in s.groups ==> g < s.nextGroup
  {
    hide Conserved, Counted, Wired, Logged, Pooled, Tabled, Peered, ClientOwns;
  }

  /** What a read makes of a client and of the groups it pushes: `_process` runs if nothing was awaited. */
  ghost predicate Taken(s: State, t: State, c: ClientId, requests: seq<seq<Plan>>)
    requires c in s.clients
  {
    var cl, more := s.clients[c], Numbered(s.nextGroup, |requests|);
    var q := cl.parsed + more;
    && c in t.clients && t.clients[c].arrived == cl.arrived + more && t.clients[c].written == cl.written
    && (cl.interest == Some(true) ==> t.clients[c].interest == Some(true))
    && (forall i :: 0 <= i < |requests| ==> Waits(t.groups, c, s.nextGroup + i, requests[i]))
    && (cl.awaiting != [] ==> t.clients[c].parsed == q && t.clients[c].awaiting == cl.awaiting && t.clients[c].ready == cl.ready)
    && (cl.awaiting == [] ==> t.clients[c].parsed == q[Batch(q)..] && t.clients[c].ready + t.clients[c].awaiting == cl.ready + q[..Batch(q)])
  }

  lemma {:induction false} PushGroupsGrow(s: State, c: ClientId, requests: seq<seq<Plan>>)
    requires c in s.clients
    ensures Grown(s, PushGroups(s, c, requests))
    decreases |requests|
  {
    hide PushGroup, Grown;
    if requests == [] {
      GrownSame(s);
    } else {
      var s1 := PushGroup(s, c, requests[0]);
      PushGroupShape(s, c, requests[0]);
      GrownLists(s.(nextGroup := s1.nextGroup), s1);
      assert Grown(s, s1) by { GrownNumber(s, s1); }
      PushGroupsGrow(s1, c, requests[1..]);
      GrownTrans(s, s1, PushGroups(s, c, requests));
    }
  }

  lemma GrownNumber(s: State, t: State)
    requires t == s.(clients := t.clients, groups := t.groups, nextGroup := t.nextGroup)
    ensures Grown(s, t)
  {
  }

  lemma ReadTakes(s: State, c: ClientId, requests: seq<seq<Plan>>)
    requires Core(s, multiset{}) && Mapped(s.servers, s.table) && c in s.clients
    ensures Taken(s, ReadRequest(s, c, requests), c, requests)
  {
    hide Core, Mapped, Process, PushGroups, Waits, Grown, SameCommands;
    GroupsBelow(s);
    PushedInOrder(s, c, requests);
    PushGroupsCore(s, c, requests);
    var s1 := PushGroups(s, c, requests);
    if s1.clients[c].awaiting == [] {
      ProcessIssues(s1, c);
      var t := Process(s1, c);
      forall i | 0 <= i < |requests| ensures Waits(t.groups, c, s.nextGroup + i, requests[i]) {
        var g := s.nextGroup + i;
        assert g in s1.groups by { assert Waits(s1.groups, c, g, requests[i]); WaitsIn(s1.groups, c, g, requests[i]); }
        CommandsOf(s1.groups, t.groups, g);
        SameWaits(s1.groups, t.groups, c, g, requests[i]);
      }
      assert s.clients[c].ready + [] == s.clients[c].ready;
    }
  }

  lemma WaitsIn(gs: Groups, c: ClientId, g: GroupId, plans: seq<Plan>)
    requires Waits(gs, c, g, plans)
    ensures g in gs
  {
  }

  // ----- writing -----

  lemma SendKeeps(s: State, c: ClientId, done: bool)
    requires Core(s, multiset{}) && Mapped(s.servers, s.table) && c in s.clients
    ensures var t, cl := SendBufferSet(s, c, done), s.clients[c];
            && c in t.clients && t.clients[c].arrived == cl.arrived
            && t.clients[c].written == (if cl.pending && !done then cl.written else cl.written + cl.ready)
            && (cl.interest == Some(true) ==> t.clients[c].interest == Some(true))
  {
    hide Core, Mapped, Process, DropReady;
    if !(s.clients[c].pending && !done) {
      DropReadyCore(s, c);
      DroppedKeeps(s, c);
      var s1 := DropReady(s, c);
      if s1.clients[c].parsed != [] {
        ProcessKeeps(s1, c);
      }
    }
  }

  lemma DroppedKeeps(s: State, c: ClientId)
    requires c in s.clients
    ensures var t, cl := DropReady(s, c), s.clients[c];
            && t.servers == s.servers && t.table == s.table && c in t.clients && t.clients[c].arrived == cl.arrived
            && t.clients[c].written == cl.written + cl.ready && t.clients[c].interest == cl.interest
  {
    hide DropReady;
    DropReadyShape(s, c);
  }

  lemma ProcessKeeps(s: State, c: ClientId)
    requires Core(s, multiset{}) && Mapped(s.servers, s.table) && c in s.clients
    ensures var t := Process(s, c); c in t.clients && t.clients[c].arrived == s.clients[c].arrived && t.clients[c].written == s.clients[c].written
    ensures s.clients[c].interest == Some(true) ==> Process(s, c).clients[c].interest == Some(true)
  {
    hide Core, Mapped, Process, Grown, SameCommands;
    ProcessIssues(s, c);
  }

  /** The first `writev` sends what is ready; then, if all that is awaited is answered, the second sends
      that, or what the first left and that, if there is room. */
  lemma WriteSends(s: State, c: ClientId, done1: bool, done2: bool)
    requires Core(s, multiset{}) && Mapped(s.servers, s.table) && c in s.clients && Bounded(s.clients[c])
    ensures var t, cl := WriteResponse(s, c, done1, done2), s.clients[c];
            && c in t.clients && t.clients[c].arrived == cl.arrived
            && (cl.interest == Some(true) ==> t.clients[c].interest == Some(true))
            && (cl.pending && done1 ==> cl.written + cl.ready <= t.clients[c].written)
            && (cl.pending && !done1 && !done2 ==> t.clients[c].written == cl.written)
            && (cl.pending && !done1 && (cl.awaiting == [] || cl.awaitingCount != 0) ==> t.clients[c].written == cl.written)
            && (!cl.pending && (cl.awaiting == [] || cl.awaitingCount != 0) ==> t.clients[c].written == cl.written)
            && (!cl.pending && cl.awaiting != [] && cl.awaitingCount == 0 ==>
                  t.clients[c].written == (if done2 then cl.written + cl.awaiting else cl.written))
  {
    hide Core, Mapped, SendBufferSet, Bounded, PushAwaitingsToReady;
    var cl := s.clients[c];
    PendingReady(cl);
    if cl.pending {
      FirstSend(s, c, done1);
      SecondSend(SendBufferSet(s, c, done1), c, done2);
    } else {
      SecondSend(s, c, done2);
    }
  }

  lemma FirstSend(s: State, c: ClientId, done: bool)
    requires Core(s, multiset{}) && Mapped(s.servers, s.table) && c in s.clients && Bounded(s.clients[c]) && s.clients[c].pending
    ensures var t, cl := SendBufferSet(s, c, done), s.clients[c];
            && Core(t, multiset{}) && Mapped(t.servers, t.table) && c in t.clients && t.clients[c].arrived == cl.arrived
            && (cl.interest == Some(true) ==> t.clients[c].interest == Some(true))
            && (if done then t.clients[c].written == cl.written + cl.ready else t == s)
  {
    hide Core, Mapped, SendBufferSet, Bounded, Stalled, Crowded;
    SendBufferSetCore(s, c, done);
    SendKeeps(s, c, done);
  }

  /** The second half of `_write_response` */
  lemma SecondSend(s: State, c: ClientId, done: bool)
    requires Core(s, multiset{}) && Mapped(s.servers, s.table) && c in s.clients
    ensures var cl := s.clients[c];
            cl.awaiting != [] && cl.awaitingCount == 0 ==>
              var t := SendBufferSet(WithCli(s, c, PushAwaitingsToReady(cl)), c, done);
              && c in t.clients && t.clients[c].arrived == cl.arrived && cl.written <= t.clients[c].written
              && (cl.interest == Some(true) ==> t.clients[c].interest == Some(true))
              && (!done && (cl.pending || cl.ready == []) ==> t.clients[c].written == cl.written)
              && (done && cl.ready == [] ==> t.clients[c].written == cl.written + cl.awaiting)
  {
    hide Core, Mapped, SendBufferSet;
    var cl := s.clients[c];
    if cl.awaiting != [] && cl.awaitingCount == 0 {
      PushCore(s, c);
      SendKeeps(WithCli(s, c, PushAwaitingsToReady(cl)), c, done);
    }
  }

  lemma PendingReady(cl: Client)
    requires Bounded(cl)
    ensures cl.pending <==> cl.ready != []
  {
  }

  // ----- the event -----

  /** Every request that is read arrives: the groups of the client are followed by one new group for each
      request, in order, whatever the client awaits and however its writes go. */
  lemma ReadArrives(s: State, c: ClientId, requests: seq<seq<Plan>>, write: Option<(bool, bool)>)
    requires Safe(s) && Listening(s, c)
    ensures var t := Apply(s, Ready(c, Some(requests), write));
            c in t.clients && t.clients[c].arrived == s.clients[c].arrived + Numbered(s.nextGroup, |requests|)
  {
    hide Safe, Core, Mapped, Bounded, ReadRequest, WriteResponse, Taken, Quiet, Leaving, InRound, Reported, Stalled, Crowded;
    SafeClientParts(s, c);
    ReadTakes(s, c, requests);
    ReadRequestCore(s, c, requests);
    TakenArrives(s, ReadRequest(s, c, requests), c, requests);
    var w := Writable(s, c, write);
    if w.Some? {
      WriteSends(ReadRequest(s, c, requests), c, w.value.0, w.value.1);
    }
  }

  lemma TakenArrives(s: State, t: State, c: ClientId, requests: seq<seq<Plan>>)
    requires c in s.clients && Taken(s, t, c, requests)
    ensures c in t.clients && t.clients[c].arrived == s.clients[c].arrived + Numbered(s.nextGroup, |requests|)
  {
  }

  /** A registration for writing that has been asked for in a turn is not withdrawn by a callback, whatever
      it reads and writes. */
  lemma AskedStays(s: State, c: ClientId, read: Option<seq<seq<Plan>>>, write: Option<(bool, bool)>)
    requires Safe(s) && Listening(s, c) && s.clients[c].interest == Some(true)
    ensures var t := Apply(s, Ready(c, read, write)); c in t.clients && t.clients[c].interest == Some(true)
  {
    hide Safe, Core, Mapped, Bounded, ReadRequest, WriteResponse, Taken, Quiet, Leaving, InRound, Reported, Stalled, Crowded;
    SafeClientParts(s, c);
    var s1 := AfterRead(s, c, read);
    AfterReadCore(s, c, read);
    if read.Some? {
      ReadTakes(s, c, read.value);
      TakenAsked(s, s1, c, read.value);
    }
    var w := Writable(s, c, write);
    if w.Some? {
      WriteSends(s1, c, w.value.0, w.value.1);
    }
  }

  lemma TakenAsked(s: State, t: State, c: ClientId, requests: seq<seq<Plan>>)
    requires c in s.clients && Taken(s, t, c, requests) && s.clients[c].interest == Some(true)
    ensures c in t.clients && t.clients[c].interest == Some(true)
  {
  }

  /** A client whose last reply has been written has no peer left. */
  lemma LastReplyWritten(s: State, c: ClientId, done2: bool)
    requires Safe(s) && Listening(s, c) && s.clients[c].watched && s.clients[c].pending
    requires s.clients[c].awaiting == [] && s.clients[c].parsed == []
    ensures var t := Apply(s, Ready(c, None, Some((true, done2))));
            && c in t.clients && t.clients[c].written == t.clients[c].arrived && PeersOf(t, c) == {}
            && forall g :: g in s.clients[c].ready ==> g !in t.groups
  {
    hide Safe, Core, Quiet, Leaving, InRound, Reported, DropReady, ClientOwns;
    SafeClientParts(s, c);
    ArrivedIs(s, c);
    DropReadyShape(s, c);
    var s1 := DropReady(s, c);
    assert SendBufferSet(s, c, true) == s1;
    assert WriteResponse(s, c, true, done2) == s1;
    assert s.clients[c].written + s.clients[c].ready + [] + [] == s.clients[c].written + s.clients[c].ready;
  }

  lemma ArrivedIs(s: State, c: ClientId)
    requires Core(s, multiset{}) && c in s.clients
    ensures var cl := s.clients[c]; cl.arrived == cl.written + cl.ready + cl.awaiting + cl.parsed
  {
    hide Conserved, Counted, Wired, Logged, Pooled, Tabled, Peered;
    assert ClientOwns(s.groups, c, s.clients[c], s.nextGroup);
  }

  /** And each of its groups has the commands of its request; if nothing was awaited the first 64 groups
      are issued, else all wait. */
  lemma ReadEvent(s: State, c: ClientId, requests: seq<seq<Plan>>)
    requires Safe(s) && Listening(s, c)
    ensures Taken(s, Apply(s, Ready(c, Some(requests), None)), c, requests)
  {
    hide Safe, Core, Mapped, Bounded, ReadRequest, Taken, Quiet, Leaving, InRound, Reported, Stalled;
    SafeClientParts(s, c);
    ReadTakes(s, c, requests);
    ReadRequestCore(s, c, requests);
    var t := ReadRequest(s, c, requests);
    SettleTakes(s, t, c, requests);
  }

  lemma SettleTakes(s: State, t: State, c: ClientId, requests: seq<seq<Plan>>)
    requires c in s.clients && c in t.clients && Taken(s, t, c, requests)
    ensures Taken(s, WithCli(t, c, Settle(t.clients[c])), c, requests)
  {
    hide Waits;
  }

  /** A write notification to a client that is watched sends what is ready if the first `writev` says so. */
  lemma WriteEvent(s: State, c: ClientId, done1: bool, done2: bool)
    requires Safe(s) && Listening(s, c) && s.clients[c].watched
    ensures var t, cl := Apply(s, Ready(c, None, Some((done1, done2)))), s.clients[c];
            && c in t.clients && t.clients[c].arrived == cl.arrived
            && (cl.pending && done1 ==> cl.written + cl.ready <= t.clients[c].written)
            && (!done1 && !done2 ==> t.clients[c].written == cl.written)
            && (cl.awaitingCount != 0 && !done1 ==> t.clients[c].written == cl.written)
  {
    hide Safe, Core, Mapped, Bounded, WriteResponse, Quiet, Leaving, InRound, Reported, Stalled, Crowded;
    SafeClientParts(s, c);
    WriteSends(s, c, done1, done2);
  }

  /** The slot by which a request's command starts: its own, or that of the old key of a RENAME */
  predicate StartsAt(p: Plan, x: Slot) {
    p == OneSlot(x) || (p.Rename? && p.src == x)
  }

  /** The requests that a read issues: each command is in the queue of the open server its slot leads to,
      or in the retry list if it leads to none; and no connection or table has changed. */
  lemma ReadPlaces(s: State, c: ClientId, requests: seq<seq<Plan>>, i: nat, k: nat, x: Slot)
    requires Safe(s) && Listening(s, c) && s.clients[c].awaiting == []
    requires i < |requests| && |s.clients[c].parsed| + i < 64 && k < |requests[i]| && StartsAt(requests[i][k], x)
    ensures var t, r := Apply(s, Ready(c, Some(requests), None)), Ref(c, s.nextGroup + i, k);
            Placed(t, r, x) && Grown(s, t)
  {
    hide Safe, Core, Mapped, Bounded, Process, PushGroups, Quiet, Leaving, InRound, Reported, Stalled, Grown, Placed, GoesBy, Settle;
    SafeClientParts(s, c);
    GroupsBelow(s);
    PushedInOrder(s, c, requests);
    PushGroupsCore(s, c, requests);
    PushGroupsGrow(s, c, requests);
    var s1, j := PushGroups(s, c, requests), |s.clients[c].parsed| + i;
    assert s1.clients[c].parsed[j] == s.nextGroup + i;
    assert Waits(s1.groups, c, s.nextGroup + i, requests[i]);
    StartGoesBy(requests[i][k], x);
    ProcessPlaces(s1, c, j, k, x);
    ProcessIssues(s1, c);
    var t := Process(s1, c);
    var u := WithCli(t, c, Settle(t.clients[c]));
    GrownLists(t, u);
    StillPlaced(t, u, Ref(c, s.nextGroup + i, k), x);
    GrownTrans(s, s1, t);
    GrownTrans(s, t, u);
    assert Apply(s, Ready(c, Some(requests), None)) == u;
  }

  lemma StartGoesBy(p: Plan, x: Slot)
    requires StartsAt(p, x)
    ensures GoesBy(Cmd(p, 0, false), x)
  {
  }
}
