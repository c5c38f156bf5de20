/** From bytes to the thread: what the splitters and the RENAME command give is what the thread's events
    and stages stand for. */
module Layers {
  import opened Options
  import opened Bytes
  import opened Resp
  import opened SlotCalc
  import opened Streams
  import ClientRequests
  import ClientSplitter
  import Responses
  import RenameSteps
  import Reading
  import ThreadSafety
  import T = ThreadState

  // ----- requests -----

  function PlanOf(slot: bv16): T.Plan {
    T.OneSlot(slot as nat)
  }

  /** The commands a request needs */
  function PlansOf(r: ClientRequests.Request): seq<T.Plan> {
    match r
    case Answer(_) => []
    case Single(_, slot) => [PlanOf(slot)]
    case Fan(_, subs) => seq(|subs|, i requires 0 <= i < |subs| => PlanOf(subs[i].slot))
    case TwoSlots(_, _, oldSlot, newSlot) => [T.Rename(oldSlot as nat, newSlot as nat)]
  }

  function AllPlans(rs: seq<ClientRequests.Request>): seq<seq<T.Plan>> {
    seq(|rs|, i requires 0 <= i < |rs| => PlansOf(rs[i]))
  }

  predicate InTable(p: T.Plan) {
    match p
    case OneSlot(slot) => slot < T.SLOT_COUNT
    case Rename(src, dst) => src < T.SLOT_COUNT && dst < T.SLOT_COUNT && src != dst
  }

  lemma SlotInTable(key: Text)
    ensures Slot(key) as nat < T.SLOT_COUNT
  {
    hide Crc, HashTag;
    Remainder(Crc(HashTag(key)));
  }

  lemma Remainder(x: bv16)
    ensures (x % 16384) as nat < 16384
  {
  }

  lemma SlotBack(a: bv16)
    ensures a as nat < 65536 && (a as nat) as bv16 == a
  {
  }

  lemma SlotsDiffer(a: bv16, b: bv16)
    requires a != b
    ensures a as nat != b as nat
  {
    SlotBack(a);
    SlotBack(b);
  }

  predicate AllInTable(plans: seq<T.Plan>) {
    forall i :: 0 <= i < |plans| ==> InTable(plans[i])
  }

  /** Every command of a request goes by a slot of the table, and a RENAME that takes three steps by two
      different ones. */
  lemma RequestInTable(table: Text -> ClientRequests.Kind, m: Message)
    ensures AllInTable(PlansOf(ClientRequests.RequestOf(table, m)))
  {
    hide Slot, Encode, ClientRequests.KeyOf, ClientRequests.UpperText, ClientRequests.EachKeySubs, ClientRequests.PairSubs,
         PlansOf, AllInTable, ClientRequests.UnknownCommand, ClientRequests.WrongArguments, SubsInTable;
    match ClientRequests.RequestOf(table, m)
    case Answer(reply) => AnswerInTable(reply);
    case Single(bytes, slot) =>
      var key := if m.Array? && |m.items| > 1 then ClientRequests.KeyOf(m.items[1]) else [];
      SingleInTable(bytes, key);
    case Fan(kind, subs) =>
      EachInTable(ClientRequests.GET, m.items[1..]);
      EachInTable(ClientRequests.DEL, m.items[1..]);
      if |m.items[1..]| % 2 == 0 {
        PairsInTable(m.items[1..]);
      }
      FanInTable(kind, subs);
    case TwoSlots(a, b, _, _) =>
      TwoInTable(a, b, ClientRequests.KeyOf(m.items[1]), ClientRequests.KeyOf(m.items[2]));
  }

  lemma AnswerInTable(reply: Text)
    ensures AllInTable(PlansOf(ClientRequests.Answer(reply)))
  {
  }

  lemma SingleInTable(bytes: Text, key: Text)
    ensures AllInTable(PlansOf(ClientRequests.Single(bytes, Slot(key))))
  {
    hide Slot;
    SlotInTable(key);
  }

  lemma FanInTable(kind: ClientRequests.Kind, subs: seq<ClientRequests.Sub>)
    requires SubsInTable(subs)
    ensures AllInTable(PlansOf(ClientRequests.Fan(kind, subs)))
  {
  }

  lemma TwoInTable(a: Text, b: Text, oldKey: Text, newKey: Text)
    requires Slot(oldKey) != Slot(newKey)
    ensures AllInTable(PlansOf(ClientRequests.TwoSlots(a, b, Slot(oldKey), Slot(newKey))))
  {
    hide Slot;
    SlotInTable(oldKey);
    SlotInTable(newKey);
    SlotsDiffer(Slot(oldKey), Slot(newKey));
  }

  predicate SubsInTable(subs: seq<ClientRequests.Sub>) {
    forall i :: 0 <= i < |subs| ==> subs[i].slot as nat < T.SLOT_COUNT
  }

  lemma EachInTable(name: Text, args: seq<Message>)
    ensures SubsInTable(ClientRequests.EachKeySubs(name, args))
  {
    hide Slot, ClientRequests.NodeCommand, Encode;
    forall i | 0 <= i < |args| ensures Slot(ClientRequests.KeyOf(args[i])) as nat < T.SLOT_COUNT {
      SlotInTable(ClientRequests.KeyOf(args[i]));
    }
  }

  lemma PairsInTable(args: seq<Message>)
    requires |args| % 2 == 0
    ensures SubsInTable(ClientRequests.PairSubs(args))
  {
    hide Slot, ClientRequests.NodeCommand, Encode;
    forall i | 0 <= i < |args| / 2 ensures Slot(ClientRequests.KeyOf(args[2 * i])) as nat < T.SLOT_COUNT {
      SlotInTable(ClientRequests.KeyOf(args[2 * i]));
    }
  }

  // ----- replies -----

  /** What the thread makes of a reply */
  function BodyOf(r: Responses.Response): T.Body {
    match r
    case Retry => T.Redirect
    case Normal(bytes, error) => if error then T.Failure else if bytes == RenameSteps.NIL_REPLY then T.Nil else T.Value
  }

  function Bodies(rs: seq<Responses.Response>): seq<T.Body> {
    seq(|rs|, i requires 0 <= i < |rs| => BodyOf(rs[i]))
  }

  /** The body says how a reply reads: redirected by its last error, some other error, nil, or a value. */
  lemma BodyReads(m: Message)
    requires WellFormed(m)
    ensures var e, b := Responses.LastError([], m), BodyOf(Responses.Reply(m));
            && (b == T.Redirect <==> Responses.Redirects(e))
            && (b == T.Failure <==> e != [] && !Responses.Redirects(e))
            && (b == T.Nil <==> m == Nil(false))
  {
    hide Responses.StartsIgnoringCase;
    NilReads(m);
    assert !Responses.Redirects([]) by { NothingRedirects(); }
  }

  lemma NothingRedirects()
    ensures !Responses.Redirects([])
  {
  }

  lemma NilReads(m: Message)
    requires WellFormed(m)
    ensures Encode(m) == RenameSteps.NIL_REPLY <==> m == Nil(false)
  {
    match m
    case Integer(_, _) => assert Encode(m)[0] == COLON;
    case Simple(_) => assert Encode(m)[0] == PLUS;
    case Error(_) => assert Encode(m)[0] == MINUS;
    case Bulk(length, _) => assert Encode(m)[1] == length[0];
    case Nil(ofArray) => assert ofArray ==> Encode(m)[0] == STAR;
    case Array(_, _) => assert Encode(m)[0] == STAR;
  }

  // ----- RENAME -----

  function StageNumber(s: RenameSteps.Stage): nat {
    match s
    case Getting => 0
    case Setting => 1
    case Deleting => 2
    case Answered => 3
  }

  function CmdOf(k: RenameSteps.Keys, c: RenameSteps.Command): T.Cmd {
    T.Cmd(T.Rename(k.oldSlot as nat, k.newSlot as nat), StageNumber(c.stage), false)
  }

  /** One reply moves the command and the thread's record of it alike. */
  lemma RenameStepAgrees(k: RenameSteps.Keys, c: RenameSteps.Command, rsp: Text, error: bool)
    requires c.stage != RenameSteps.Answered && CmdOf(k, c).CurrentSlot() == c.slot as nat
    ensures var d := RenameSteps.OnReply(k, c, rsp, error);
            && T.NextStage(CmdOf(k, c), BodyOf(Responses.Normal(rsp, error))) ==
                 (if d.stage == RenameSteps.Answered then None else Some(StageNumber(d.stage)))
            && (d.stage != RenameSteps.Answered ==> CmdOf(k, d).CurrentSlot() == d.slot as nat)
  {
    hide RenameSteps.NoSuchKey, RenameSteps.OkReply, ClientSplitter.Header;
  }

  /** The command after some replies, none of which is a redirection */
  function AfterReplies(k: RenameSteps.Keys, c: RenameSteps.Command, replies: seq<(Text, bool)>): RenameSteps.Command
    decreases |replies|
  {
    if replies == [] then c else AfterReplies(k, RenameSteps.OnReply(k, c, replies[0].0, replies[0].1), replies[1..])
  }

  /** The stage the thread has the command in after the same replies; None once it is answered */
  function StageAfter(c: T.Cmd, replies: seq<(Text, bool)>): Option<nat>
    decreases |replies|
  {
    if replies == [] then Some(c.stage)
    else
      match T.NextStage(c, BodyOf(Responses.Normal(replies[0].0, replies[0].1)))
      case None => None
      case Some(stage) => StageAfter(c.(stage := stage), replies[1..])
  }

  lemma {:induction false} AnsweredStays(k: RenameSteps.Keys, c: RenameSteps.Command, replies: seq<(Text, bool)>)
    requires c.stage == RenameSteps.Answered
    ensures AfterReplies(k, c, replies).stage == RenameSteps.Answered
    decreases |replies|
  {
    hide RenameSteps.NoSuchKey, RenameSteps.OkReply, ClientSplitter.Header;
    if replies != [] {
      AnsweredStays(k, c, replies[1..]);
    }
  }

  /** Whatever the nodes reply, the thread has a RENAME in the stage the command is in, sends it to the
      slot the command asks for, and answers it when the command is answered. */
  lemma {:induction false} RenameAgrees(k: RenameSteps.Keys, c: RenameSteps.Command, replies: seq<(Text, bool)>)
    requires c.stage != RenameSteps.Answered && CmdOf(k, c).CurrentSlot() == c.slot as nat
    ensures var d := AfterReplies(k, c, replies);
            && StageAfter(CmdOf(k, c), replies) == (if d.stage == RenameSteps.Answered then None else Some(StageNumber(d.stage)))
            && (d.stage != RenameSteps.Answered ==> CmdOf(k, d).CurrentSlot() == d.slot as nat)
    decreases |replies|
  {
    hide RenameSteps.OnReply, T.NextStage, BodyOf;
    if replies != [] {
      var d := RenameSteps.OnReply(k, c, replies[0].0, replies[0].1);
      RenameStepAgrees(k, c, replies[0].0, replies[0].1);
      if d.stage == RenameSteps.Answered {
        AnsweredStays(k, d, replies[1..]);
      } else {
        RenameAgrees(k, d, replies[1..]);
      }
    }
  }

  // ----- what a read brings -----

  lemma {:induction false} OutputAt<O>(out: Message -> O, ms: seq<Message>, j: nat, i: nat)
    requires i < j <= |ms|
    ensures |Outputs(out, ms, j)| == j && Outputs(out, ms, j)[i] == out(ms[i])
    decreases j
  {
    if j == 1 {
    } else if i == 0 {
      OutputAt(out, ms[1..], j - 1, 0);
    } else {
      OutputAt(out, ms[1..], j - 1, i - 1);
    }
  }

  /** The requests that a read gives the thread: on any prefix of a stream of requests, the commands of
      each whole one, in order. */
  lemma RequestsRead(table: Text -> ClientRequests.Kind, buf: Text, ms: seq<Message>, i: nat)
    requires AllWellFormed(ms) && ClientSplitter.AllRequests(table, ms) && Carries(buf, 0, ms)
    requires i < Whole(ms, |buf|)
    ensures var read := AllPlans(ClientSplitter.SplitClient(table, buf).0);
            |read| == Whole(ms, |buf|) && read[i] == PlansOf(ClientRequests.RequestOf(table, ms[i]))
  {
    hide ClientSplitter.SplitClient, ClientRequests.RequestOf, PlansOf, Carries, ClientSplitter.AllRequests, Whole;
    ClientSplitter.ClientSplits(table, buf, ms);
    OutputAt(m => ClientRequests.RequestOf(table, m), ms, Whole(ms, |buf|), i);
  }

  /** The event of reading a buffer */
  function ReadOf(table: Text -> ClientRequests.Kind, buf: Text, c: T.ClientId): T.Event {
    T.Ready(c, Some(AllPlans(ClientSplitter.SplitClient(table, buf).0)), None)
  }

  /** Reading a prefix of a stream of requests, whatever the client awaits: one group arrives for each whole
      request, in order, and has the commands that request needs, each by a slot of the table. */
  lemma ReadPushes(table: Text -> ClientRequests.Kind, buf: Text, ms: seq<Message>, s: T.State, c: T.ClientId, i: nat)
    requires AllWellFormed(ms) && ClientSplitter.AllRequests(table, ms) && Carries(buf, 0, ms)
    requires ThreadSafety.Safe(s) && T.Listening(s, c) && i < Whole(ms, |buf|)
    ensures var t := T.Apply(s, ReadOf(table, buf, c));
            var plans := PlansOf(ClientRequests.RequestOf(table, ms[i]));
            && c in t.clients && t.clients[c].arrived == s.clients[c].arrived + Reading.Numbered(s.nextGroup, Whole(ms, |buf|))
            && Reading.Waits(t.groups, c, s.nextGroup + i, plans) && AllInTable(plans)
  {
    hide ClientSplitter.SplitClient, ClientRequests.RequestOf, PlansOf, Carries, ClientSplitter.AllRequests, Whole, AllPlans, AllInTable,
         ThreadSafety.Safe, T.Apply, Reading.Waits;
    RequestsRead(table, buf, ms, i);
    Reading.ReadEvent(s, c, AllPlans(ClientSplitter.SplitClient(table, buf).0));
    RequestInTable(table, ms[i]);
  }

  /** When a bad byte follows some requests, they arrive all the same, unissued, before the client closes. */
  lemma GarblePushes(table: Text -> ClientRequests.Kind, buf: Text, ms: seq<Message>, s: T.State, c: T.ClientId, i: nat)
    requires AllWellFormed(ms) && ClientSplitter.AllRequests(table, ms) && Garbled(buf, 0, ms)
    requires ThreadSafety.Safe(s) && T.Listening(s, c) && i < |ms|
    ensures var t := T.Apply(s, T.Garble(c, AllPlans(ClientSplitter.SplitClient(table, buf).0)));
            var plans := PlansOf(ClientRequests.RequestOf(table, ms[i]));
            && c in t.clients && t.clients[c].closed && t.clients[c].arrived == s.clients[c].arrived + Reading.Numbered(s.nextGroup, |ms|)
            && Reading.Waits(t.groups, c, s.nextGroup + i, plans) && Reading.Unissued(t.groups, s.nextGroup + i)
  {
    hide ClientSplitter.SplitClient, ClientRequests.RequestOf, PlansOf, ClientSplitter.AllRequests, ThreadSafety.Safe,
         Reading.Waits, T.PushGroups;
    ClientSplitter.GarbledSplits(table, buf, ms);
    OutputAt(m => ClientRequests.RequestOf(table, m), ms, |ms|, i);
    var requests := AllPlans(ClientSplitter.SplitClient(table, buf).0);
    ThreadSafety.SafeInvParts(s);
    Reading.GroupsBelow(s);
    Reading.PushedInOrder(s, c, requests);
    assert requests[i] == PlansOf(ClientRequests.RequestOf(table, ms[i]));
  }

  /** The replies that a read gives a server: on any prefix of a stream of replies, what each whole one
      reads as, in order. */
  lemma RepliesRead(buf: Text, ms: seq<Message>, i: nat)
    requires AllWellFormed(ms) && Carries(buf, 0, ms) && i < Whole(ms, |buf|)
    ensures var received := Bodies(Responses.SplitServer(buf).0);
            |received| == Whole(ms, |buf|) && received[i] == BodyOf(Responses.Reply(ms[i]))
  {
    hide Responses.SplitServer, Responses.Reply, BodyOf, Carries, Whole;
    Responses.ServerSplits(buf, ms);
    OutputAt(Responses.Reply, ms, Whole(ms, |buf|), i);
  }
}
