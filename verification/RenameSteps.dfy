/** RENAME across two slots: GET, then SET, then DEL, one at a time. */
module RenameSteps {
  import opened Options
  import opened Bytes
  import opened Resp
  import opened DecimalText
  import opened Commands
  import opened ClientRequests
  import opened ClientSplitter
  import opened FanoutGroups
  import F = Fanout
  import SlotCalc

  const NIL_REPLY: Text := [36, 45, 49, 13, 10]

  function NoSuchKey(): Text {
    Ascii("-ERR no such key\r\n")
  }

  function OkReply(): Text {
    Encode(Simple([79, 75]))
  }

  // ----- the command -----

  datatype Stage = Getting | Setting | Deleting | Answered

  /** What is sent next, where it goes, and which reply is awaited; at the end the buffer is the
      client's reply. */
  datatype Command = Command(stage: Stage, buffer: Text, slot: bv16)

  datatype Keys = Keys(oldKey: Text, newKey: Text, oldSlot: bv16, newSlot: bv16)

  function Begin(k: Keys): Command {
    Command(Getting, Header(2, GET) + k.oldKey, k.oldSlot)
  }

  /** `on_rsp`: a reply, or an error, for what was sent */
  function OnReply(k: Keys, c: Command, rsp: Text, error: bool): Command {
    match c.stage
    case Getting =>
      if error then c.(stage := Answered, buffer := rsp)
      else if rsp == NIL_REPLY then c.(stage := Answered, buffer := NoSuchKey())
      else Command(Setting, Header(3, SET) + k.newKey + rsp, k.newSlot)
    case Setting =>
      if error then c.(stage := Answered, buffer := rsp) else Command(Deleting, Header(2, DEL) + k.oldKey, k.oldSlot)
    case Deleting => c.(stage := Answered, buffer := OkReply())
    case Answered => c
  }

  /** `RenameCommand` */
  class RenameCommand {
    const keys: Keys
    var stage: Stage
    var buffer: Text
    var currentKeySlot: bv16

    ghost function View(): Command
      reads this
    {
      Command(stage, buffer, currentKeySlot)
    }

    constructor (keys: Keys)
      ensures this.keys == keys && View() == Begin(keys)
    {
      this.keys := keys;
      stage, currentKeySlot := Getting, keys.oldSlot;
      buffer := Header(2, GET) + keys.oldKey;
    }

    method RspGet(rsp: Text, error: bool)
      requires stage == Getting
      modifies this
      ensures View() == OnReply(keys, old(View()), rsp, error)
    {
      hide Header, NoSuchKey;
      if error {
        buffer, stage := rsp, Answered;
        return;
      }
      if rsp == NIL_REPLY {
        buffer, stage := NoSuchKey(), Answered;
        return;
      }
      buffer := Header(3, SET);
      buffer := buffer + keys.newKey;
      buffer := buffer + rsp;
      currentKeySlot, stage := keys.newSlot, Setting;
    }

    method RspSet(rsp: Text, error: bool)
      requires stage == Setting
      modifies this
      ensures View() == OnReply(keys, old(View()), rsp, error)
    {
      hide Header;
      if error {
        buffer, stage := rsp, Answered;
        return;
      }
      buffer := Header(2, DEL);
      buffer := buffer + keys.oldKey;
      currentKeySlot, stage := keys.oldSlot, Deleting;
    }

    /** `on_remote_responsed` */
    method OnRemoteResponsed(rsp: Text, error: bool)
      requires stage != Answered
      modifies this
      ensures View() == OnReply(keys, old(View()), rsp, error)
    {
      hide Header, NoSuchKey, OkReply;
      match stage
      case Getting => RspGet(rsp, error);
      case Setting => RspSet(rsp, error);
      case Deleting => buffer, stage := OkReply(), Answered;
    }
  }

  // ----- the nodes -----

  /** A node runs what it reads, or fails with an error and does nothing. */
  datatype Turn = Runs | Fails(error: Text)

  /** The store, the reply's bytes, and whether it is an error */
  function NodeTurn(s: F.Store, bytes: Text, turn: Turn): (F.Store, Text, bool) {
    match turn
    case Fails(error) => (s, Encode(Error(error)), error != [])
    case Runs =>
      match NodeReads(bytes)
      case None => (s, Encode(Error(Ascii("ERR syntax error"))), true)
      case Some(op) =>
        var v := F.Lookup(s, op.key);
        (F.Update(s, op.key, F.Effect(v, op)), ReplyBytes(F.Answer(v, op)), false)
  }

  /** The command under way and the stores, after one round trip */
  function RoundTrip(k: Keys, c: Command, s: F.Store, turn: Turn): (Command, F.Store) {
    if c.stage == Answered then (c, s)
    else
      var (t, rsp, error) := NodeTurn(s, c.buffer, turn);
      (OnReply(k, c, rsp, error), t)
  }

  /** RENAME with nothing else going on: three round trips at most */
  function Outcome(k: Keys, s: F.Store, get: Turn, set_: Turn, del: Turn): (Command, F.Store) {
    var (c1, s1) := RoundTrip(k, Begin(k), s, get);
    var (c2, s2) := RoundTrip(k, c1, s1, set_);
    RoundTrip(k, c2, s2, del)
  }

  // ----- what is sent reads back -----

  function KeysOf(a: Message, b: Message, oldSlot: bv16, newSlot: bv16): Keys {
    Keys(Encode(a), Encode(b), oldSlot, newSlot)
  }

  lemma OneKeyReads(name: Text, a: Message)
    requires |name| == 3 && a.Bulk? && WellFormed(a)
    ensures NodeReads(Header(2, name) + Encode(a)) == Meaning([name, a.body])
  {
    hide NodeReads, Encode, Meaning, Header;
    HeaderEncodes(name, [a]);
    ItemAlone(a);
    NodeCommandReads(name, [a]);
    assert Bodies([a]) == [a.body] && [name] + [a.body] == [name, a.body];
  }

  /** The bytes of the SET are read as the new key and exactly the value that was read. */
  lemma SetReads(b: Message, value: Message)
    requires b.Bulk? && value.Bulk? && WellFormed(b) && WellFormed(value)
    ensures NodeReads(Header(3, SET) + Encode(b) + Encode(value)) == Some(F.Set(b.body, value.body))
  {
    hide NodeReads, Encode, Header;
    HeaderEncodes(SET, [b, value]);
    ItemAlone(value);
    ItemsAfter(b, [value]);
    assert [b] + [value] == [b, value];
    Assoc(Header(3, SET), Encode(b), Encode(value));
    NodeCommandReads(SET, [b, value]);
    assert [SET] + Bodies([b, value]) == [SET, b.body, value.body];
  }

  lemma GetReads(a: Message)
    requires a.Bulk? && WellFormed(a)
    ensures NodeReads(Header(2, GET) + Encode(a)) == Some(F.Get(a.body))
  {
    hide NodeReads, Encode, Header;
    OneKeyReads(GET, a);
  }

  lemma DelReads(a: Message)
    requires a.Bulk? && WellFormed(a)
    ensures NodeReads(Header(2, DEL) + Encode(a)) == Some(F.Del(a.body))
  {
    hide NodeReads, Encode, Header;
    OneKeyReads(DEL, a);
  }

  lemma NilBytes()
    ensures ReplyBytes(F.Value(None)) == NIL_REPLY
  {
  }

  lemma ValueBytes(v: Text)
    ensures WellFormed(BulkOf(v)) && ReplyBytes(F.Value(Some(v))) == Encode(BulkOf(v)) && Encode(BulkOf(v)) != NIL_REPLY
  {
    NumeralReads(|v|);
    hide Numeral;
    DigitsNoCr(Numeral(|v|));
    assert Encode(BulkOf(v)) == [DOLLAR] + (Numeral(|v|) + CRLF) + (v + CRLF);
    assert Encode(BulkOf(v))[1] == Numeral(|v|)[0];
  }

  // ----- RENAME, all at once -----

  /** `RENAME old new` on one store of strings */
  function Atomic(s: F.Store, old_: Text, new_: Text): (Text, F.Store) {
    if old_ !in s then (NoSuchKey(), s) else (OkReply(), (s - {old_})[new_ := s[old_]])
  }

  lemma GetTurn(k: Keys, s: F.Store, a: Message, b: Message)
    requires a.Bulk? && WellFormed(a) && k == KeysOf(a, b, k.oldSlot, k.newSlot)
    ensures RoundTrip(k, Begin(k), s, Runs) ==
              if a.body in s then (Command(Setting, Header(3, SET) + k.newKey + Encode(BulkOf(s[a.body])), k.newSlot), s)
              else (Command(Answered, NoSuchKey(), k.oldSlot), s)
  {
    hide NodeReads, Encode, Header, ReplyBytes, NoSuchKey, BulkOf;
    GetReads(a);
    NilBytes();
    var v := F.Lookup(s, a.body);
    assert F.Update(s, a.body, v) == s;
    if a.body in s {
      ValueBytes(s[a.body]);
    }
  }

  lemma SetTurn(k: Keys, s: F.Store, a: Message, b: Message, v: Text)
    requires b.Bulk? && WellFormed(b) && k == KeysOf(a, b, k.oldSlot, k.newSlot)
    ensures RoundTrip(k, Command(Setting, Header(3, SET) + k.newKey + Encode(BulkOf(v)), k.newSlot), s, Runs) ==
              (Command(Deleting, Header(2, DEL) + k.oldKey, k.oldSlot), s[b.body := v])
  {
    hide NodeReads, Encode, Header, ReplyBytes, BulkOf;
    ValueBytes(v);
    BulkBody(v);
    SetReads(b, BulkOf(v));
  }

  lemma BulkBody(v: Text)
    ensures BulkOf(v).Bulk? && BulkOf(v).body == v
  {
  }

  lemma DelTurn(k: Keys, s: F.Store, a: Message, b: Message)
    requires a.Bulk? && WellFormed(a) && k == KeysOf(a, b, k.oldSlot, k.newSlot)
    ensures RoundTrip(k, Command(Deleting, Header(2, DEL) + k.oldKey, k.oldSlot), s, Runs) ==
              (Command(Answered, OkReply(), k.oldSlot), s - {a.body})
  {
    hide NodeReads, Encode, Header, ReplyBytes, OkReply;
    DelReads(a);
  }

  lemma AnsweredStays(k: Keys, c: Command, s: F.Store)
    requires c.stage == Answered
    ensures forall turn :: RoundTrip(k, c, s, turn) == (c, s)
  {
  }

  lemma FailedTurn(k: Keys, c: Command, s: F.Store, error: Text)
    requires error != [] && c.stage != Answered
    ensures RoundTrip(k, c, s, Fails(error)) ==
              (Command(Answered, if c.stage == Deleting then OkReply() else Encode(Error(error)), c.slot), s)
  {
    hide Encode, OkReply;
  }

  ghost predicate Real(turn: Turn) {
    turn.Fails? ==> turn.error != []
  }

  /** Every way the three round trips can go. */
  lemma RenameOutcomes(k: Keys, s: F.Store, a: Message, b: Message, get: Turn, set_: Turn, del: Turn)
    requires a.Bulk? && b.Bulk? && WellFormed(a) && WellFormed(b) && k == KeysOf(a, b, k.oldSlot, k.newSlot)
    requires Real(get) && Real(set_) && Real(del)
    ensures var (c, t) := Outcome(k, s, get, set_, del);
            && c.stage == Answered
            && (get.Fails? ==> (c.buffer, t) == (Encode(Error(get.error)), s))
            && (get.Runs? && a.body !in s ==> (c.buffer, t) == (NoSuchKey(), s))
            && (get.Runs? && a.body in s && set_.Fails? ==> (c.buffer, t) == (Encode(Error(set_.error)), s))
            && (get.Runs? && a.body in s && set_.Runs? ==>
                  (c.buffer, t) == (OkReply(), if del.Runs? then s[b.body := s[a.body]] - {a.body} else s[b.body := s[a.body]]))
  {
    hide RoundTrip, Encode, Header, OkReply, NoSuchKey, BulkOf, WellFormed;
    var c0 := Begin(k);
    if get.Fails? {
      FailedTurn(k, c0, s, get.error);
      AnsweredStays(k, Command(Answered, Encode(Error(get.error)), k.oldSlot), s);
      return;
    }
    GetTurn(k, s, a, b);
    if a.body !in s {
      AnsweredStays(k, Command(Answered, NoSuchKey(), k.oldSlot), s);
      return;
    }
    var c1 := Command(Setting, Header(3, SET) + k.newKey + Encode(BulkOf(s[a.body])), k.newSlot);
    if set_.Fails? {
      FailedTurn(k, c1, s, set_.error);
      AnsweredStays(k, Command(Answered, Encode(Error(set_.error)), k.newSlot), s);
      return;
    }
    var s2 := s[b.body := s[a.body]];
    SetTurn(k, s, a, b, s[a.body]);
    if del.Fails? {
      FailedTurn(k, Command(Deleting, Header(2, DEL) + k.oldKey, k.oldSlot), s2, del.error);
    } else {
      DelTurn(k, s2, a, b);
    }
  }

  /** With no other writer and no failure, a RENAME whose keys are in two slots is one RENAME: the reply
      and the store are those of the atomic command, and a missing key changes nothing. */
  lemma RenameIsAtomic(table: Text -> Kind, m: Message, s: F.Store)
    requires IsRequest(table, m) && WellFormed(m) && |m.items| == 3 && table(UpperText(m.items[0].body)) == Rename
    requires RequestOf(table, m).TwoSlots?
    ensures var r := RequestOf(table, m); var k := Keys(r.oldKey, r.newKey, r.oldSlot, r.newSlot);
            var (c, t) := Outcome(k, s, Runs, Runs, Runs);
            c.stage == Answered && (c.buffer, t) == Atomic(s, m.items[1].body, m.items[2].body)
  {
    hide Outcome, Encode, OkReply, NoSuchKey, UpperText, RequestOf;
    var r, a, b := RequestOf(table, m), m.items[1], m.items[2];
    TwoKeys(table, m);
    RenameOutcomes(Keys(r.oldKey, r.newKey, r.oldSlot, r.newSlot), s, a, b, Runs, Runs, Runs);
    if a.body in s {
      MoveKey(s, a.body, b.body);
    }
  }

  lemma TwoKeys(table: Text -> Kind, m: Message)
    requires IsRequest(table, m) && |m.items| == 3 && table(UpperText(m.items[0].body)) == Rename
    requires RequestOf(table, m).TwoSlots?
    ensures var r, a, b := RequestOf(table, m), m.items[1], m.items[2];
            r.oldKey == Encode(a) && r.newKey == Encode(b) && a.body != b.body
  {
    hide Encode, UpperText, SlotCalc.Slot;
    assert m.items[1..][0] == m.items[1] && m.items[1..][1] == m.items[2];
  }

  lemma MoveKey(s: F.Store, a: Text, b: Text)
    requires a in s && a != b
    ensures s[b := s[a]] - {a} == (s - {a})[b := s[a]]
  {
  }

  /** Once the value has been written the client is told OK; the key is renamed if and only if the DEL
      does not fail, whose error the command ignores. */
  lemma ToldOkRenamedIff(k: Keys, s: F.Store, a: Message, b: Message, del: Turn)
    requires a.Bulk? && b.Bulk? && WellFormed(a) && WellFormed(b) && k == KeysOf(a, b, k.oldSlot, k.newSlot)
    requires a.body in s && a.body != b.body && Real(del)
    ensures var (c, t) := Outcome(k, s, Runs, Runs, del);
            c.buffer == OkReply() && (t == Atomic(s, a.body, b.body).1 <==> del.Runs?)
  {
    hide Outcome, Encode, OkReply, NoSuchKey, WellFormed;
    RenameOutcomes(k, s, a, b, Runs, Runs, del);
    var t := s[b.body := s[a.body]];
    MoveKey(s, a.body, b.body);
    assert a.body in t && a.body !in t - {a.body};
  }

  /** The error of a DEL is hidden from the client. */
  lemma FailedDelHidden()
    ensures var a, b, s := BulkOf([97]), BulkOf([98]), map[[97] := [49]];
            var (c, t) := Outcome(KeysOf(a, b, 0, 1), s, Runs, Runs, Fails([69]));
            c.buffer == OkReply() && t == map[[97] := [49], [98] := [49]]
  {
    hide Outcome, Encode, OkReply, NoSuchKey;
    var a, b, s := BulkOf([97]), BulkOf([98]), map[[97] := [49]];
    ValueBytes([97]);
    ValueBytes([98]);
    RenameOutcomes(KeysOf(a, b, 0, 1), s, a, b, Runs, Runs, Fails([69]));
  }

  /** "+OK\r\n", and an error for a key that is not there */
  lemma RepliesSpelled()
    ensures OkReply() == [43, 79, 75, 13, 10] && ReplyBytes(F.Ok) == [43, 79, 75, 13, 10]
    ensures exists text :: NoSuchKey() == Encode(Error(text))
  {
    hide Ascii;
    LineIsError("-ERR no such key\r\n");
  }
}
