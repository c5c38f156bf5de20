/** The client side of the splitter as it runs: fields updated string by string, and loops that build
    the commands of each node. */
module ClientLoop {
  import opened Bytes
  import opened SlotCalc
  import opened SplitterModel
  import opened Splitter
  import opened Commands
  import opened ClientRequests
  import opened ClientSplitter

  /** `on_str` of the parser under way */
  method HandString(buf: Text, p: Parser, begin: nat, end: nat) returns (q: Parser)
    ensures q == OnStr(buf, p, begin, end)
  {
    hide Slot, Slice;
    var key := Slice(buf, begin, end);
    match p
    case EachKey(kind, points, slots) =>
      var slot := SlotOf(key);
      q := EachKey(kind, points + [end + 2], slots + [slot]);
    case Pairs(points, slots, currentIsKey) =>
      var slots' := slots;
      if currentIsKey {
        var slot := SlotOf(key);
        slots' := slots + [slot];
      }
      q := Pairs(points + [end + 2], slots', !currentIsKey);
    case Renaming(from, points, keys, bad) =>
      if |keys| == 2 {
        q := p.(bad := true);
      } else {
        q := Renaming(from, points + [end + 2], keys + [key], bad);
      }
  }

  /** The loop of `EachKeyCommandParser::spawn_commands` */
  method SpawnKeys(buf: Text, name: Text, points: seq<nat>, slots: seq<bv16>) returns (subs: seq<Sub>)
    ensures subs == KeySubs(buf, name, points, slots)
  {
    hide Header, Span;
    subs := [];
    for i := 0 to |slots|
      invariant |subs| == i && subs == KeySubs(buf, name, points, slots)[..i]
    {
      var b := Header(2, name);
      b := b + Span(buf, points, i, i + 1);
      subs := subs + [Sub(b, slots[i])];
    }
  }

  /** The loop of `MSetCommandParser::spawn_commands` */
  method SpawnPairs(buf: Text, points: seq<nat>, slots: seq<bv16>) returns (subs: seq<Sub>)
    ensures subs == PairedSubs(buf, points, slots)
  {
    hide Header, Span;
    subs := [];
    for i := 0 to |slots|
      invariant |subs| == i && subs == PairedSubs(buf, points, slots)[..i]
    {
      var b := Header(3, SET);
      b := b + Span(buf, points, i * 2, i * 2 + 2);
      subs := subs + [Sub(b, slots[i])];
    }
  }

  /** `spawn_commands` */
  method SpawnCommands(buf: Text, p: Parser) returns (r: Request)
    ensures r == Spawn(buf, p)
  {
    hide Slot, Slice, Span, KeySubs, PairedSubs, WrongArguments;
    match p
    case EachKey(kind, points, slots) =>
      if slots == [] {
        return Answer(WrongArguments(kind));
      }
      var subs := SpawnKeys(buf, if kind == MGet then GET else DEL, points, slots);
      r := Fan(kind, subs);
    case Pairs(points, slots, currentIsKey) =>
      if slots == [] || !currentIsKey {
        return Answer(WrongArguments(MSet));
      }
      var subs := SpawnPairs(buf, points, slots);
      r := Fan(MSet, subs);
    case Renaming(begin, points, keys, bad) =>
      if |keys| != 2 || bad {
        return Answer(WrongArguments(Rename));
      }
      var source := SlotOf(keys[0]);
      var target := SlotOf(keys[1]);
      if source == target {
        return Single(Slice(buf, begin, if |points| == 3 then points[2] else 0), source);
      }
      r := TwoSlots(Span(buf, points, 0, 1), Span(buf, points, 1, 2), source, target);
  }

  class ClientCommandSplitter {
    const buf: Text
    const table: Text -> Kind
    const slotCalc: KeySlotCalc
    var mode: Mode
    var lastCommandBegin: nat
    var lastCommandIsBad: bool
    var requests: seq<Request>

    ghost function View(): Consumer
      reads this, slotCalc
    {
      Consumer(mode, lastCommandBegin, slotCalc.key, lastCommandIsBad, requests)
    }

    constructor (buf: Text, table: Text -> Kind)
      ensures this.buf == buf && this.table == table && fresh(slotCalc) && slotCalc.Valid()
      ensures View() == Fresh(0, [])
    {
      this.buf, this.table := buf, table;
      mode, lastCommandBegin, lastCommandIsBad, requests := Head, 0, false, [];
      slotCalc := new KeySlotCalc();
    }

    /** `on_command_key` */
    method OnCommandKey(begin: nat, end: nat)
      requires mode == Key && slotCalc.Valid()
      modifies this, slotCalc
      ensures slotCalc.Valid() && View() == OnString(table, buf, old(View()), begin, end)
    {
      lastCommandIsBad, mode := false, Nop;
      FeedKey(Slice(buf, begin, end));
    }

    method FeedKey(key: Text)
      requires slotCalc.Valid()
      modifies slotCalc
      ensures slotCalc.Valid() && slotCalc.key == old(slotCalc.key) + key
    {
      for i := 0 to |key|
        modifies slotCalc
        invariant slotCalc.Valid() && slotCalc.key == old(slotCalc.key) + key[..i]
      {
        Assoc(old(slotCalc.key), key[..i], [key[i]]);
        assert key[..i + 1] == key[..i] + [key[i]];
        slotCalc.NextByte(key[i]);
      }
      assert key[..|key|] == key;
    }

    /** `select_command_parser` */
    method SelectCommandParser(begin: nat, end: nat)
      modifies this
      ensures View() == Select(table, buf, old(View()), begin, end)
    {
      hide Slice, UpperText;
      match table(UpperText(Slice(buf, begin, end)))
      case Standard => lastCommandIsBad, mode := true, Key;
      case MGet => mode := Special(EachKey(MGet, [end + 2], []));
      case Del => mode := Special(EachKey(Del, [end + 2], []));
      case MSet => mode := Special(Pairs([end + 2], [], true));
      case Rename => mode := Special(Renaming(lastCommandBegin, [end + 2], [], false));
      case _ => lastCommandIsBad, mode := true, Nop;
    }

    method OnStringPart(begin: nat, end: nat)
      requires slotCalc.Valid()
      modifies this, slotCalc
      ensures slotCalc.Valid() && View() == OnString(table, buf, old(View()), begin, end)
    {
      hide Select, OnStr;
      match mode
      case Head => SelectCommandParser(begin, end);
      case Key => OnCommandKey(begin, end);
      case Nop =>
      case Special(p) =>
        var q := HandString(buf, p, begin, end);
        mode := Special(q);
    }

    method OnSplitPoint(next: nat)
      requires slotCalc.Valid()
      modifies this, slotCalc
      ensures slotCalc.Valid() && View() == OnSplit(buf, old(View()), next)
    {
      hide Spawn, Slice, Slot, UnknownCommand;
      var request;
      if lastCommandIsBad {
        request := Answer(UnknownCommand());
      } else if !mode.Special? {
        var slot := slotCalc.GetSlot();
        request := Single(Slice(buf, lastCommandBegin, next), slot);
      } else {
        request := SpawnCommands(buf, mode.parser);
      }
      requests := requests + [request];
      mode, lastCommandBegin, lastCommandIsBad := Head, next, false;
      slotCalc.Reset();
    }
  }

  /** `split_client_command`: when a bad byte is met, the requests before it have been pushed. */
  method SplitClientCommand(table: Text -> Kind, buf: Text) returns (thrown: bool, requests: seq<Request>, rest: Text)
    ensures thrown <==> SplitAll(buf).Bad? || SplitAll(buf).Undefined?
    ensures (requests, rest) == SplitClient(table, buf)
  {
    hide OnString, OnSplit, SplitFrom, Kept, SlotCalc.OpenAt, SlotCalc.CloseAt;
    var s, o := SplitBy(buf);
    if o.OutOfRange? {
      return true, [], buf;
    }
    var c := new ClientCommandSplitter(buf, table);
    ghost var all := ConsumeAll(table, buf, c.View(), s.notices);
    assert s.notices[0..] == s.notices;
    for i := 0 to |s.notices|
      modifies c, c.slotCalc
      invariant c.slotCalc.Valid()
      invariant ConsumeAll(table, buf, c.View(), s.notices[i..]) == all
    {
      assert s.notices[i..][1..] == s.notices[i + 1..];
      match s.notices[i] {
        case Str(begin, end) => c.OnStringPart(begin, end);
        case Split(next) => c.OnSplitPoint(next);
        case _ =>
      }
    }
    if o.BadMessage? {
      return true, c.requests, buf;
    }
    var kept := s.Rest(buf, o);
    return false, c.requests, kept;
  }
}
