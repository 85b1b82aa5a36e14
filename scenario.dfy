/**
 * A client of the dispatcher: two components subscribe, the watcher reports
 * that "md" starts and stops matching, and both components leave again.
 * Everything below follows from the contracts of `Observer` alone.
 */
module Scenario {
  import opened Tokens
  import opened ResponsiveObserve

  /** The first two tokens issued. */
  lemma FirstTokens()
    ensures DecimalString(0) == "0" && DecimalString(1) == "1"
  {
  }

  /** Dispatching to one or two subscribers. */
  lemma SmallFanOuts(ea: Entry, eb: Entry, s: Screens)
    ensures FanOut([ea], s) == [Delivery(ea, s)]
    ensures FanOut([ea, eb], s) == [Delivery(eb, s), Delivery(ea, s)]
  {
  }

  /** The first component subscribes, then "md" starts matching. */
  method JoinFirst(a: Callback) returns (o: Observer, t0: string)
    ensures fresh(o) && o.Valid()
    ensures t0 == "0" && o.subUid == 0
    ensures o.subscribers == [Entry(0, a)]
    ensures o.screens == map[Md := true]
    ensures o.deliveries == [Delivery(Entry(0, a), map[]), Delivery(Entry(0, a), map[Md := true])]
    ensures o.watcherLog == Registrations(MapKeys)
  {
    FirstTokens();
    o := new Observer();
    SmallFanOuts(Entry(0, a), Entry(0, a), map[Md := true]);
    t0 := o.Subscribe(a);
    o.Match(Md);
  }

  /** The second component subscribes while "md" matches, then "md" stops matching. */
  method JoinSecond(o: Observer, a: Callback, b: Callback) returns (t1: string)
    requires o.Valid() && o.subUid == 0
    requires o.subscribers == [Entry(0, a)]
    requires o.screens == map[Md := true]
    requires o.deliveries == [Delivery(Entry(0, a), map[]), Delivery(Entry(0, a), map[Md := true])]
    requires o.watcherLog == Registrations(MapKeys)
    modifies o
    ensures o.Valid() && t1 == "1"
    ensures o.subscribers == [Entry(0, a), Entry(1, b)]
    ensures o.deliveries == [
      Delivery(Entry(0, a), map[]),
      Delivery(Entry(0, a), map[Md := true]),
      Delivery(Entry(1, b), map[Md := true]),
      Delivery(Entry(1, b), map[Md := false]),
      Delivery(Entry(0, a), map[Md := false])
    ]
    ensures o.watcherLog == Registrations(MapKeys)
  {
    FirstTokens();
    var ea, eb := Entry(0, a), Entry(1, b);
    var m1, m0 := map[Md := true], map[Md := false];
    SmallFanOuts(ea, eb, m0);
    t1 := o.Subscribe(b);
    ghost var log2 := o.deliveries;
    assert log2 == [Delivery(ea, map[]), Delivery(ea, m1), Delivery(eb, m1)];
    o.Unmatch(Md);
    assert o.screens == m0;
    assert o.deliveries == log2 + [Delivery(eb, m0), Delivery(ea, m0)];
  }

  /** The whole session: tokens "0" and "1", the later subscriber served
      first, one registration round and one unregistration round. */
  method TwoSubscribers(a: Callback, b: Callback) returns (t0: string, t1: string, log: seq<Delivery>, calls: seq<WatcherCall>)
    ensures t0 == "0" && t1 == "1"
    ensures log == [
      Delivery(Entry(0, a), map[]),
      Delivery(Entry(0, a), map[Md := true]),
      Delivery(Entry(1, b), map[Md := true]),
      Delivery(Entry(1, b), map[Md := false]),
      Delivery(Entry(0, a), map[Md := false])
    ]
    ensures calls == Registrations(MapKeys) + Unregistrations(MapKeys)
  {
    var o;
    o, t0 := JoinFirst(a);
    t1 := JoinSecond(o, a, b);
    var ea, eb := Entry(0, a), Entry(1, b);
    o.Unsubscribe(t0);
    assert RemoveToken([ea, eb], t0) == [eb] by {
      assert ea.Token() == t0;
      assert eb.Token() == t1;
      assert [ea, eb][1..] == [eb];
      assert [eb][1..] == [];
    }
    assert o.watcherLog == Registrations(MapKeys);
    o.Unsubscribe(t1);
    assert RemoveToken([eb], t1) == [];
    log, calls := o.deliveries, o.watcherLog;
  }
}
