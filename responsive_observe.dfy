/**
 * The responsive breakpoint dispatcher: a fixed table of six screen-size
 * breakpoints and their media queries, the last-known "screens" state, and a
 * list of subscribers that receive every new state.
 *
 * The media-query watcher the dispatcher talks to is reduced to a log of the
 * register and unregister calls it receives; the queries it currently
 * watches are read off that log. Subscriber callbacks are observers: what
 * they receive is recorded in a delivery log.
 */
module ResponsiveObserve {
  import opened Tokens

  // ---------------------------------------------------------------------
  // Breakpoints and the query table
  // ---------------------------------------------------------------------

  datatype Breakpoint = Xxl | Xl | Lg | Md | Sm | Xs

  /** The exported breakpoint list, largest first. */
  const ResponsiveArray: seq<Breakpoint> := [Xxl, Xl, Lg, Md, Sm, Xs]

  /** The keys of the query table in their declaration order, smallest first;
      `register` and `unregister` walk the table in this order. */
  const MapKeys: seq<Breakpoint> := [Xs, Sm, Md, Lg, Xl, Xxl]

  /** The media query of each breakpoint. */
  function ResponsiveMap(b: Breakpoint): string {
    match b
    case Xs => "(max-width: 575px)"
    case Sm => "(min-width: 576px)"
    case Md => "(min-width: 768px)"
    case Lg => "(min-width: 992px)"
    case Xl => "(min-width: 1200px)"
    case Xxl => "(min-width: 1600px)"
  }

  /** The queries of the given breakpoints. */
  function QuerySet(keys: seq<Breakpoint>): set<string> {
    set b | b in keys :: ResponsiveMap(b)
  }

  /** Every query the dispatcher registers. */
  function AllQueries(): set<string> {
    QuerySet(MapKeys)
  }

  /** Both orders list every breakpoint exactly once, one the reverse of the
      other, and no two breakpoints share a query. */
  lemma BreakpointTables()
    ensures |MapKeys| == |ResponsiveArray| == 6
    ensures forall b: Breakpoint :: b in MapKeys && b in ResponsiveArray
    ensures forall i, j :: 0 <= i < j < |MapKeys| ==> MapKeys[i] != MapKeys[j]
    ensures forall i :: 0 <= i < 6 ==> ResponsiveArray[i] == MapKeys[5 - i]
    ensures forall b, c: Breakpoint :: b != c ==> ResponsiveMap(b) != ResponsiveMap(c)
  {
    forall b: Breakpoint ensures b in MapKeys && b in ResponsiveArray {
      match b
      case Xs => assert MapKeys[0] == Xs;
      case Sm => assert MapKeys[1] == Sm;
      case Md => assert MapKeys[2] == Md;
      case Lg => assert MapKeys[3] == Lg;
      case Xl => assert MapKeys[4] == Xl;
      case Xxl => assert MapKeys[5] == Xxl;
    }
  }

  // ---------------------------------------------------------------------
  // Screens state
  // ---------------------------------------------------------------------

  /** Which breakpoints are known to match; a breakpoint never reported is absent. */
  type Screens = map<Breakpoint, bool>

  /** The spread-merge `{...screens, [b]: v}` of the match and unmatch handlers. */
  function SetScreen(s: Screens, b: Breakpoint, v: bool): (r: Screens)
    ensures r.Keys == s.Keys + {b}
    ensures r[b] == v
    ensures forall k :: k in s && k != b ==> r[k] == s[k]
  {
    s[b := v]
  }

  // ---------------------------------------------------------------------
  // Subscribers, deliveries and watcher calls
  // ---------------------------------------------------------------------

  /** Identifies a subscriber's callback function. */
  type Callback = nat

  /** A subscriber entry. `uid` is the counter value the token was made from. */
  datatype Entry = Entry(uid: nat, func: Callback) {
    function Token(): string {
      DecimalString(uid)
    }
  }

  /** One callback invocation: the entry whose function was called, and its argument. */
  datatype Delivery = Delivery(to: Entry, screens: Screens)

  /** One call into the media-query watcher. */
  datatype WatcherCall = RegisterQuery(query: string) | UnregisterQuery(query: string)

  /** Entries in subscription order carry increasing counter values. */
  ghost predicate UidsIncreasing(subs: seq<Entry>) {
    forall i, j :: 0 <= i < j < |subs| ==> subs[i].uid < subs[j].uid
  }

  /** The invocations of one dispatch of `s`: every entry once, the last
      subscribed first. */
  function FanOut(subs: seq<Entry>, s: Screens): (r: seq<Delivery>)
    ensures |r| == |subs|
    ensures forall k :: 0 <= k < |r| ==> r[k].screens == s
  {
    if subs == [] then [] else FanOut(subs[1..], s) + [Delivery(subs[0], s)]
  }

  /** The k-th invocation of a dispatch goes to the k-th entry counted from the end. */
  lemma {:induction false} FanOutAt(subs: seq<Entry>, s: Screens, k: nat)
    requires k < |subs|
    ensures FanOut(subs, s)[k] == Delivery(subs[|subs| - 1 - k], s)
  {
    if k < |subs| - 1 {
      FanOutAt(subs[1..], s, k);
    }
  }

  /** With distinct entries, entry i is invoked exactly once, at position |subs| - 1 - i. */
  lemma FanOutExactlyOnce(subs: seq<Entry>, s: Screens, i: nat)
    requires UidsIncreasing(subs)
    requires i < |subs|
    ensures forall k :: 0 <= k < |subs| ==> (FanOut(subs, s)[k].to == subs[i] <==> k == |subs| - 1 - i)
  {
    forall k | 0 <= k < |subs|
      ensures FanOut(subs, s)[k].to == subs[i] <==> k == |subs| - 1 - i
    {
      FanOutAt(subs, s, k);
    }
  }

  /** The entries whose token differs from `token`, in their original order:
      what `unsubscribe` keeps. */
  function RemoveToken(subs: seq<Entry>, token: string): (r: seq<Entry>)
    ensures |r| <= |subs|
    ensures forall k :: 0 <= k < |r| ==> r[k] in subs && r[k].Token() != token
  {
    if subs == [] then []
    else if subs[0].Token() != token then [subs[0]] + RemoveToken(subs[1..], token)
    else RemoveToken(subs[1..], token)
  }

  /** The filter keeps every entry that does not hold the token. */
  lemma {:induction false} RemoveTokenKeeps(subs: seq<Entry>, token: string, e: Entry)
    requires e in subs && e.Token() != token
    ensures e in RemoveToken(subs, token)
  {
    if subs[0] != e {
      RemoveTokenKeeps(subs[1..], token, e);
    }
  }

  /** Filtering keeps the entries sorted by their counter values. */
  lemma {:induction false} RemoveTokenIncreasing(subs: seq<Entry>, token: string)
    requires UidsIncreasing(subs)
    ensures UidsIncreasing(RemoveToken(subs, token))
  {
    if subs != [] {
      var rest := RemoveToken(subs[1..], token);
      RemoveTokenIncreasing(subs[1..], token);
      forall k | 0 <= k < |rest| ensures subs[0].uid < rest[k].uid {
        var m :| 0 <= m < |subs[1..]| && subs[1..][m] == rest[k];
        assert subs[m + 1] == rest[k];
      }
    }
  }

  /** Filtering works piecewise, so the kept entries stay in their order. */
  lemma {:induction false} RemoveTokenAppend(a: seq<Entry>, b: seq<Entry>, token: string)
    ensures RemoveToken(a + b, token) == RemoveToken(a, token) + RemoveToken(b, token)
  {
    if a != [] {
      assert (a + b)[1..] == a[1..] + b;
      RemoveTokenAppend(a[1..], b, token);
    } else {
      assert a + b == b;
    }
  }

  /** An unknown token leaves the list unchanged. */
  lemma {:induction false} RemoveAbsentToken(subs: seq<Entry>, token: string)
    requires forall e :: e in subs ==> e.Token() != token
    ensures RemoveToken(subs, token) == subs
  {
    if subs != [] {
      RemoveAbsentToken(subs[1..], token);
    }
  }

  /** A token held by a subscriber removes exactly that one entry. */
  lemma {:induction false} RemoveHeldToken(subs: seq<Entry>, token: string)
    requires UidsIncreasing(subs)
    requires exists e :: e in subs && e.Token() == token
    ensures |RemoveToken(subs, token)| == |subs| - 1
  {
    if subs[0].Token() == token {
      forall e | e in subs[1..] ensures e.Token() != token {
        DecimalStringInjective(e.uid, subs[0].uid);
      }
      RemoveAbsentToken(subs[1..], token);
    } else {
      var e :| e in subs && e.Token() == token;
      assert e in subs[1..];
      RemoveHeldToken(subs[1..], token);
    }
  }

  /** The queries a watcher has registered after receiving the calls in `log`:
      those whose last call is a registration. */
  function WatchedBy(log: seq<WatcherCall>): set<string> {
    if log == [] then {}
    else
      var rest := WatchedBy(log[..|log| - 1]);
      match log[|log| - 1]
      case RegisterQuery(q) => rest + {q}
      case UnregisterQuery(q) => rest - {q}
  }

  /** The calls `register` makes: one per key, in key order. */
  function Registrations(keys: seq<Breakpoint>): (r: seq<WatcherCall>)
    ensures |r| == |keys|
  {
    if keys == [] then [] else Registrations(keys[..|keys| - 1]) + [RegisterQuery(ResponsiveMap(keys[|keys| - 1]))]
  }

  /** The calls `unregister` makes: one per key, in key order. */
  function Unregistrations(keys: seq<Breakpoint>): (r: seq<WatcherCall>)
    ensures |r| == |keys|
  {
    if keys == [] then [] else Unregistrations(keys[..|keys| - 1]) + [UnregisterQuery(ResponsiveMap(keys[|keys| - 1]))]
  }

  /** The k-th registration is of the k-th key's query. */
  lemma {:induction false} RegistrationsAt(keys: seq<Breakpoint>, k: nat)
    requires k < |keys|
    ensures Registrations(keys)[k] == RegisterQuery(ResponsiveMap(keys[k]))
  {
    if k < |keys| - 1 {
      RegistrationsAt(keys[..|keys| - 1], k);
    }
  }

  /** The k-th unregistration is of the k-th key's query. */
  lemma {:induction false} UnregistrationsAt(keys: seq<Breakpoint>, k: nat)
    requires k < |keys|
    ensures Unregistrations(keys)[k] == UnregisterQuery(ResponsiveMap(keys[k]))
  {
    if k < |keys| - 1 {
      UnregistrationsAt(keys[..|keys| - 1], k);
    }
  }

  /** `register` and `unregister` each touch every one of the six queries exactly once. */
  lemma WatcherCallsCover(b: Breakpoint)
    ensures forall k :: 0 <= k < 6 ==>
      (Registrations(MapKeys)[k] == RegisterQuery(ResponsiveMap(b)) <==> MapKeys[k] == b)
    ensures forall k :: 0 <= k < 6 ==>
      (Unregistrations(MapKeys)[k] == UnregisterQuery(ResponsiveMap(b)) <==> MapKeys[k] == b)
  {
    BreakpointTables();
    forall k | 0 <= k < 6
      ensures Registrations(MapKeys)[k] == RegisterQuery(ResponsiveMap(MapKeys[k]))
      ensures Unregistrations(MapKeys)[k] == UnregisterQuery(ResponsiveMap(MapKeys[k]))
    {
      RegistrationsAt(MapKeys, k);
      UnregistrationsAt(MapKeys, k);
    }
  }

  // ---------------------------------------------------------------------
  // The dispatcher
  // ---------------------------------------------------------------------

  class Observer {
    /** The subscriber list, in subscription order. */
    var subscribers: seq<Entry>
    /** The token counter; starts at -1 and is incremented before each use. */
    var subUid: int
    /** The last dispatched state. */
    var screens: Screens
    /** Every call made into the media-query watcher, oldest first. */
    var watcherLog: seq<WatcherCall>
    /** Every callback invocation, oldest first. */
    var deliveries: seq<Delivery>
    /** Every token handed out so far, in order of issue. A derived view of
        the counter (`Valid` fixes it as the numerals of 0 .. subUid), kept to
        state "never issued before" directly. */
    ghost var issued: seq<string>

    ghost predicate Valid()
      reads this
    {
      && subUid >= -1
      && |issued| == subUid + 1
      && (forall i :: 0 <= i < |issued| ==> issued[i] == DecimalString(i))
      && UidsIncreasing(subscribers)
      && (forall i :: 0 <= i < |subscribers| ==> subscribers[i].uid <= subUid)
      && Watched() == (if subscribers == [] then {} else AllQueries())
    }

    /** The queries the watcher has registered, as its log of calls determines. */
    ghost function Watched(): set<string>
      reads this
    {
      WatchedBy(watcherLog)
    }

    /** Every query of the table is registered with the watcher. */
    ghost predicate Registered()
      reads this
    {
      Watched() == AllQueries()
    }

    constructor ()
      ensures Valid()
      ensures subscribers == [] && subUid == -1 && screens == map[]
      ensures watcherLog == [] && deliveries == [] && Watched() == {} && issued == []
    {
      subscribers := [];
      subUid := -1;
      screens := map[];
      watcherLog := [];
      deliveries := [];
      issued := [];
    }

    /** Stores `s` and hands it to every subscriber, the last subscribed first;
        reports whether there was anyone to hand it to. */
    method Dispatch(s: Screens) returns (dispatched: bool)
      requires Valid()
      modifies this`screens, this`deliveries
      ensures Valid()
      ensures screens == s
      ensures dispatched <==> subscribers != []
      ensures deliveries == old(deliveries) + FanOut(subscribers, s)
    {
      screens := s;
      if |subscribers| < 1 {
        return false;
      }
      var len := |subscribers|;
      while len != 0
        invariant 0 <= len <= |subscribers|
        invariant screens == s
        invariant deliveries == old(deliveries) + FanOut(subscribers[len..], s)
        decreases len
      {
        len := len - 1;
        assert subscribers[len..][1..] == subscribers[len + 1..];
        deliveries := deliveries + [Delivery(subscribers[len], s)];
      }
      assert subscribers[0..] == subscribers;
      return true;
    }

    /** Registers every query of the table with the watcher, in key order. */
    method Register()
      modifies this`watcherLog
      ensures watcherLog == old(watcherLog) + Registrations(MapKeys)
      ensures Watched() == old(Watched()) + AllQueries()
    {
      for i := 0 to |MapKeys|
        invariant watcherLog == old(watcherLog) + Registrations(MapKeys[..i])
        invariant WatchedBy(watcherLog) == WatchedBy(old(watcherLog)) + QuerySet(MapKeys[..i])
      {
        var q := ResponsiveMap(MapKeys[i]);
        assert MapKeys[..i + 1][..i] == MapKeys[..i];
        assert QuerySet(MapKeys[..i + 1]) == QuerySet(MapKeys[..i]) + {q};
        assert (watcherLog + [RegisterQuery(q)])[..|watcherLog|] == watcherLog;
        watcherLog := watcherLog + [RegisterQuery(q)];
      }
      assert MapKeys[..|MapKeys|] == MapKeys;
    }

    /** Unregisters every query of the table, in key order. The handlers'
        `destroy` is empty, so this touches neither the screens nor any
        subscriber. */
    method Unregister()
      modifies this`watcherLog
      ensures watcherLog == old(watcherLog) + Unregistrations(MapKeys)
      ensures Watched() == old(Watched()) - AllQueries()
    {
      for i := 0 to |MapKeys|
        invariant watcherLog == old(watcherLog) + Unregistrations(MapKeys[..i])
        invariant WatchedBy(watcherLog) == WatchedBy(old(watcherLog)) - QuerySet(MapKeys[..i])
      {
        var q := ResponsiveMap(MapKeys[i]);
        assert MapKeys[..i + 1][..i] == MapKeys[..i];
        assert QuerySet(MapKeys[..i + 1]) == QuerySet(MapKeys[..i]) + {q};
        assert (watcherLog + [UnregisterQuery(q)])[..|watcherLog|] == watcherLog;
        watcherLog := watcherLog + [UnregisterQuery(q)];
      }
      assert MapKeys[..|MapKeys|] == MapKeys;
    }

    /** Adds a subscriber and returns its token. The first subscriber makes
        the dispatcher register with the watcher; the new callback is invoked
        once, at once, with the current screens. */
    method Subscribe(func: Callback) returns (token: string)
      requires Valid()
      modifies this`subscribers, this`subUid, this`deliveries, this`watcherLog, this`issued
      ensures Valid()
      ensures subUid == old(subUid) + 1
      ensures token == DecimalString(subUid)
      ensures token !in old(issued) && issued == old(issued) + [token]
      ensures subscribers == old(subscribers) + [Entry(subUid, func)]
      ensures deliveries == old(deliveries) + [Delivery(Entry(subUid, func), screens)]
      ensures watcherLog == old(watcherLog) + (if old(subscribers) == [] then Registrations(MapKeys) else [])
      ensures Registered()
    {
      if |subscribers| == 0 {
        Register();
      }
      subUid := subUid + 1;
      token := DecimalString(subUid);
      forall i | 0 <= i < |issued| ensures issued[i] != token {
        DecimalStringInjective(i, subUid);
      }
      issued := issued + [token];
      var entry := Entry(subUid, func);
      subscribers := subscribers + [entry];
      deliveries := deliveries + [Delivery(entry, screens)];
    }

    /** Removes the entries holding `token`; when nobody is left, unregisters
        from the watcher (even if the list was already empty). */
    method Unsubscribe(token: string)
      requires Valid()
      modifies this`subscribers, this`watcherLog
      ensures Valid()
      ensures subscribers == RemoveToken(old(subscribers), token)
      ensures watcherLog == old(watcherLog) + (if subscribers == [] then Unregistrations(MapKeys) else [])
      ensures Registered() <==> subscribers != []
    {
      RemoveTokenIncreasing(subscribers, token);
      subscribers := RemoveToken(subscribers, token);
      if |subscribers| == 0 {
        Unregister();
        assert ResponsiveMap(Xs) in AllQueries() by { assert MapKeys[0] == Xs; }
      }
    }

    /** The watcher's match handler for breakpoint `b`. */
    method Match(b: Breakpoint)
      requires Valid()
      modifies this`screens, this`deliveries
      ensures Valid()
      ensures screens == SetScreen(old(screens), b, true)
      ensures deliveries == old(deliveries) + FanOut(subscribers, screens)
    {
      var next := SetScreen(screens, b, true);
      var _ := Dispatch(next);
    }

    /** The watcher's unmatch handler for breakpoint `b`. */
    method Unmatch(b: Breakpoint)
      requires Valid()
      modifies this`screens, this`deliveries
      ensures Valid()
      ensures screens == SetScreen(old(screens), b, false)
      ensures deliveries == old(deliveries) + FanOut(subscribers, screens)
    {
      var next := SetScreen(screens, b, false);
      var _ := Dispatch(next);
    }
  }
}
