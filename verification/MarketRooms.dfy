/**
 * The market gateway's rooms and the upstream subscriptions they drive, at every point where its handlers can
 * be interrupted: a subscribe message joins its rooms one at a time, and anything may happen in between.
 */
module MarketRooms {
  import opened Prelude

  type Key = string
  type Client = nat

  // ---------- Upstream interest ----------

  /** A call made to the upstream feed for one instrument. */
  datatype Call = Call(subscribe: bool, key: Key)

  /** Reference counts per instrument, and the upstream calls made so far. */
  datatype Market = Market(interest: map<Key, nat>, calls: seq<Call>)

  function Count(m: Market, k: Key): nat { if k in m.interest then m.interest[k] else 0 }

  function AddOne(m: Market, k: Key): Market
  {
    var next := Count(m, k) + 1;
    Market(m.interest[k := next], if next == 1 then m.calls + [Call(true, k)] else m.calls)
  }

  function RemoveOne(m: Market, k: Key): Market
  {
    var cur := Count(m, k);
    if cur <= 1 then Market(m.interest - {k}, if cur == 1 then m.calls + [Call(false, k)] else m.calls)
    else Market(m.interest[k := cur - 1], m.calls)
  }

  function AddInterest(m: Market, keys: seq<Key>): Market
  {
    if keys == [] then m else AddOne(AddInterest(m, keys[..|keys| - 1]), keys[|keys| - 1])
  }

  function RemoveInterest(m: Market, keys: seq<Key>): Market
  {
    if keys == [] then m else RemoveOne(RemoveInterest(m, keys[..|keys| - 1]), keys[|keys| - 1])
  }

  class MarketDataService {
    var interest: map<Key, nat>
    ghost var calls: seq<Call>

    constructor ()
      ensures View() == Market(map[], [])
    {
      interest, calls := map[], [];
    }

    ghost function View(): Market
      reads this
    {
      Market(interest, calls)
    }

    /** Increment interest for keys; subscribe upstream those whose count became 1. */
    method AddInterestFor(keys: seq<Key>)
      modifies this
      ensures View() == AddInterest(old(View()), keys)
    {
      var toSub: seq<Call> := [];
      for i := 0 to |keys|
        invariant calls == old(calls)
        invariant Market(interest, calls + toSub) == AddInterest(old(View()), keys[..i])
      {
        assert keys[..i + 1][..i] == keys[..i];
        var next := (if keys[i] in interest then interest[keys[i]] else 0) + 1;
        interest := interest[keys[i] := next];
        if next == 1 {
          assert calls + (toSub + [Call(true, keys[i])]) == (calls + toSub) + [Call(true, keys[i])];
          toSub := toSub + [Call(true, keys[i])];
        }
      }
      assert keys[..|keys|] == keys;
      calls := calls + toSub;
    }

    /** Decrement interest; unsubscribe upstream those whose count hit 0. */
    method RemoveInterestFor(keys: seq<Key>)
      modifies this
      ensures View() == RemoveInterest(old(View()), keys)
    {
      var toUnsub: seq<Call> := [];
      for i := 0 to |keys|
        invariant calls == old(calls)
        invariant Market(interest, calls + toUnsub) == RemoveInterest(old(View()), keys[..i])
      {
        assert keys[..i + 1][..i] == keys[..i];
        var cur := if keys[i] in interest then interest[keys[i]] else 0;
        if cur <= 1 {
          interest := interest - {keys[i]};
          if cur == 1 {
            assert calls + (toUnsub + [Call(false, keys[i])]) == (calls + toUnsub) + [Call(false, keys[i])];
            toUnsub := toUnsub + [Call(false, keys[i])];
          }
        } else {
          interest := interest[keys[i] := cur - 1];
        }
      }
      assert keys[..|keys|] == keys;
      calls := calls + toUnsub;
    }
  }

  // ---------- Rooms ----------

  /** A subscribe message in progress: what is left of it after the rooms already joined. */
  datatype Task = Task(client: Client, keys: seq<Key>)

  /**
   * `subs` holds the client states, also those of departed clients that a message in progress still refers to;
   * `connected` are the clients in the gateway's own table.
   */
  datatype State = State(connected: set<Client>, subs: map<Client, seq<Key>>, rooms: map<Key, set<Client>>,
                         market: Market, tasks: seq<Task>)

  const EMPTY := State({}, map[], map[], Market(map[], []), [])

  const MAX_KEYS := 200

  datatype Action =
    | Connect(client: Client)
    | Subscribe(client: Client, keys: seq<Key>)
    | Unsubscribe(client: Client, keys: seq<Key>)
    | Disconnect(client: Client)
    | Resume(task: nat)

  function SubsOf(s: State, c: Client): seq<Key> { if c in s.subs then s.subs[c] else [] }

  /** One room joined, up to the point where the handler first waits. */
  function Join(s: State, c: Client, k: Key): State
  {
    if k in SubsOf(s, c) then s
    else
      var room := if k in s.rooms then s.rooms[k] else {};
      s.(subs := s.subs[c := SubsOf(s, c) + [k]],
         rooms := s.rooms[k := room + {c}],
         market := if room == {} then AddInterest(s.market, [k]) else s.market)
  }

  function Leave(s: State, c: Client, k: Key): State
  {
    if k !in s.rooms then s
    else
      var room := s.rooms[k] - {c};
      if room == {} then s.(rooms := s.rooms - {k}, market := RemoveInterest(s.market, [k]))
      else s.(rooms := s.rooms[k := room])
  }

  function Without(keys: seq<Key>, k: Key): seq<Key>
  {
    if keys == [] then []
    else
      var rest := Without(keys[..|keys| - 1], k);
      if keys[|keys| - 1] == k then rest else rest + [keys[|keys| - 1]]
  }

  function Forget(s: State, c: Client, k: Key): State
  {
    s.(subs := s.subs[c := Without(SubsOf(s, c), k)])
  }

  function LeaveEach(s: State, c: Client, keys: seq<Key>, forget: bool): State
    decreases |keys|
  {
    if keys == [] then s
    else
      var left := Leave(s, c, keys[0]);
      LeaveEach(if forget then Forget(left, c, keys[0]) else left, c, keys[1..], forget)
  }

  function JoinEach(s: State, c: Client, keys: seq<Key>): State
    decreases |keys|
  {
    if keys == [] then s else JoinEach(Join(s, c, keys[0]), c, keys[1..])
  }

  function FirstKeys(keys: seq<Key>): seq<Key> { keys[..Min(|keys|, MAX_KEYS)] }

  function Step(s: State, a: Action): State
  {
    match a
    case Connect(c) => if c in s.subs then s else s.(connected := s.connected + {c}, subs := s.subs[c := []])
    case Subscribe(c, keys) =>
      if c in s.connected then s.(tasks := s.tasks + [Task(c, FirstKeys(keys))]) else s
    case Unsubscribe(c, keys) =>
      if c in s.connected then LeaveEach(s, c, FirstKeys(keys), true) else s
    case Disconnect(c) =>
      if c in s.connected then
        var left := LeaveEach(s, c, SubsOf(s, c), false); left.(connected := left.connected - {c})
      else s
    case Resume(i) =>
      if i >= |s.tasks| then s
      else if s.tasks[i].keys == [] then s.(tasks := s.tasks[..i] + s.tasks[i + 1..])
      else
        var t := s.tasks[i];
        Join(s.(tasks := s.tasks[i := Task(t.client, t.keys[1..])]), t.client, t.keys[0])
  }

  function Run(s: State, actions: seq<Action>): State
  {
    if actions == [] then s else Step(Run(s, actions[..|actions| - 1]), actions[|actions| - 1])
  }

  // ---------- The gateway ----------

  class MarketGateway {
    const marketData: MarketDataService
    var connected: set<Client>
    var subs: map<Client, seq<Key>>
    var rooms: map<Key, set<Client>>

    constructor (marketData: MarketDataService)
      ensures this.marketData == marketData && connected == {} && subs == map[] && rooms == map[]
    {
      this.marketData := marketData;
      connected, subs, rooms := {}, map[], map[];
    }

    ghost function View(tasks: seq<Task>): State
      reads this, marketData
    {
      State(connected, subs, rooms, marketData.View(), tasks)
    }

    method JoinRoom(c: Client, k: Key, ghost tasks: seq<Task>)
      requires c in subs
      modifies this`subs, this`rooms, marketData
      ensures View(tasks) == Join(old(View(tasks)), c, k)
    {
      if k in subs[c] {
        return;
      }
      subs := subs[c := subs[c] + [k]];
      var isFirst := k !in rooms || rooms[k] == {};
      if k !in rooms {
        rooms := rooms[k := {}];
      }
      rooms := rooms[k := rooms[k] + {c}];
      if isFirst {
        marketData.AddInterestFor([k]);
      }
      assert rooms == old(rooms)[k := (if k in old(rooms) then old(rooms)[k] else {}) + {c}];
    }

    method LeaveRoom(c: Client, k: Key, ghost tasks: seq<Task>)
      modifies this`rooms, marketData
      ensures View(tasks) == Leave(old(View(tasks)), c, k)
    {
      if k !in rooms {
        return;
      }
      rooms := rooms[k := rooms[k] - {c}];
      if rooms[k] == {} {
        rooms := rooms - {k};
        marketData.RemoveInterestFor([k]);
      }
      assert rooms == if old(rooms)[k] - {c} == {} then old(rooms) - {k} else old(rooms)[k := old(rooms)[k] - {c}];
    }

    method HandleDisconnect(c: Client, ghost tasks: seq<Task>)
      requires c in connected ==> c in subs
      modifies this, marketData
      ensures View(tasks) == Step(old(View(tasks)), Disconnect(c))
    {
      if c in connected {
        var keys := subs[c];
        for i := 0 to |keys|
          invariant subs == old(subs) && connected == old(connected)
          invariant LeaveEach(View(tasks), c, keys[i..], false) == LeaveEach(old(View(tasks)), c, keys, false)
        {
          assert keys[i..][1..] == keys[i + 1..];
          LeaveRoom(c, keys[i], tasks);
        }
        connected := connected - {c};
      }
    }

    method HandleConnection(c: Client, ghost tasks: seq<Task>)
      modifies this`connected, this`subs
      ensures View(tasks) == Step(old(View(tasks)), Connect(c))
    {
      if c !in subs {
        connected, subs := connected + {c}, subs[c := []];
      }
    }

    /** A subscribe message whose joins are not interrupted. */
    method OnSubscribe(c: Client, keys: seq<Key>, ghost tasks: seq<Task>)
      requires c in connected ==> c in subs
      modifies this`subs, this`rooms, marketData
      ensures View(tasks) == if c in old(connected) then JoinEach(old(View(tasks)), c, FirstKeys(keys)) else old(View(tasks))
    {
      if c in connected {
        var wanted := FirstKeys(keys);
        for i := 0 to |wanted|
          invariant connected == old(connected) && c in subs
          invariant JoinEach(View(tasks), c, wanted[i..]) == JoinEach(old(View(tasks)), c, wanted)
        {
          assert wanted[i..][1..] == wanted[i + 1..];
          JoinRoom(c, wanted[i], tasks);
        }
      }
    }

    method OnUnsubscribe(c: Client, keys: seq<Key>, ghost tasks: seq<Task>)
      requires c in connected ==> c in subs
      modifies this`subs, this`rooms, marketData
      ensures View(tasks) == Step(old(View(tasks)), Unsubscribe(c, keys))
    {
      if c in connected {
        var dropped := FirstKeys(keys);
        for i := 0 to |dropped|
          invariant connected == old(connected) && c in subs
          invariant LeaveEach(View(tasks), c, dropped[i..], true) == LeaveEach(old(View(tasks)), c, dropped, true)
        {
          assert dropped[i..][1..] == dropped[i + 1..];
          LeaveRoom(c, dropped[i], tasks);
          subs := subs[c := Without(subs[c], dropped[i])];
        }
      }
    }
  }

  /** Resuming one message over and over, with nothing in between. */
  function Drain(s: State, task: nat, times: nat): State
    decreases times
  {
    if times == 0 then s else Drain(Step(s, Resume(task)), task, times - 1)
  }

  lemma JoinIgnoresTasks(s: State, c: Client, k: Key, tasks: seq<Task>)
    ensures Join(s.(tasks := tasks), c, k) == Join(s, c, k).(tasks := tasks)
  {
  }

  lemma {:induction false} DrainJoinsEach(s: State, c: Client, keys: seq<Key>)
    ensures Drain(s.(tasks := s.tasks + [Task(c, keys)]), |s.tasks|, |keys| + 1) == JoinEach(s, c, keys)
    decreases |keys|
  {
    var begun := s.(tasks := s.tasks + [Task(c, keys)]);
    if keys == [] {
      assert Drain(begun, |s.tasks|, 1) == Drain(Step(begun, Resume(|s.tasks|)), |s.tasks|, 0);
      assert begun.tasks[..|s.tasks|] + begun.tasks[|s.tasks| + 1..] == s.tasks;
    } else {
      var joined := Join(s, c, keys[0]);
      DrainJoinsEach(joined, c, keys[1..]);
      assert begun.tasks[|s.tasks| := Task(c, keys[1..])] == s.tasks + [Task(c, keys[1..])];
      JoinIgnoresTasks(s, c, keys[0], s.tasks + [Task(c, keys[1..])]);
    }
  }

  /** The handler run in one go is the interruptible message resumed until it is done. */
  lemma {:induction false} UninterruptedMessage(s: State, c: Client, keys: seq<Key>)
    requires c in s.connected
    ensures Drain(Step(s, Subscribe(c, keys)), |s.tasks|, |FirstKeys(keys)| + 1) == JoinEach(s, c, FirstKeys(keys))
  {
    DrainJoinsEach(s, c, FirstKeys(keys));
  }

  // ---------- Interest and upstream calls, at every interruption point ----------

  /** The subscribe/unsubscribe calls made for one instrument. */
  function CallsFor(calls: seq<Call>, k: Key): seq<bool>
  {
    if calls == [] then []
    else
      var rest, last := CallsFor(calls[..|calls| - 1], k), calls[|calls| - 1];
      if last.key == k then rest + [last.subscribe] else rest
  }

  /** Subscribe, unsubscribe, subscribe, and so on. */
  ghost predicate Alternates(calls: seq<bool>) { forall i :: 0 <= i < |calls| ==> calls[i] == (i % 2 == 0) }

  ghost predicate KeyOk(s: State, k: Key)
  {
    && (k in s.rooms ==> s.rooms[k] != {})
    && (k in s.market.interest <==> k in s.rooms)
    && (k in s.market.interest ==> s.market.interest[k] == 1)
    && Alternates(CallsFor(s.market.calls, k))
    && (k in s.rooms <==> |CallsFor(s.market.calls, k)| % 2 == 1)
  }

  ghost predicate InterestOk(s: State) { forall k :: KeyOk(s, k) }

  lemma CallsForAppend(calls: seq<Call>, c: Call, k: Key)
    ensures CallsFor(calls + [c], k) == CallsFor(calls, k) + if c.key == k then [c.subscribe] else []
  {
    assert (calls + [c])[..|calls|] == calls;
  }

  lemma InterestOfOne(m: Market, k: Key)
    ensures AddInterest(m, [k]) == AddOne(m, k) && RemoveInterest(m, [k]) == RemoveOne(m, k)
  {
    assert [k][..0] == [];
  }

  lemma JoinKeepsInterest(s: State, c: Client, k: Key)
    requires InterestOk(s)
    ensures InterestOk(Join(s, c, k))
  {
    InterestOfOne(s.market, k);
    var d := Join(s, c, k);
    forall k'
      ensures KeyOk(d, k')
    {
      assert KeyOk(s, k') && KeyOk(s, k);
      CallsForAppend(s.market.calls, Call(true, k), k');
    }
  }

  lemma LeaveKeepsInterest(s: State, c: Client, k: Key)
    requires InterestOk(s)
    ensures InterestOk(Leave(s, c, k))
  {
    InterestOfOne(s.market, k);
    var d := Leave(s, c, k);
    forall k'
      ensures KeyOk(d, k')
    {
      assert KeyOk(s, k') && KeyOk(s, k);
      CallsForAppend(s.market.calls, Call(false, k), k');
    }
  }

  lemma {:induction false} LeaveEachKeepsInterest(s: State, c: Client, keys: seq<Key>, forget: bool)
    requires InterestOk(s)
    ensures InterestOk(LeaveEach(s, c, keys, forget))
    decreases |keys|
  {
    if keys != [] {
      LeaveKeepsInterest(s, c, keys[0]);
      var left := Leave(s, c, keys[0]);
      var next := if forget then Forget(left, c, keys[0]) else left;
      OnlyRoomsMatter(left, next);
      LeaveEachKeepsInterest(next, c, keys[1..], forget);
    }
  }

  lemma OnlyRoomsMatter(s: State, d: State)
    requires InterestOk(s) && d.rooms == s.rooms && d.market == s.market
    ensures InterestOk(d)
  {
    forall k
      ensures KeyOk(d, k)
    {
      assert KeyOk(s, k);
    }
  }

  lemma StepKeepsInterest(s: State, a: Action)
    requires InterestOk(s)
    ensures InterestOk(Step(s, a))
  {
    var d := Step(s, a);
    match a
    case Connect(_) => OnlyRoomsMatter(s, d);
    case Subscribe(_, _) => OnlyRoomsMatter(s, d);
    case Unsubscribe(c, keys) => LeaveEachKeepsInterest(s, c, FirstKeys(keys), true);
    case Disconnect(c) =>
      LeaveEachKeepsInterest(s, c, SubsOf(s, c), false);
      OnlyRoomsMatter(LeaveEach(s, c, SubsOf(s, c), false), LeaveEach(s, c, SubsOf(s, c), false).(connected := d.connected));
    case Resume(i) =>
      if i < |s.tasks| && s.tasks[i].keys != [] {
        var t := s.tasks[i];
        OnlyRoomsMatter(s, s.(tasks := s.tasks[i := Task(t.client, t.keys[1..])]));
        JoinKeepsInterest(s.(tasks := s.tasks[i := Task(t.client, t.keys[1..])]), t.client, t.keys[0]);
      } else {
        OnlyRoomsMatter(s, d);
      }
  }

  /**
   * However messages, departures and resumptions interleave: an instrument has interest exactly while its room
   * is not empty, that interest is 1, and its upstream calls strictly alternate between subscribe and
   * unsubscribe, ending with subscribe exactly while there is interest.
   */
  lemma {:induction false} InterestMatchesRooms(actions: seq<Action>)
    ensures InterestOk(Run(EMPTY, actions))
  {
    if actions == [] {
      forall k
        ensures KeyOk(EMPTY, k)
      {
        assert CallsFor([], k) == [];
      }
    } else {
      InterestMatchesRooms(actions[..|actions| - 1]);
      StepKeepsInterest(Run(EMPTY, actions[..|actions| - 1]), actions[|actions| - 1]);
    }
  }
}
