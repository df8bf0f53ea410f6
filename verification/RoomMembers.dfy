/** Which clients are in an instrument's room, at every point where the gateway's handlers can be interrupted. */
module RoomMembers {
  import opened Prelude
  import opened MarketRooms

  function RoomOf(s: State, k: Key): set<Client> { if k in s.rooms then s.rooms[k] else {} }

  /** A connected client is in a room exactly when it is subscribed. */
  ghost predicate MembersOk(s: State)
  {
    && s.connected <= s.subs.Keys
    && (forall t :: t in s.tasks ==> t.client in s.subs)
    && (forall k, c :: c in s.connected ==> (c in RoomOf(s, k) <==> k in SubsOf(s, c)))
    && (forall k, c :: c in RoomOf(s, k) ==> c in s.subs && k in SubsOf(s, c))
  }

  /** In a room without being connected. */
  ghost predicate Ghost(s: State, c: Client, k: Key) { c in RoomOf(s, k) && c !in s.connected }

  ghost predicate NoGhosts(s: State) { forall c, k :: !Ghost(s, c, k) }

  lemma {:induction false} WithoutIs(keys: seq<Key>, k: Key)
    ensures forall x :: x in Without(keys, k) <==> x in keys && x != k
  {
    if keys != [] {
      WithoutIs(keys[..|keys| - 1], k);
      assert keys == keys[..|keys| - 1] + [keys[|keys| - 1]];
    }
  }

  lemma LeaveRooms(s: State, c: Client, k: Key, k': Key)
    ensures RoomOf(Leave(s, c, k), k') == if k' == k then RoomOf(s, k) - {c} else RoomOf(s, k')
  {
  }

  /** After leaving each of `keys`, the client is in none of their rooms and no other membership changed. */
  lemma {:induction false} LeaveEachRooms(s: State, c: Client, keys: seq<Key>, forget: bool, k: Key)
    ensures RoomOf(LeaveEach(s, c, keys, forget), k) == if k in keys then RoomOf(s, k) - {c} else RoomOf(s, k)
    decreases |keys|
  {
    if keys != [] {
      var left := Leave(s, c, keys[0]);
      var next := if forget then Forget(left, c, keys[0]) else left;
      LeaveRooms(s, c, keys[0], k);
      LeaveEachRooms(next, c, keys[1..], forget, k);
    }
  }

  lemma {:induction false} LeaveEachSubs(s: State, c: Client, keys: seq<Key>, forget: bool)
    requires c in s.subs
    ensures var d := LeaveEach(s, c, keys, forget);
            && d.connected == s.connected && d.tasks == s.tasks && d.subs.Keys == s.subs.Keys
            && (forall x :: x != c ==> SubsOf(d, x) == SubsOf(s, x))
            && (forall k :: k in SubsOf(d, c) <==> k in SubsOf(s, c) && !(forget && k in keys))
    decreases |keys|
  {
    if keys != [] {
      var left := Leave(s, c, keys[0]);
      var next := if forget then Forget(left, c, keys[0]) else left;
      WithoutIs(SubsOf(left, c), keys[0]);
      LeaveEachSubs(next, c, keys[1..], forget);
    }
  }

  /** The states have the same rooms and subscriptions, and every message in progress belongs to a known client. */
  lemma SameRoomsKeepMembers(s: State, d: State)
    requires MembersOk(s) && d.rooms == s.rooms && d.subs == s.subs && d.connected <= s.connected
    requires forall t :: t in d.tasks ==> t.client in d.subs
    ensures MembersOk(d)
    ensures forall x, k :: RoomOf(d, k) == RoomOf(s, k) && SubsOf(d, x) == SubsOf(s, x)
  {
    assert forall k :: RoomOf(d, k) == RoomOf(s, k);
    assert forall x :: SubsOf(d, x) == SubsOf(s, x);
  }

  lemma JoinKeepsMembers(s: State, c: Client, k: Key)
    requires MembersOk(s) && c in s.subs
    ensures MembersOk(Join(s, c, k))
  {
    if k !in SubsOf(s, c) {
      var d := Join(s, c, k);
      assert RoomOf(d, k) == RoomOf(s, k) + {c};
      assert SubsOf(d, c) == SubsOf(s, c) + [k];
      forall x, k'
        ensures x in RoomOf(d, k') <==> x in RoomOf(s, k') || (x == c && k' == k)
        ensures k' in SubsOf(d, x) <==> k' in SubsOf(s, x) || (x == c && k' == k)
      {
        assert k' != k ==> RoomOf(d, k') == RoomOf(s, k');
        assert x != c ==> SubsOf(d, x) == SubsOf(s, x);
      }
    }
  }

  lemma LeaveEachKeepsMembers(s: State, c: Client, keys: seq<Key>, forget: bool)
    requires MembersOk(s) && c in s.connected
    requires !forget ==> keys == SubsOf(s, c)
    ensures var left := LeaveEach(s, c, keys, forget);
            MembersOk(if forget then left else left.(connected := left.connected - {c}))
    ensures var left := LeaveEach(s, c, keys, forget); left.connected == s.connected && left.tasks == s.tasks
    ensures forall k :: RoomOf(LeaveEach(s, c, keys, forget), k) <= RoomOf(s, k)
    ensures !forget ==> forall k :: c !in RoomOf(LeaveEach(s, c, keys, forget), k)
  {
    var left := LeaveEach(s, c, keys, forget);
    LeaveEachSubs(s, c, keys, forget);
    forall k
      ensures RoomOf(left, k) == if k in keys then RoomOf(s, k) - {c} else RoomOf(s, k)
    {
      LeaveEachRooms(s, c, keys, forget, k);
    }
    if !forget {
      var d := left.(connected := left.connected - {c});
      assert forall k :: RoomOf(d, k) == RoomOf(left, k);
      assert forall x :: SubsOf(d, x) == SubsOf(left, x);
    }
  }

  lemma ResumeKeepsMembers(s: State, i: nat)
    requires MembersOk(s) && i < |s.tasks|
    ensures MembersOk(Step(s, Resume(i)))
  {
    var t := s.tasks[i];
    assert t in s.tasks;
    if t.keys == [] {
      SameRoomsKeepMembers(s, Step(s, Resume(i)));
    } else {
      var waiting := s.(tasks := s.tasks[i := Task(t.client, t.keys[1..])]);
      SameRoomsKeepMembers(s, waiting);
      JoinKeepsMembers(waiting, t.client, t.keys[0]);
    }
  }

  lemma StepKeepsMembers(s: State, a: Action)
    requires MembersOk(s)
    ensures MembersOk(Step(s, a))
  {
    match a
    case Connect(c) =>
      if c !in s.subs {
        assert forall k :: RoomOf(Step(s, a), k) == RoomOf(s, k);
      }
    case Subscribe(c, keys) => SameRoomsKeepMembers(s, Step(s, a));
    case Unsubscribe(c, keys) =>
      if c in s.connected {
        LeaveEachKeepsMembers(s, c, FirstKeys(keys), true);
      }
    case Disconnect(c) =>
      if c in s.connected {
        LeaveEachKeepsMembers(s, c, SubsOf(s, c), false);
      }
    case Resume(i) =>
      if i < |s.tasks| {
        ResumeKeepsMembers(s, i);
      }
  }

  lemma {:induction false} MembersMatchSubscriptions(actions: seq<Action>)
    ensures MembersOk(Run(EMPTY, actions))
  {
    if actions != [] {
      MembersMatchSubscriptions(actions[..|actions| - 1]);
      StepKeepsMembers(Run(EMPTY, actions[..|actions| - 1]), actions[|actions| - 1]);
    }
  }

  /** Ghosts are permanent: nothing a client can do ever removes one, so its instrument stays subscribed upstream. */
  lemma GhostStays(s: State, a: Action, c: Client, k: Key)
    requires MembersOk(s) && Ghost(s, c, k)
    ensures Ghost(Step(s, a), c, k)
  {
    match a
    case Connect(_) =>
    case Subscribe(_, _) =>
    case Unsubscribe(x, keys) =>
      if x in s.connected {
        LeaveEachSubs(s, x, FirstKeys(keys), true);
        LeaveEachRooms(s, x, FirstKeys(keys), true, k);
      }
    case Disconnect(x) =>
      if x in s.connected {
        LeaveEachSubs(s, x, SubsOf(s, x), false);
        LeaveEachRooms(s, x, SubsOf(s, x), false, k);
      }
    case Resume(_) =>
  }

  // ---------- Exactly when rooms are their subscribers ----------

  /** The room of every instrument is exactly the set of connected clients subscribed to it. */
  ghost predicate Exact(s: State) { forall k :: RoomOf(s, k) == Subscribers(s, k) }

  ghost function Subscribers(s: State, k: Key): set<Client> { set c | c in s.connected && k in SubsOf(s, c) }

  lemma ExactIffNoGhosts(s: State)
    requires MembersOk(s)
    ensures Exact(s) <==> NoGhosts(s)
  {
    if NoGhosts(s) {
      forall k
        ensures RoomOf(s, k) == Subscribers(s, k)
      {
        forall c
          ensures c in RoomOf(s, k) <==> c in Subscribers(s, k)
        {
          assert !Ghost(s, c, k);
        }
      }
    } else {
      var c, k :| Ghost(s, c, k);
      assert c in RoomOf(s, k) && c !in Subscribers(s, k);
    }
  }

  /** What the client's messages in progress still name, it is already subscribed to. */
  ghost predicate NothingNew(s: State, c: Client)
  {
    forall t, k :: t in s.tasks && t.client == c && k in t.keys ==> k in SubsOf(s, c)
  }

  /** Whenever a client leaves, its messages in progress have nothing new left to join. */
  ghost predicate Careful(actions: seq<Action>)
  {
    actions != [] ==>
      var n := |actions| - 1;
      && Careful(actions[..n])
      && (actions[n].Disconnect? ==> NothingNew(Run(EMPTY, actions[..n]), actions[n].client))
  }

  /** No departed client is in a room, and none is about to join one. */
  ghost predicate Safe(s: State)
  {
    && NoGhosts(s)
    && (forall t, k :: t in s.tasks && t.client !in s.connected && k in t.keys ==> k in SubsOf(s, t.client))
  }

  lemma UnsubscribeKeepsSafe(s: State, c: Client, keys: seq<Key>)
    requires MembersOk(s) && Safe(s) && c in s.connected
    ensures Safe(LeaveEach(s, c, keys, true))
  {
    LeaveEachKeepsMembers(s, c, keys, true);
    LeaveEachSubs(s, c, keys, true);
    var d := LeaveEach(s, c, keys, true);
    forall x, k
      ensures !Ghost(d, x, k)
    {
      assert !Ghost(s, x, k);
    }
  }

  lemma DisconnectKeepsSafe(s: State, c: Client)
    requires MembersOk(s) && Safe(s) && NothingNew(s, c)
    ensures Safe(Step(s, Disconnect(c)))
  {
    if c in s.connected {
      var left, d := LeaveEach(s, c, SubsOf(s, c), false), Step(s, Disconnect(c));
      LeaveEachKeepsMembers(s, c, SubsOf(s, c), false);
      LeaveEachSubs(s, c, SubsOf(s, c), false);
      forall x, k
        ensures !Ghost(d, x, k)
      {
        assert !Ghost(s, x, k) && RoomOf(d, k) == RoomOf(left, k);
      }
      assert forall x :: SubsOf(d, x) == SubsOf(left, x);
      assert forall x, k :: k in SubsOf(d, x) <==> k in SubsOf(s, x);
    }
  }

  lemma ResumeKeepsSafe(s: State, i: nat)
    requires MembersOk(s) && Safe(s) && i < |s.tasks|
    ensures Safe(Step(s, Resume(i)))
  {
    var t, d := s.tasks[i], Step(s, Resume(i));
    assert t in s.tasks;
    assert t.keys != [] && t.client !in s.connected ==> t.keys[0] in SubsOf(s, t.client);
    forall x, k
      ensures !Ghost(d, x, k)
      ensures k in SubsOf(s, x) ==> k in SubsOf(d, x)
    {
      assert !Ghost(s, x, k);
    }
    forall u, k | u in d.tasks && u.client !in d.connected && k in u.keys
      ensures k in SubsOf(d, u.client)
    {
      RemainingTask(s, i, u);
    }
  }

  /** A message in progress after a resumption was in progress before, and then named all it names now. */
  lemma RemainingTask(s: State, i: nat, u: Task)
    requires i < |s.tasks| && u in Step(s, Resume(i)).tasks
    ensures exists v :: v in s.tasks && v.client == u.client && forall k :: k in u.keys ==> k in v.keys
  {
    var t := s.tasks[i];
    assert t in s.tasks;
    if u !in s.tasks {
      assert u == Task(t.client, t.keys[1..]);
    }
  }

  lemma StepKeepsSafe(s: State, a: Action)
    requires MembersOk(s) && Safe(s) && (a.Disconnect? ==> NothingNew(s, a.client))
    ensures Safe(Step(s, a))
  {
    match a
    case Connect(c) =>
      forall x, k
        ensures !Ghost(Step(s, a), x, k)
      {
        assert !Ghost(s, x, k);
      }
    case Subscribe(c, keys) =>
      forall x, k
        ensures !Ghost(Step(s, a), x, k)
        ensures SubsOf(Step(s, a), x) == SubsOf(s, x)
      {
        assert !Ghost(s, x, k);
      }
      assert forall u :: u in Step(s, a).tasks && u.client !in s.connected ==> u in s.tasks;
    case Unsubscribe(c, keys) =>
      if c in s.connected {
        UnsubscribeKeepsSafe(s, c, FirstKeys(keys));
      }
    case Disconnect(c) => DisconnectKeepsSafe(s, c);
    case Resume(i) =>
      if i < |s.tasks| {
        ResumeKeepsSafe(s, i);
      }
  }

  lemma {:induction false} CarefulRunsAreSafe(actions: seq<Action>)
    requires Careful(actions)
    ensures Safe(Run(EMPTY, actions))
  {
    if actions != [] {
      var n := |actions| - 1;
      CarefulRunsAreSafe(actions[..n]);
      MembersMatchSubscriptions(actions[..n]);
      StepKeepsSafe(Run(EMPTY, actions[..n]), actions[n]);
    }
  }

  // ---------- A new key that is still pending becomes a ghost ----------

  lemma {:induction false} GhostOutlivesResumes(s: State, task: nat, n: nat, c: Client, k: Key)
    requires MembersOk(s) && Ghost(s, c, k)
    ensures Ghost(Drain(s, task, n), c, k)
    decreases n
  {
    if n > 0 {
      GhostStays(s, Resume(task), c, k);
      StepKeepsMembers(s, Resume(task));
      GhostOutlivesResumes(Step(s, Resume(task)), task, n - 1, c, k);
    }
  }

  /** A departed client's message that still names a new instrument puts it in that room once resumed far enough. */
  lemma {:induction false} PendingBecomesGhost(s: State, task: nat, j: nat)
    requires MembersOk(s) && task < |s.tasks| && j < |s.tasks[task].keys|
    requires var t := s.tasks[task]; t.client !in s.connected && t.keys[j] !in SubsOf(s, t.client)
    ensures Ghost(Drain(s, task, j + 1), s.tasks[task].client, s.tasks[task].keys[j])
    decreases j
  {
    var t, next := s.tasks[task], Step(s, Resume(task));
    assert t in s.tasks;
    StepKeepsMembers(s, Resume(task));
    if t.keys[0] == t.keys[j] {
      assert Ghost(next, t.client, t.keys[j]);
      GhostOutlivesResumes(next, task, j, t.client, t.keys[j]);
    } else {
      PendingBecomesGhost(next, task, j - 1);
    }
  }

  /** One message, resumed `n` times. */
  function Resumes(task: nat, n: nat): seq<Action>
  {
    if n == 0 then [] else Resumes(task, n - 1) + [Resume(task)]
  }

  ghost predicate OnlyResumes(actions: seq<Action>) { forall i :: 0 <= i < |actions| ==> actions[i].Resume? }

  lemma RunOneMore(actions: seq<Action>, a: Action)
    ensures Run(EMPTY, actions + [a]) == Step(Run(EMPTY, actions), a)
  {
    assert (actions + [a])[..|actions|] == actions;
  }

  lemma {:induction false} OneMoreResume(s: State, task: nat, n: nat)
    ensures Drain(s, task, n + 1) == Step(Drain(s, task, n), Resume(task))
    decreases n
  {
    if n > 0 {
      OneMoreResume(Step(s, Resume(task)), task, n - 1);
    }
  }

  ghost predicate Leads(actions: seq<Action>, s: State) { Run(EMPTY, actions) == s }

  lemma LeadsOneMore(actions: seq<Action>, s: State, a: Action)
    requires Leads(actions, s)
    ensures Leads(actions + [a], Step(s, a))
  {
    RunOneMore(actions, a);
  }

  lemma {:induction false} RunResumes(actions: seq<Action>, s: State, task: nat, n: nat)
    requires Leads(actions, s)
    ensures Leads(actions + Resumes(task, n), Drain(s, task, n))
  {
    if n == 0 {
      assert actions + Resumes(task, 0) == actions;
    } else {
      RunResumes(actions, s, task, n - 1);
      OneMoreResume(s, task, n - 1);
      ResumesOneMore(actions, task, n - 1);
      LeadsOneMore(actions + Resumes(task, n - 1), Drain(s, task, n - 1), Resume(task));
    }
  }

  lemma ResumesOneMore(actions: seq<Action>, task: nat, n: nat)
    ensures actions + Resumes(task, n + 1) == (actions + Resumes(task, n)) + [Resume(task)]
  {
  }

  lemma {:induction false} ResumesOnly(task: nat, n: nat)
    ensures OnlyResumes(Resumes(task, n))
  {
    if n > 0 {
      ResumesOnly(task, n - 1);
    }
  }

  // ---------- The theorem ----------

  lemma {:induction false} CarefulExtends(actions: seq<Action>, resumes: seq<Action>)
    requires Careful(actions) && OnlyResumes(resumes)
    ensures Careful(actions + resumes)
  {
    if resumes == [] {
      assert actions + resumes == actions;
    } else {
      var n := |resumes| - 1;
      CarefulExtends(actions, resumes[..n]);
      assert (actions + resumes)[..|actions| + n] == actions + resumes[..n];
    }
  }

  lemma {:induction false} CarefulPrefix(actions: seq<Action>, m: nat)
    requires Careful(actions) && m <= |actions|
    ensures Careful(actions[..m])
  {
    if m == |actions| {
      assert actions[..m] == actions;
    } else {
      var n := |actions| - 1;
      CarefulPrefix(actions[..n], m);
      assert actions[..n][..m] == actions[..m];
    }
  }

  /** A client that leaves with something new pending: its message, resumed far enough, makes it a ghost. */
  lemma CarelessDeparture(before: seq<Action>, c: Client) returns (resumes: seq<Action>)
    requires !NothingNew(Run(EMPTY, before), c)
    ensures OnlyResumes(resumes) && !NoGhosts(Run(EMPTY, before + [Disconnect(c)] + resumes))
  {
    var s, d := Run(EMPTY, before), Step(Run(EMPTY, before), Disconnect(c));
    var t, k :| t in s.tasks && t.client == c && k in t.keys && k !in SubsOf(s, c);
    var i: nat :| i < |s.tasks| && s.tasks[i] == t;
    var j: nat :| j < |t.keys| && t.keys[j] == k;
    MembersMatchSubscriptions(before);
    LeavingKeepsPending(s, c);
    StepKeepsMembers(s, Disconnect(c));
    PendingBecomesGhost(d, i, j);
    RunOneMore(before, Disconnect(c));
    RunResumes(before + [Disconnect(c)], d, i, j + 1);
    ResumesOnly(i, j + 1);
    resumes := Resumes(i, j + 1);
  }

  /** A run that was not careful has a point from which some message, resumed far enough, leaves a ghost. */
  lemma {:induction false} CarelessRunsLeaveGhosts(actions: seq<Action>) returns (m: nat, resumes: seq<Action>)
    requires !Careful(actions)
    ensures m <= |actions| && OnlyResumes(resumes) && !NoGhosts(Run(EMPTY, actions[..m] + resumes))
  {
    var n := |actions| - 1;
    if !Careful(actions[..n]) {
      m, resumes := CarelessRunsLeaveGhosts(actions[..n]);
      assert actions[..n][..m] == actions[..m];
    } else {
      resumes := CarelessDeparture(actions[..n], actions[n].client);
      m := |actions|;
      assert actions[..m] == actions[..n] + [Disconnect(actions[n].client)];
    }
  }

  lemma LeavingKeepsPending(s: State, c: Client)
    requires MembersOk(s)
    ensures var d := Step(s, Disconnect(c));
            c !in d.connected && d.tasks == s.tasks && (c in s.subs ==> forall k :: k in SubsOf(d, c) <==> k in SubsOf(s, c))
  {
    if c in s.connected {
      LeaveEachSubs(s, c, SubsOf(s, c), false);
    }
  }

  /** At every point of the run, however its messages in progress go on from there, rooms are their subscribers. */
  ghost predicate AlwaysExact(actions: seq<Action>)
  {
    forall m: nat, resumes: seq<Action> :: m <= |actions| && OnlyResumes(resumes) ==> Exact(Run(EMPTY, actions[..m] + resumes))
  }

  /**
   * Rooms stay exactly their subscribers if and only if no client ever leaves while a message of its still
   * names an instrument it is not subscribed to.
   */
  lemma RoomsAreExactIff(actions: seq<Action>)
    ensures AlwaysExact(actions) <==> Careful(actions)
  {
    if Careful(actions) {
      forall m: nat, resumes: seq<Action> | m <= |actions| && OnlyResumes(resumes)
        ensures Exact(Run(EMPTY, actions[..m] + resumes))
      {
        CarefulPrefix(actions, m);
        CarefulExtends(actions[..m], resumes);
        CarefulRunsAreSafe(actions[..m] + resumes);
        MembersMatchSubscriptions(actions[..m] + resumes);
        ExactIffNoGhosts(Run(EMPTY, actions[..m] + resumes));
      }
    } else {
      var m, resumes := CarelessRunsLeaveGhosts(actions);
      MembersMatchSubscriptions(actions[..m] + resumes);
      ExactIffNoGhosts(Run(EMPTY, actions[..m] + resumes));
    }
  }

  /** A client subscribes to two instruments and leaves after the first was joined. */
  function LeavingBetween(c: Client, a: Key, b: Key): seq<Action>
  {
    [] + [Connect(c)] + [Subscribe(c, [a, b])] + [Resume(0)] + [Disconnect(c)]
  }

  /** It stays in the second's room. */
  lemma LeavingBetweenTwoJoins(c: Client, a: Key, b: Key)
    requires a != b
    ensures !Careful(LeavingBetween(c, a, b))
    ensures Ghost(Run(EMPTY, LeavingBetween(c, a, b) + [Resume(0)]), c, b)
  {
    var r1 := [] + [Connect(c)];
    var r2 := r1 + [Subscribe(c, [a, b])];
    var r3 := r2 + [Resume(0)];
    RunOneMore([], Connect(c));
    RunOneMore(r1, Subscribe(c, [a, b]));
    RunOneMore(r2, Resume(0));
    RunOneMore(r3, Disconnect(c));
    RunOneMore(LeavingBetween(c, a, b), Resume(0));
    assert FirstKeys([a, b]) == [a, b];
    var s := Run(EMPTY, r3);
    assert s.tasks == [Task(c, [b])] && SubsOf(s, c) == [a];
    var t := s.tasks[0];
    assert t in s.tasks && t.client == c && b in t.keys && b !in SubsOf(s, c);
    assert !NothingNew(s, c);
    assert LeavingBetween(c, a, b)[..3] == r3;
    MembersMatchSubscriptions(r3);
    LeavingKeepsPending(s, c);
  }
}
