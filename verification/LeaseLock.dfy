/**
 * The leased Redis lock and what it buys: a state machine of any number of actors running critical
 * sections step by step, interleaved in any way, with a clock that may jump.
 */
module LeaseLock {
  import opened Prelude

  type Key = string

  /** The value stored under a lock key, with the instant its `PX` time to live runs out. */
  datatype Lease = Lease(token: nat, expiry: nat)

  type Leases = map<Key, Lease>

  predicate Free(leases: Leases, key: Key, now: nat) { key !in leases || leases[key].expiry <= now }

  /** `SET key token PX ttl NX`. */
  function SetNx(leases: Leases, key: Key, token: nat, ttl: nat, now: nat): Leases
  {
    if Free(leases, key, now) then leases[key := Lease(token, now + ttl)] else leases
  }

  predicate Holds(leases: Leases, key: Key, token: nat, now: nat)
  {
    !Free(leases, key, now) && leases[key].token == token
  }

  /** The release script: delete the key only while it still carries the caller's token. */
  function CompareAndDelete(leases: Leases, key: Key, token: nat, now: nat): Leases
  {
    if Holds(leases, key, token, now) then leases - {key} else leases
  }

  // ---------- Critical sections ----------

  /** Work done under `key`: each step reads and writes the account and a private variable. */
  datatype Section<!A, !L> = Section(key: Key, ttl: nat, start: L, body: seq<(L, A) -> (L, A)>)

  /** A section and how many of its steps have run. */
  datatype Executed<!A, !L> = Executed(section: Section<A, L>, done: nat)

  /** The section's first `n` steps run alone from `a`. */
  ghost function RunAlone<A, L>(s: Section<A, L>, a: A, n: nat): (L, A)
    requires n <= |s.body|
  {
    if n == 0 then (s.start, a)
    else
      var (l, b) := RunAlone(s, a, n - 1);
      s.body[n - 1](l, b)
  }

  ghost predicate Sensible<A, L>(log: seq<Executed<A, L>>)
  {
    forall i :: 0 <= i < |log| ==> log[i].done <= |log[i].section.body|
  }

  /** The logged sections run one after another, never overlapping. */
  ghost function Serial<A, L>(a: A, log: seq<Executed<A, L>>): A
    requires Sensible(log)
  {
    if log == [] then a
    else
      var n := |log| - 1;
      RunAlone(log[n].section, Serial(a, log[..n]), log[n].done).1
  }

  // ---------- The interleaved machine ----------

  /** An actor between acquiring and releasing; `slot` is where its section stands in its key's log. */
  datatype Inside<!A, !L> = Inside(section: Section<A, L>, token: nat, deadline: nat, pc: nat, local: L, slot: nat)

  /** `log` is history: the sections of each key in the order their locks were granted. */
  datatype State<!A, !L> = State(now: nat, nextToken: nat, leases: Leases, accounts: map<Key, A>,
                                 inside: map<nat, Inside<A, L>>, log: map<Key, seq<Executed<A, L>>>)

  datatype Move<!A, !L> =
    | Tick(elapsed: nat)
    | TryAcquire(actor: nat, section: Section<A, L>)
    | Work(actor: nat)
    | Release(actor: nat)

  ghost function Initial<A, L>(accounts: map<Key, A>): State<A, L>
  {
    State(0, 0, map[], accounts, map[], map k | k in accounts :: [])
  }

  ghost predicate CanWork<A, L>(s: State<A, L>, actor: nat)
  {
    && actor in s.inside
    && var me := s.inside[actor];
       && me.pc < |me.section.body| && me.section.key in s.accounts
       && me.section.key in s.log && me.slot < |s.log[me.section.key]|
  }

  /** A move that is not possible changes nothing. Tokens are random, so a new one is never in use. */
  ghost function Next<A, L>(s: State<A, L>, m: Move<A, L>): State<A, L>
  {
    match m
    case Tick(elapsed) => s.(now := s.now + elapsed)
    case TryAcquire(actor, section) =>
      if actor in s.inside || section.key !in s.accounts || section.key !in s.log then s
      else if !Free(s.leases, section.key, s.now) then s.(nextToken := s.nextToken + 1)
      else
        s.(nextToken := s.nextToken + 1,
           leases := SetNx(s.leases, section.key, s.nextToken, section.ttl, s.now),
           inside := s.inside[actor := Inside(section, s.nextToken, s.now + section.ttl, 0, section.start,
                                              |s.log[section.key]|)],
           log := s.log[section.key := s.log[section.key] + [Executed(section, 0)]])
    case Work(actor) =>
      if !CanWork(s, actor) then s
      else
        var me := s.inside[actor];
        var k := me.section.key;
        var (local, account) := me.section.body[me.pc](me.local, s.accounts[k]);
        s.(accounts := s.accounts[k := account],
           inside := s.inside[actor := me.(pc := me.pc + 1, local := local)],
           log := s.log[k := s.log[k][me.slot := Executed(me.section, me.pc + 1)]])
    case Release(actor) =>
      if actor !in s.inside then s
      else
        var me := s.inside[actor];
        s.(leases := CompareAndDelete(s.leases, me.section.key, me.token, s.now), inside := s.inside - {actor})
  }

  ghost function Run<A, L>(s: State<A, L>, moves: seq<Move<A, L>>): State<A, L>
  {
    if moves == [] then s else Next(Run(s, moves[..|moves| - 1]), moves[|moves| - 1])
  }

  /** The actor is inside and its lease has not run out. */
  ghost predicate Live<A, L>(s: State<A, L>, actor: nat)
  {
    actor in s.inside && s.now < s.inside[actor].deadline
  }

  /** No step of a section runs after the section's lease has run out; releases may come at any time. */
  ghost predicate Timely<A, L>(s: State<A, L>, moves: seq<Move<A, L>>)
  {
    moves != [] ==>
      var n := |moves| - 1;
      && Timely(s, moves[..n])
      && (moves[n].Work? && CanWork(Run(s, moves[..n]), moves[n].actor) ==> Live(Run(s, moves[..n]), moves[n].actor))
  }

  /** No section is abandoned half way: each releases after its last step. */
  ghost predicate Finishing<A, L>(s: State<A, L>, moves: seq<Move<A, L>>)
  {
    moves != [] ==>
      var n := |moves| - 1;
      var before := Run(s, moves[..n]);
      && Finishing(s, moves[..n])
      && (moves[n].Release? && moves[n].actor in before.inside ==>
            before.inside[moves[n].actor].pc == |before.inside[moves[n].actor].section.body|)
  }

  // ---------- Exclusion, for every run ----------

  ghost predicate TokensOk<A, L>(s: State<A, L>)
  {
    && (forall k :: k in s.leases ==> s.leases[k].token < s.nextToken)
    && (forall a :: a in s.inside ==> s.inside[a].token < s.nextToken)
    && (forall a, b :: a in s.inside && b in s.inside && s.inside[a].token == s.inside[b].token ==> a == b)
    && (forall a :: Live(s, a) ==>
          var me := s.inside[a];
          me.section.key in s.leases && s.leases[me.section.key] == Lease(me.token, me.deadline))
  }

  lemma NextKeepsTokens<A, L>(s: State<A, L>, m: Move<A, L>)
    requires TokensOk(s)
    ensures TokensOk(Next(s, m))
  {
    var d := Next(s, m);
    forall a | Live(d, a)
      ensures var me := d.inside[a];
              me.section.key in d.leases && d.leases[me.section.key] == Lease(me.token, me.deadline)
    {
      if m.TryAcquire? && m.actor == a && a !in s.inside {
      } else {
        assert Live(s, a);
      }
    }
  }

  lemma {:induction false} RunKeepsTokens<A, L>(accounts: map<Key, A>, moves: seq<Move<A, L>>)
    ensures TokensOk(Run(Initial<A, L>(accounts), moves))
  {
    if moves != [] {
      RunKeepsTokens(accounts, moves[..|moves| - 1]);
      NextKeepsTokens(Run(Initial<A, L>(accounts), moves[..|moves| - 1]), moves[|moves| - 1]);
    }
  }

  /** Whatever the timing, at most one actor holds an unexpired lease on a key. */
  lemma AtMostOneHolder<A, L>(accounts: map<Key, A>, moves: seq<Move<A, L>>, a: nat, b: nat)
    requires var s := Run(Initial<A, L>(accounts), moves);
             Live(s, a) && Live(s, b) && s.inside[a].section.key == s.inside[b].section.key
    ensures a == b
  {
    RunKeepsTokens(accounts, moves);
  }

  /** Whatever the timing, a late release never takes away the lease another actor has since been granted. */
  lemma LateReleaseIsHarmless<A, L>(accounts: map<Key, A>, moves: seq<Move<A, L>>, late: nat, holder: nat)
    requires Live(Run(Initial<A, L>(accounts), moves), holder) && late != holder
    ensures var s := Run(Initial<A, L>(accounts), moves);
            var after := Next(s, Release(late));
            && Live(after, holder)
            && Holds(after.leases, s.inside[holder].section.key, s.inside[holder].token, after.now)
  {
    RunKeepsTokens(accounts, moves);
  }

  // ---------- Serializability, for timely runs ----------

  ghost predicate SlotsOk<A, L>(s: State<A, L>)
  {
    && s.log.Keys == s.accounts.Keys
    && (forall k :: k in s.log ==> Sensible(s.log[k]))
    && (forall a :: a in s.inside ==>
          var me := s.inside[a];
          && me.section.key in s.log && me.slot < |s.log[me.section.key]|
          && s.log[me.section.key][me.slot] == Executed(me.section, me.pc) && me.pc <= |me.section.body|)
    && (forall a, b :: a in s.inside && b in s.inside && a != b && s.inside[a].section.key == s.inside[b].section.key ==>
          s.inside[a].slot != s.inside[b].slot)
  }

  /** The state after a successful acquisition, and after one step of work. */
  ghost predicate Acquires<A, L>(s: State<A, L>, m: Move<A, L>)
  {
    && m.TryAcquire? && m.actor !in s.inside && m.section.key in s.accounts && m.section.key in s.log
    && Free(s.leases, m.section.key, s.now)
  }

  lemma AcquireKeepsSlots<A, L>(s: State<A, L>, m: Move<A, L>)
    requires SlotsOk(s) && Acquires(s, m)
    ensures SlotsOk(Next(s, m))
  {
    var d, k := Next(s, m), m.section.key;
    assert d.log[k][..|s.log[k]|] == s.log[k];
    assert forall k' :: k' in d.log && k' != k ==> d.log[k'] == s.log[k'];
    forall a | a in d.inside
      ensures var me := d.inside[a];
              && me.section.key in d.log && me.slot < |d.log[me.section.key]|
              && d.log[me.section.key][me.slot] == Executed(me.section, me.pc) && me.pc <= |me.section.body|
    {
      if a != m.actor {
        assert d.inside[a] == s.inside[a];
      }
    }
  }

  lemma WorkKeepsSlots<A, L>(s: State<A, L>, actor: nat)
    requires SlotsOk(s) && CanWork(s, actor)
    ensures SlotsOk(Next(s, Work(actor)))
  {
    var d, me := Next(s, Work(actor)), s.inside[actor];
    var k := me.section.key;
    assert forall k' :: k' in d.log && k' != k ==> d.log[k'] == s.log[k'];
    assert d.inside[actor].section == me.section && d.inside[actor].slot == me.slot && d.inside[actor].pc == me.pc + 1;
    forall a | a in d.inside
      ensures var it := d.inside[a];
              && it.section.key in d.log && it.slot < |d.log[it.section.key]|
              && d.log[it.section.key][it.slot] == Executed(it.section, it.pc) && it.pc <= |it.section.body|
    {
      if a != actor {
        assert d.inside[a] == s.inside[a];
      }
    }
    forall a, b | a in d.inside && b in d.inside && a != b && d.inside[a].section.key == d.inside[b].section.key
      ensures d.inside[a].slot != d.inside[b].slot
    {
      assert s.inside[a].section.key == s.inside[b].section.key;
    }
  }

  lemma {:induction false} NextKeepsSlots<A, L>(s: State<A, L>, m: Move<A, L>)
    requires SlotsOk(s)
    ensures SlotsOk(Next(s, m))
  {
    if Acquires(s, m) {
      AcquireKeepsSlots(s, m);
    } else if m.Work? && CanWork(s, m.actor) {
      WorkKeepsSlots(s, m.actor);
    } else {
      RestKeepsSlots(s, m);
    }
  }

  lemma RestKeepsSlots<A, L>(s: State<A, L>, m: Move<A, L>)
    requires SlotsOk(s) && !Acquires(s, m) && !(m.Work? && CanWork(s, m.actor))
    ensures SlotsOk(Next(s, m)) && Next(s, m).log == s.log && Next(s, m).accounts == s.accounts
    ensures forall a :: a in Next(s, m).inside ==> a in s.inside && Next(s, m).inside[a] == s.inside[a]
    ensures forall a :: a in s.inside && a !in Next(s, m).inside ==> m == Release(a)
  {
  }

  /** Every account is what running its logged sections one at a time would have made it. */
  ghost predicate Serialized<A, L>(s: State<A, L>, accounts: map<Key, A>)
  {
    && SlotsOk(s) && s.accounts.Keys == accounts.Keys
    && (forall k :: k in s.accounts ==> s.accounts[k] == Serial(accounts[k], s.log[k]))
    && (forall a :: Live(s, a) ==> LastInLine(s, a, accounts))
  }

  lemma AcquireSerial<A, L>(a: A, log: seq<Executed<A, L>>, s: Section<A, L>)
    requires Sensible(log)
    ensures Serial(a, log + [Executed(s, 0)]) == Serial(a, log)
  {
    assert (log + [Executed(s, 0)])[..|log|] == log;
  }

  /** One step of the last section of a log is one step of its serial execution. */
  lemma WorkSerial<A, L>(a: A, log: seq<Executed<A, L>>, pc: nat)
    requires Sensible(log) && log != [] && log[|log| - 1].done == pc < |log[|log| - 1].section.body|
    ensures var n, s := |log| - 1, log[|log| - 1].section;
            && Sensible(log[n := Executed(s, pc + 1)])
            && Serial(a, log[n := Executed(s, pc + 1)]) ==
                 s.body[pc](RunAlone(s, Serial(a, log[..n]), pc).0, Serial(a, log)).1
  {
    var n, s := |log| - 1, log[|log| - 1].section;
    var log' := log[n := Executed(s, pc + 1)];
    assert log'[..n] == log[..n];
  }

  ghost predicate LastInLine<A, L>(s: State<A, L>, a: nat, accounts: map<Key, A>)
    requires SlotsOk(s) && s.accounts.Keys == accounts.Keys && a in s.inside
  {
    var me := s.inside[a];
    var log := s.log[me.section.key];
    && me.slot == |log| - 1
    && me.local == RunAlone(me.section, Serial(accounts[me.section.key], log[..me.slot]), me.pc).0
  }

  lemma WorkerAdvances<A, L>(s: State<A, L>, actor: nat, accounts: map<Key, A>)
    requires SlotsOk(s) && s.accounts.Keys == accounts.Keys && CanWork(s, actor) && LastInLine(s, actor, accounts)
    requires s.accounts[s.inside[actor].section.key] ==
               Serial(accounts[s.inside[actor].section.key], s.log[s.inside[actor].section.key])
    ensures var d, k := Next(s, Work(actor)), s.inside[actor].section.key;
            && SlotsOk(d) && LastInLine(d, actor, accounts)
            && d.accounts[k] == Serial(accounts[k], d.log[k])
  {
    var me := s.inside[actor];
    var k, log := me.section.key, s.log[me.section.key];
    WorkKeepsSlots(s, actor);
    WorkSerial(accounts[k], log, me.pc);
    assert log[me.slot := Executed(me.section, me.pc + 1)][..me.slot] == log[..me.slot];
  }

  lemma OthersUntouched<A, L>(s: State<A, L>, actor: nat, accounts: map<Key, A>, a: nat)
    requires TokensOk(s) && Serialized(s, accounts) && CanWork(s, actor) && Live(s, actor)
    requires SlotsOk(Next(s, Work(actor))) && Live(Next(s, Work(actor)), a) && a != actor
    ensures LastInLine(Next(s, Work(actor)), a, accounts)
  {
    var d := Next(s, Work(actor));
    assert Live(s, a) && d.inside[a] == s.inside[a];
    assert s.inside[a].section.key != s.inside[actor].section.key;
    assert d.log[s.inside[a].section.key] == s.log[s.inside[a].section.key];
    assert LastInLine(s, a, accounts);
  }

  lemma {:induction false} WorkKeepsSerialized<A, L>(s: State<A, L>, actor: nat, accounts: map<Key, A>)
    requires TokensOk(s) && Serialized(s, accounts) && CanWork(s, actor) && Live(s, actor)
    ensures Serialized(Next(s, Work(actor)), accounts)
  {
    var d, k := Next(s, Work(actor)), s.inside[actor].section.key;
    WorkerAdvances(s, actor, accounts);
    forall k' | k' in d.accounts
      ensures d.accounts[k'] == Serial(accounts[k'], d.log[k'])
    {
      if k' != k {
        assert d.log[k'] == s.log[k'] && d.accounts[k'] == s.accounts[k'];
      }
    }
    forall a | Live(d, a)
      ensures LastInLine(d, a, accounts)
    {
      if a != actor {
        OthersUntouched(s, actor, accounts, a);
      }
    }
  }

  lemma {:induction false} AcquireKeepsSerialized<A, L>(s: State<A, L>, m: Move<A, L>, accounts: map<Key, A>)
    requires TokensOk(s) && Serialized(s, accounts) && Acquires(s, m)
    ensures Serialized(Next(s, m), accounts)
  {
    var d, k := Next(s, m), m.section.key;
    AcquireKeepsSlots(s, m);
    AcquireSerial(accounts[k], s.log[k], m.section);
    assert d.log[k][..|s.log[k]|] == s.log[k];
    forall a | Live(d, a)
      ensures LastInLine(d, a, accounts)
    {
      if a != m.actor {
        assert Live(s, a) && d.inside[a] == s.inside[a];
        assert s.inside[a].section.key != k;
      }
    }
  }

  lemma {:induction false} NextKeepsSerialized<A, L>(s: State<A, L>, m: Move<A, L>, accounts: map<Key, A>)
    requires TokensOk(s) && Serialized(s, accounts)
    requires m.Work? && CanWork(s, m.actor) ==> Live(s, m.actor)
    ensures Serialized(Next(s, m), accounts)
  {
    if Acquires(s, m) {
      AcquireKeepsSerialized(s, m, accounts);
    } else if m.Work? && CanWork(s, m.actor) {
      WorkKeepsSerialized(s, m.actor, accounts);
    } else {
      RestKeepsSlots(s, m);
      forall a | Live(Next(s, m), a)
        ensures LastInLine(Next(s, m), a, accounts)
      {
        assert Live(s, a);
      }
    }
  }

  /** Every interleaving in which no section works past its lease equals running the sections one at a time. */
  lemma {:induction false} TimelyRunsAreSerial<A, L>(accounts: map<Key, A>, moves: seq<Move<A, L>>)
    requires Timely(Initial<A, L>(accounts), moves)
    ensures Serialized(Run(Initial<A, L>(accounts), moves), accounts)
  {
    if moves != [] {
      var n := |moves| - 1;
      TimelyRunsAreSerial(accounts, moves[..n]);
      RunKeepsTokens(accounts, moves[..n]);
      NextKeepsSerialized(Run(Initial<A, L>(accounts), moves[..n]), moves[n], accounts);
    }
  }

  /** A section that is not complete still has its actor inside. */
  ghost predicate Unfinished<A, L>(s: State<A, L>)
  {
    forall k, i :: k in s.log && 0 <= i < |s.log[k]| && s.log[k][i].done != |s.log[k][i].section.body| ==>
      StillInside(s, k, i)
  }

  ghost predicate StillInside<A, L>(s: State<A, L>, k: Key, i: int)
  {
    exists a :: a in s.inside && s.inside[a].section.key == k && s.inside[a].slot == i
  }

  lemma NextKeepsUnfinished<A, L>(s: State<A, L>, m: Move<A, L>)
    requires SlotsOk(s) && Unfinished(s)
    requires m.Release? && m.actor in s.inside ==> s.inside[m.actor].pc == |s.inside[m.actor].section.body|
    ensures Unfinished(Next(s, m))
  {
    var d := Next(s, m);
    forall k, i | k in d.log && 0 <= i < |d.log[k]| && d.log[k][i].done != |d.log[k][i].section.body|
      ensures StillInside(d, k, i)
    {
      if Acquires(s, m) {
        AcquireKeepsUnfinished(s, m, k, i);
      } else if m.Work? && CanWork(s, m.actor) {
        WorkKeepsUnfinished(s, m.actor, k, i);
      } else {
        RestKeepsSlots(s, m);
        assert StillInside(s, k, i);
        var a :| a in s.inside && s.inside[a].section.key == k && s.inside[a].slot == i;
        assert a in d.inside;
      }
    }
  }

  lemma AcquireKeepsUnfinished<A, L>(s: State<A, L>, m: Move<A, L>, k: Key, i: nat)
    requires SlotsOk(s) && Unfinished(s) && Acquires(s, m)
    requires k in s.log && i < |Next(s, m).log[k]| && Next(s, m).log[k][i].done != |Next(s, m).log[k][i].section.body|
    ensures StillInside(Next(s, m), k, i)
  {
    var d := Next(s, m);
    if i < |s.log[k]| {
      assert d.log[k][i] == s.log[k][i] && StillInside(s, k, i);
      var a :| a in s.inside && s.inside[a].section.key == k && s.inside[a].slot == i;
      assert a in d.inside && d.inside[a] == s.inside[a];
    } else {
      assert m.actor in d.inside && d.inside[m.actor].slot == i && d.inside[m.actor].section.key == k;
    }
  }

  lemma WorkKeepsUnfinished<A, L>(s: State<A, L>, actor: nat, k: Key, i: nat)
    requires SlotsOk(s) && Unfinished(s) && CanWork(s, actor)
    requires var d := Next(s, Work(actor)); k in d.log && i < |d.log[k]| && d.log[k][i].done != |d.log[k][i].section.body|
    ensures StillInside(Next(s, Work(actor)), k, i)
  {
    var d, me := Next(s, Work(actor)), s.inside[actor];
    if k == me.section.key && i == me.slot {
      assert actor in d.inside && d.inside[actor].slot == i && d.inside[actor].section.key == k;
    } else {
      assert d.log[k][i] == s.log[k][i] && StillInside(s, k, i);
      var a :| a in s.inside && s.inside[a].section.key == k && s.inside[a].slot == i;
      assert a != actor && a in d.inside && d.inside[a] == s.inside[a];
    }
  }

  lemma {:induction false} RunKeepsUnfinished<A, L>(accounts: map<Key, A>, moves: seq<Move<A, L>>)
    requires Finishing(Initial<A, L>(accounts), moves)
    ensures SlotsOk(Run(Initial<A, L>(accounts), moves)) && Unfinished(Run(Initial<A, L>(accounts), moves))
  {
    if moves != [] {
      var n := |moves| - 1;
      RunKeepsUnfinished(accounts, moves[..n]);
      NextKeepsSlots(Run(Initial<A, L>(accounts), moves[..n]), moves[n]);
      NextKeepsUnfinished(Run(Initial<A, L>(accounts), moves[..n]), moves[n]);
    }
  }

  ghost predicate AllComplete<A, L>(log: seq<Executed<A, L>>)
  {
    forall i :: 0 <= i < |log| ==> log[i].done == |log[i].section.body|
  }

  /**
   * Single writer per account: in a timely run whose sections all finish, whenever nobody is inside a key its
   * account is exactly what its complete sections, run one at a time in the order the lock was granted, make.
   */
  lemma SingleWriterPerAccount<A, L>(accounts: map<Key, A>, moves: seq<Move<A, L>>, k: Key)
    requires Timely(Initial<A, L>(accounts), moves) && Finishing(Initial<A, L>(accounts), moves) && k in accounts
    requires forall a :: a in Run(Initial<A, L>(accounts), moves).inside ==>
               Run(Initial<A, L>(accounts), moves).inside[a].section.key != k
    ensures var s := Run(Initial<A, L>(accounts), moves);
            && k in s.log && k in s.accounts && AllComplete(s.log[k])
            && s.accounts[k] == Serial(accounts[k], s.log[k])
  {
    TimelyRunsAreSerial(accounts, moves);
    RunKeepsUnfinished(accounts, moves);
  }

  /** The section was brought by some actor's attempt. */
  ghost predicate Brought<A, L>(s: Section<A, L>, moves: seq<Move<A, L>>)
  {
    exists i :: 0 <= i < |moves| && moves[i].TryAcquire? && moves[i].section == s
  }

  ghost predicate AllBrought<A, L>(s: State<A, L>, moves: seq<Move<A, L>>)
  {
    && (forall k, i :: k in s.log && 0 <= i < |s.log[k]| ==> Brought(s.log[k][i].section, moves))
    && (forall a :: a in s.inside ==> Brought(s.inside[a].section, moves))
  }

  lemma BroughtStays<A, L>(s: Section<A, L>, moves: seq<Move<A, L>>)
    requires moves != [] && Brought(s, moves[..|moves| - 1])
    ensures Brought(s, moves)
  {
    var i :| 0 <= i < |moves| - 1 && moves[..|moves| - 1][i].TryAcquire? && moves[..|moves| - 1][i].section == s;
    assert moves[i].section == s;
  }

  /** The log holds no section that nobody brought. */
  lemma {:induction false} LoggedWasBrought<A, L>(accounts: map<Key, A>, moves: seq<Move<A, L>>)
    ensures AllBrought(Run(Initial<A, L>(accounts), moves), moves)
  {
    if moves != [] {
      var n := |moves| - 1;
      LoggedWasBrought(accounts, moves[..n]);
      var s, m := Run(Initial<A, L>(accounts), moves[..n]), moves[n];
      var d := Next(s, m);
      forall k, i | k in d.log && 0 <= i < |d.log[k]|
        ensures Brought(d.log[k][i].section, moves)
      {
        if k in s.log && i < |s.log[k]| && d.log[k][i].section == s.log[k][i].section {
          BroughtStays(s.log[k][i].section, moves);
        } else if m.Work? {
          BroughtStays(s.inside[m.actor].section, moves);
        } else {
          assert d.log[k][i].section == m.section;
        }
      }
      forall a | a in d.inside
        ensures Brought(d.inside[a].section, moves)
      {
        if a in s.inside && d.inside[a].section == s.inside[a].section {
          BroughtStays(s.inside[a].section, moves);
        } else {
          assert d.inside[a].section == m.section;
        }
      }
    }
  }

  // ---------- The service ----------

  /** The lock client and the Redis state it shares with every other process. */
  class RedisLockService {
    var now: nat
    var nextToken: nat
    var leases: Leases

    constructor ()
      ensures now == 0 && nextToken == 0 && leases == map[]
    {
      now, nextToken, leases := 0, 0, map[];
    }

    /** Try once; returns nothing if the lock is held elsewhere. */
    method AttemptOnce(key: Key, ttl: nat) returns (token: Option<nat>)
      modifies this`nextToken, this`leases
      ensures nextToken == old(nextToken) + 1
      ensures leases == SetNx(old(leases), key, old(nextToken), ttl, now)
      ensures token == if Free(old(leases), key, now) then Some(old(nextToken)) else None
    {
      var t := nextToken;
      nextToken := nextToken + 1;
      if key in leases && leases[key].expiry > now {
        return None;
      }
      leases := leases[key := Lease(t, now + ttl)];
      token := Some(t);
    }

    method ReleaseLock(key: Key, token: nat) returns (released: bool)
      modifies this`leases
      ensures leases == CompareAndDelete(old(leases), key, token, now)
      ensures released == Holds(old(leases), key, token, now)
    {
      if key in leases && leases[key].expiry > now && leases[key].token == token {
        leases := leases - {key};
        return true;
      }
      released := false;
    }

    /** While this process sleeps at least `ms`, any other may do anything to the shared state. */
    method Sleep(ms: nat)
      modifies this
      ensures now >= old(now) + ms
      ensures nextToken >= old(nextToken)
    {
      var elapsed: nat :| elapsed >= 0;
      var used: nat :| used >= 0;
      now := now + ms + elapsed;
      nextToken := nextToken + used;
      leases := *;
    }

    /**
     * Retry until the lock is granted or the timeout has passed. A granted token is under the key with the
     * whole time to live ahead of it; giving up means the time is over and the key is taken by someone else.
     */
    method Acquire(key: Key, ttl: nat, timeoutMs: nat, retryMs: nat) returns (token: Option<nat>)
      requires retryMs > 0
      modifies this
      ensures token.Some? ==> key in leases && leases[key] == Lease(token.value, now + ttl) && token.value >= old(nextToken)
      ensures token.None? ==> now >= old(now) + timeoutMs && !Free(leases, key, now)
    {
      var deadline := now + timeoutMs;
      while true
        invariant nextToken >= old(nextToken)
        decreases deadline + retryMs - now
      {
        token := AttemptOnce(key, ttl);
        if token.Some? {
          return;
        }
        if now >= deadline {
          return;
        }
        Sleep(retryMs);
      }
    }
  }
}
