/**
 * Rotating refresh sessions: every refresh spends a token and issues its successor in the same family, and
 * presenting a spent token again revokes the family (the rotation scheme of section 10.4 of RFC 6749).
 */
module Sessions {
  import opened Prelude

  type Hash = nat

  /** A stored session. The database deletes expired rows on its own; a deleted row stays here as a tombstone. */
  datatype Session = Session(principal: nat, family: nat, hash: Hash, expiresAt: int, revokedAt: Option<int>,
                             replacedBy: Option<Hash>, deleted: bool)

  /** `accepted` is history: the tokens refresh has accepted, in order. */
  datatype State = State(now: int, rows: seq<Session>, accepted: seq<Hash>)

  const EMPTY := State(0, [], [])

  datatype Outcome = Issued | AuthFailed | SessionRevoked | Done

  datatype Action =
    | Tick(elapsed: nat)
    | Login(principal: nat, family: nat, hash: Hash, ttl: int)
    | Refresh(token: Hash, fresh': Hash, ttl: int)
    | Logout(token: Hash)
    | LogoutAll(principal: nat)
    | Reap(row: nat)

  // ---------- What each call does ----------

  ghost predicate NewHash(rows: seq<Session>, h: Hash) { forall r :: r in rows ==> r.hash != h }

  ghost predicate NewFamily(rows: seq<Session>, f: nat) { forall r :: r in rows ==> r.family != f }

  /** The stored row with a hash, or the number of rows. */
  function Find(rows: seq<Session>, h: Hash): (i: nat)
    ensures i <= |rows|
    ensures i < |rows| ==> rows[i].hash == h && !rows[i].deleted
    ensures forall k :: 0 <= k < i ==> rows[k].hash != h || rows[k].deleted
  {
    if rows == [] then 0 else if rows[0].hash == h && !rows[0].deleted then 0 else 1 + Find(rows[1..], h)
  }

  function Live(r: Session, now: int): bool { r.revokedAt.None? && !r.deleted && r.expiresAt > now }

  /** `updateMany`: set `revokedAt` on the stored rows that match and have none. */
  function RevokeWhere(rows: seq<Session>, matches: Session -> bool, now: int): seq<Session>
  {
    seq(|rows|, i requires 0 <= i < |rows| =>
      if matches(rows[i]) && rows[i].revokedAt.None? && !rows[i].deleted then rows[i].(revokedAt := Some(now)) else rows[i])
  }

  function OfFamily(f: nat): Session -> bool { (r: Session) => r.family == f }

  function OfPrincipal(p: nat): Session -> bool { (r: Session) => r.principal == p }

  function WithHash(h: Hash): Session -> bool { (r: Session) => r.hash == h }

  function NewRow(principal: nat, family: nat, hash: Hash, expiresAt: int): Session
  {
    Session(principal, family, hash, expiresAt, None, None, false)
  }

  function RefreshStep(s: State, token: Hash, next: Hash, ttl: int): (State, Outcome)
  {
    var i := Find(s.rows, token);
    if i == |s.rows| then (s, AuthFailed)
    else
      var row := s.rows[i];
      if row.revokedAt.Some? || row.expiresAt <= s.now then
        (s.(rows := RevokeWhere(s.rows, OfFamily(row.family), s.now)), SessionRevoked)
      else
        (s.(rows := s.rows[i := row.(revokedAt := Some(s.now), replacedBy := Some(next))]
                    + [NewRow(row.principal, row.family, next, s.now + ttl)],
            accepted := s.accepted + [token]),
         Issued)
  }

  /** One call. Token hashes and family ids are random: a call that drew a used one is not considered. */
  ghost function Step(s: State, a: Action): (State, Outcome)
  {
    match a
    case Tick(elapsed) => (s.(now := s.now + elapsed), Done)
    case Login(p, f, h, ttl) =>
      if NewHash(s.rows, h) && NewFamily(s.rows, f) then (s.(rows := s.rows + [NewRow(p, f, h, s.now + ttl)]), Issued)
      else (s, Done)
    case Refresh(token, next, ttl) => if NewHash(s.rows, next) then RefreshStep(s, token, next, ttl) else (s, Done)
    case Logout(token) => (s.(rows := RevokeWhere(s.rows, WithHash(token), s.now)), Done)
    case LogoutAll(p) => (s.(rows := RevokeWhere(s.rows, OfPrincipal(p), s.now)), Done)
    case Reap(i) =>
      if i < |s.rows| && s.rows[i].expiresAt <= s.now then (s.(rows := s.rows[i := s.rows[i].(deleted := true)]), Done)
      else (s, Done)
  }

  ghost function Run(s: State, actions: seq<Action>): State
  {
    if actions == [] then s else Step(Run(s, actions[..|actions| - 1]), actions[|actions| - 1]).0
  }

  // ---------- The service ----------

  class SessionService {
    var now: int
    var rows: seq<Session>
    ghost var accepted: seq<Hash>

    constructor ()
      ensures View() == EMPTY
    {
      now, rows, accepted := 0, [], [];
    }

    ghost function View(): State
      reads this
    {
      State(now, rows, accepted)
    }

    method IssuePair(principal: nat, family: nat, hash: Hash, ttl: int)
      modifies this`rows
      ensures rows == old(rows) + [NewRow(principal, family, hash, now + ttl)]
    {
      rows := rows + [Session(principal, family, hash, now + ttl, None, None, false)];
    }

    method RefreshToken(token: Hash, next: Hash, ttl: int) returns (outcome: Outcome)
      modifies this`rows, this`accepted
      ensures (View(), outcome) == RefreshStep(old(View()), token, next, ttl)
    {
      var i := Find(rows, token);
      if i == |rows| {
        return AuthFailed;
      }
      var session := rows[i];
      if session.revokedAt.Some? || session.expiresAt <= now {
        RevokeMany(OfFamily(session.family));
        return SessionRevoked;
      }
      IssuePair(session.principal, session.family, next, ttl);
      session := session.(revokedAt := Some(now));
      session := session.(replacedBy := Some(next));
      rows := rows[i := session];
      assert rows == old(rows)[i := session] + [NewRow(session.principal, session.family, next, now + ttl)];
      accepted := accepted + [token];
      outcome := Issued;
    }

    method RevokeMany(matches: Session -> bool)
      modifies this`rows
      ensures rows == RevokeWhere(old(rows), matches, now)
    {
      var before := rows;
      for i := 0 to |rows|
        invariant |rows| == |before|
        invariant forall j :: 0 <= j < i ==> rows[j] == RevokeWhere(before, matches, now)[j]
        invariant forall j :: i <= j < |rows| ==> rows[j] == before[j]
      {
        if matches(rows[i]) && rows[i].revokedAt.None? && !rows[i].deleted {
          rows := rows[i := rows[i].(revokedAt := Some(now))];
        }
      }
    }
  }

  // ---------- Families are chains ----------

  /** The rows of a family, oldest first. */
  function FamilyRows(rows: seq<Session>, f: nat): seq<Session>
  {
    if rows == [] then []
    else
      var rest, last := FamilyRows(rows[..|rows| - 1], f), rows[|rows| - 1];
      if last.family == f then rest + [last] else rest
  }

  /** Each row but the newest is revoked and names its successor; the newest names none. */
  ghost predicate Chain(rows: seq<Session>)
  {
    && (forall k :: 0 <= k < |rows| - 1 ==>
          && rows[k].revokedAt.Some? && rows[k].replacedBy == Some(rows[k + 1].hash)
          && rows[k].principal == rows[k + 1].principal)
    && (rows != [] ==> rows[|rows| - 1].replacedBy == None)
  }

  ghost predicate UniqueHashes(rows: seq<Session>)
  {
    forall i, j :: 0 <= i < j < |rows| ==> rows[i].hash != rows[j].hash
  }

  /** Accepted tokens are distinct, and are exactly those whose row names a successor. */
  ghost predicate AcceptedOk(s: State)
  {
    && (forall i, j :: 0 <= i < j < |s.accepted| ==> s.accepted[i] != s.accepted[j])
    && (forall h :: h in s.accepted ==> exists i :: 0 <= i < |s.rows| && s.rows[i].hash == h && s.rows[i].replacedBy.Some?)
    && (forall i :: 0 <= i < |s.rows| && s.rows[i].replacedBy.Some? ==> s.rows[i].hash in s.accepted)
  }

  ghost predicate Inv(s: State)
  {
    UniqueHashes(s.rows) && (forall f :: Chain(FamilyRows(s.rows, f))) && AcceptedOk(s)
  }

  lemma FamilyAppend(rows: seq<Session>, r: Session, f: nat)
    ensures FamilyRows(rows + [r], f) == FamilyRows(rows, f) + if r.family == f then [r] else []
  {
    assert (rows + [r])[..|rows|] == rows;
  }

  lemma {:induction false} FamilyEmpty(rows: seq<Session>, f: nat)
    requires NewFamily(rows, f)
    ensures FamilyRows(rows, f) == []
  {
    if rows != [] {
      assert rows[|rows| - 1] in rows;
      FamilyEmpty(rows[..|rows| - 1], f);
    }
  }

  /** The states differ at most in later revocation times and tombstones. */
  ghost predicate SameLinks(a: seq<Session>, b: seq<Session>)
  {
    && |a| == |b|
    && forall i :: 0 <= i < |a| ==>
         && b[i].family == a[i].family && b[i].hash == a[i].hash && b[i].replacedBy == a[i].replacedBy
         && b[i].principal == a[i].principal && (a[i].revokedAt.Some? ==> b[i].revokedAt.Some?)
  }

  lemma {:induction false} SameLinksFamily(a: seq<Session>, b: seq<Session>, f: nat)
    requires SameLinks(a, b)
    ensures SameLinks(FamilyRows(a, f), FamilyRows(b, f))
  {
    if a != [] {
      SameLinksFamily(a[..|a| - 1], b[..|b| - 1], f);
    }
  }

  lemma SameLinksKeeps(s: State, rows: seq<Session>)
    requires Inv(s) && SameLinks(s.rows, rows)
    ensures Inv(s.(rows := rows))
  {
    var d := s.(rows := rows);
    forall f
      ensures Chain(FamilyRows(rows, f))
    {
      SameLinksFamily(s.rows, rows, f);
      assert Chain(FamilyRows(s.rows, f));
    }
    forall h | h in d.accepted
      ensures exists i :: 0 <= i < |rows| && rows[i].hash == h && rows[i].replacedBy.Some?
    {
      var i :| 0 <= i < |s.rows| && s.rows[i].hash == h && s.rows[i].replacedBy.Some?;
      assert rows[i].hash == h && rows[i].replacedBy.Some?;
    }
  }

  lemma {:induction false} MemberOfFamily(rows: seq<Session>, i: nat)
    requires i < |rows|
    ensures rows[i] in FamilyRows(rows, rows[i].family)
  {
    var n := |rows| - 1;
    if i < n {
      MemberOfFamily(rows[..n], i);
      assert rows[..n][i] == rows[i];
    }
  }

  /** A prefix of the rows holds a prefix of every family. */
  lemma {:induction false} FamilyPrefix(rows: seq<Session>, j: nat, f: nat)
    requires j <= |rows|
    ensures FamilyRows(rows[..j], f) <= FamilyRows(rows, f)
  {
    if j < |rows| {
      FamilyPrefix(rows[..|rows| - 1], j, f);
      assert rows[..|rows| - 1][..j] == rows[..j];
    } else {
      assert rows[..j] == rows;
    }
  }

  /** A row with a younger sibling is revoked, so the unrevoked row of a family is its newest. */
  lemma OlderIsRevoked(rows: seq<Session>, i: nat, j: nat)
    requires i < j < |rows| && rows[i].family == rows[j].family && Chain(FamilyRows(rows, rows[i].family))
    ensures rows[i].revokedAt.Some?
  {
    var f := rows[i].family;
    var older, chain := FamilyRows(rows[..j], f), FamilyRows(rows, f);
    assert rows[..j + 1][..j] == rows[..j];
    assert FamilyRows(rows[..j + 1], f) == older + [rows[j]];
    FamilyPrefix(rows, j + 1, f);
    MemberOfFamily(rows[..j], i);
    var k :| 0 <= k < |older| && older[k] == rows[i];
    assert chain[k] == (older + [rows[j]])[k] == rows[i];
  }

  lemma {:induction false} ReplaceNewest(rows: seq<Session>, i: nat, r: Session, f: nat)
    requires i < |rows| && r.family == rows[i].family
    requires forall j :: i < j < |rows| ==> rows[j].family != rows[i].family
    ensures var old', new' := FamilyRows(rows, f), FamilyRows(rows[i := r], f);
            if f == r.family then old' != [] && old'[|old'| - 1] == rows[i] && new' == old'[|old'| - 1 := r] else new' == old'
  {
    var n := |rows| - 1;
    if i < n {
      assert rows[i := r][..n] == rows[..n][i := r];
      ReplaceNewest(rows[..n], i, r, f);
    } else {
      assert rows[i := r][..n] == rows[..n];
    }
  }

  lemma RotateKeepsChains(s: State, i: nat, next: Hash, ttl: int, f: nat)
    requires Inv(s) && i < |s.rows| && s.rows[i].revokedAt.None?
    ensures var row := s.rows[i];
            Chain(FamilyRows(s.rows[i := row.(revokedAt := Some(s.now), replacedBy := Some(next))]
                             + [NewRow(row.principal, row.family, next, s.now + ttl)], f))
  {
    var row := s.rows[i];
    var spent := row.(revokedAt := Some(s.now), replacedBy := Some(next));
    var fresh' := NewRow(row.principal, row.family, next, s.now + ttl);
    assert Chain(FamilyRows(s.rows, row.family)) && Chain(FamilyRows(s.rows, f));
    forall j | i < j < |s.rows|
      ensures s.rows[j].family != row.family
    {
      if s.rows[j].family == row.family {
        OlderIsRevoked(s.rows, i, j);
      }
    }
    ReplaceNewest(s.rows, i, spent, f);
    FamilyAppend(s.rows[i := spent], fresh', f);
  }

  lemma RotateKeepsAccepted(s: State, i: nat, next: Hash, ttl: int)
    requires Inv(s) && i < |s.rows| && s.rows[i].revokedAt.None? && NewHash(s.rows, next)
    ensures var row := s.rows[i];
            AcceptedOk(s.(rows := s.rows[i := row.(revokedAt := Some(s.now), replacedBy := Some(next))]
                                  + [NewRow(row.principal, row.family, next, s.now + ttl)],
                          accepted := s.accepted + [row.hash]))
  {
    var row := s.rows[i];
    var d := s.(rows := s.rows[i := row.(revokedAt := Some(s.now), replacedBy := Some(next))]
                        + [NewRow(row.principal, row.family, next, s.now + ttl)],
                accepted := s.accepted + [row.hash]);
    UnspentHasNoSuccessor(s.rows, i, row.family);
    forall h | h in d.accepted
      ensures exists k :: 0 <= k < |d.rows| && d.rows[k].hash == h && d.rows[k].replacedBy.Some?
    {
      if h == row.hash {
        assert d.rows[i].hash == h && d.rows[i].replacedBy.Some?;
      } else {
        var k :| 0 <= k < |s.rows| && s.rows[k].hash == h && s.rows[k].replacedBy.Some?;
        assert d.rows[k] == s.rows[k];
      }
    }
    assert row.hash !in s.accepted;
  }

  lemma UnspentHasNoSuccessor(rows: seq<Session>, i: nat, f: nat)
    requires i < |rows| && rows[i].revokedAt.None? && rows[i].family == f && Chain(FamilyRows(rows, f))
    ensures rows[i].replacedBy.None?
  {
    MemberOfFamily(rows, i);
    var chain := FamilyRows(rows, f);
    var k :| 0 <= k < |chain| && chain[k] == rows[i];
  }

  lemma StepKeeps(s: State, a: Action)
    requires Inv(s)
    ensures Inv(Step(s, a).0)
  {
    match a
    case Tick(_) =>
    case Login(p, f, h, ttl) =>
      if NewHash(s.rows, h) && NewFamily(s.rows, f) {
        LoginKeeps(s, p, f, h, ttl);
      }
    case Refresh(token, next, ttl) =>
      if NewHash(s.rows, next) {
        RefreshKeeps(s, token, next, ttl);
      }
    case Logout(token) => SameLinksKeeps(s, RevokeWhere(s.rows, WithHash(token), s.now));
    case LogoutAll(p) => SameLinksKeeps(s, RevokeWhere(s.rows, OfPrincipal(p), s.now));
    case Reap(i) =>
      if i < |s.rows| {
        SameLinksKeeps(s, s.rows[i := s.rows[i].(deleted := true)]);
      }
  }

  lemma LoginKeeps(s: State, p: nat, f: nat, h: Hash, ttl: int)
    requires Inv(s) && NewHash(s.rows, h) && NewFamily(s.rows, f)
    ensures Inv(s.(rows := s.rows + [NewRow(p, f, h, s.now + ttl)]))
  {
    var r := NewRow(p, f, h, s.now + ttl);
    var d := s.(rows := s.rows + [r]);
    FamilyEmpty(s.rows, f);
    forall g
      ensures Chain(FamilyRows(d.rows, g))
    {
      assert Chain(FamilyRows(s.rows, g));
      FamilyAppend(s.rows, r, g);
    }
    forall x | x in d.accepted
      ensures exists i :: 0 <= i < |d.rows| && d.rows[i].hash == x && d.rows[i].replacedBy.Some?
    {
      var i :| 0 <= i < |s.rows| && s.rows[i].hash == x && s.rows[i].replacedBy.Some?;
      assert d.rows[i] == s.rows[i];
    }
  }

  lemma RefreshKeeps(s: State, token: Hash, next: Hash, ttl: int)
    requires Inv(s) && NewHash(s.rows, next)
    ensures Inv(RefreshStep(s, token, next, ttl).0)
  {
    var i := Find(s.rows, token);
    if i < |s.rows| {
      var row := s.rows[i];
      if row.revokedAt.Some? || row.expiresAt <= s.now {
        SameLinksKeeps(s, RevokeWhere(s.rows, OfFamily(row.family), s.now));
      } else {
        RotateKeepsAccepted(s, i, next, ttl);
        forall f
          ensures Chain(FamilyRows(RefreshStep(s, token, next, ttl).0.rows, f))
        {
          RotateKeepsChains(s, i, next, ttl, f);
        }
      }
    }
  }

  lemma {:induction false} RunKeeps(actions: seq<Action>)
    ensures Inv(Run(EMPTY, actions))
  {
    if actions == [] {
      assert forall f :: FamilyRows([], f) == [];
    } else {
      RunKeeps(actions[..|actions| - 1]);
      StepKeeps(Run(EMPTY, actions[..|actions| - 1]), actions[|actions| - 1]);
    }
  }

  // ---------- The promises ----------

  /** In every run each family is one chain of successors with at most one unrevoked session: its newest. */
  lemma FamiliesAreChains(actions: seq<Action>, f: nat)
    ensures var chain := FamilyRows(Run(EMPTY, actions).rows, f);
            && Chain(chain)
            && (forall k :: 0 <= k < |chain| && chain[k].revokedAt.None? ==> k == |chain| - 1)
  {
    RunKeeps(actions);
  }

  /** In every run no refresh token is accepted twice. */
  lemma AcceptedAtMostOnce(actions: seq<Action>, i: nat, j: nat)
    requires i < j < |Run(EMPTY, actions).accepted|
    ensures Run(EMPTY, actions).accepted[i] != Run(EMPTY, actions).accepted[j]
  {
    RunKeeps(actions);
  }

  /** No session of the family can be used any more. */
  ghost predicate Dead(s: State, f: nat)
  {
    && !NewFamily(s.rows, f)
    && forall r :: r in s.rows && r.family == f ==> r.revokedAt.Some? || r.deleted
  }

  lemma DeadStaysDead(s: State, a: Action, f: nat)
    requires Dead(s, f)
    ensures Dead(Step(s, a).0, f)
  {
    var d := Step(s, a).0;
    forall i | 0 <= i < |s.rows|
      ensures i < |d.rows| && d.rows[i].family == s.rows[i].family
      ensures d.rows[i].family == f ==> d.rows[i].revokedAt.Some? || d.rows[i].deleted
    {
      assert s.rows[i] in s.rows;
    }
    var r :| r in s.rows && r.family == f;
    var k :| 0 <= k < |s.rows| && s.rows[k] == r;
    assert d.rows[k] in d.rows;
    if a.Refresh? && |d.rows| > |s.rows| {
      var i := Find(s.rows, a.token);
      assert s.rows[i] in s.rows;
    }
  }

  lemma {:induction false} DeadForever(s: State, actions: seq<Action>, f: nat)
    requires Dead(s, f)
    ensures Dead(Run(s, actions), f)
  {
    if actions != [] {
      DeadForever(s, actions[..|actions| - 1], f);
      DeadStaysDead(Run(s, actions[..|actions| - 1]), actions[|actions| - 1], f);
    }
  }

  /**
   * Presenting a spent or expired token whose row is still stored is answered SESSION_REVOKED, and from then
   * on, whatever follows, its family never has a usable session again.
   */
  lemma ReplayKillsFamily(s: State, token: Hash, next: Hash, ttl: int, later: seq<Action>)
    requires NewHash(s.rows, next) && Find(s.rows, token) < |s.rows|
    requires var row := s.rows[Find(s.rows, token)]; row.revokedAt.Some? || row.expiresAt <= s.now
    ensures Step(s, Refresh(token, next, ttl)).1 == SessionRevoked
    ensures Dead(Run(Step(s, Refresh(token, next, ttl)).0, later), s.rows[Find(s.rows, token)].family)
  {
    var i := Find(s.rows, token);
    var d := Step(s, Refresh(token, next, ttl)).0;
    assert d.rows[i] in d.rows;
    DeadForever(d, later, s.rows[i].family);
  }

  /**
   * A replay is noticed exactly while the spent row is still stored: until the token's own expiry always,
   * afterwards only until the database has deleted the row. Once deleted, the replay changes nothing.
   */
  lemma ReplayDetectedIffStored(actions: seq<Action>, i: nat, next: Hash, ttl: int)
    requires var s := Run(EMPTY, actions); i < |s.rows| && s.rows[i].hash in s.accepted && NewHash(s.rows, next)
    ensures var s := Run(EMPTY, actions);
            var (d, outcome) := Step(s, Refresh(s.rows[i].hash, next, ttl));
            && (outcome == SessionRevoked <==> !s.rows[i].deleted)
            && (s.rows[i].deleted ==> outcome == AuthFailed && d == s)
            && (s.rows[i].expiresAt > s.now ==> !s.rows[i].deleted)
  {
    RunKeeps(actions);
    OnlyExpiredAreDeleted(actions);
    var s := Run(EMPTY, actions);
    var j := Find(s.rows, s.rows[i].hash);
    var k :| 0 <= k < |s.rows| && s.rows[k].hash == s.rows[i].hash && s.rows[k].replacedBy.Some?;
    assert k == i;
    SpentIsRevoked(s.rows, i);
    if j < |s.rows| {
      assert j == i;
    }
  }

  lemma SpentIsRevoked(rows: seq<Session>, i: nat)
    requires i < |rows| && rows[i].replacedBy.Some? && Chain(FamilyRows(rows, rows[i].family))
    ensures rows[i].revokedAt.Some?
  {
    MemberOfFamily(rows, i);
    var chain := FamilyRows(rows, rows[i].family);
    var k :| 0 <= k < |chain| && chain[k] == rows[i];
  }

  ghost predicate DeletedAreExpired(s: State)
  {
    forall i :: 0 <= i < |s.rows| && s.rows[i].deleted ==> s.rows[i].expiresAt <= s.now
  }

  lemma {:induction false} OnlyExpiredAreDeleted(actions: seq<Action>)
    ensures DeletedAreExpired(Run(EMPTY, actions))
  {
    if actions != [] {
      var n := |actions| - 1;
      OnlyExpiredAreDeleted(actions[..n]);
      var s := Run(EMPTY, actions[..n]);
      var d := Step(s, actions[n]).0;
      forall i | 0 <= i < |d.rows| && d.rows[i].deleted
        ensures d.rows[i].expiresAt <= d.now
      {
        if i < |s.rows| {
          assert d.rows[i].expiresAt == s.rows[i].expiresAt;
          assert s.rows[i].deleted || actions[n] == Reap(i);
        }
      }
    }
  }

  // ---------- Where detection ends ----------

  /** A token is spent at 5, its row expires at 10 and is deleted at 11, while its successor lives until 15. */
  function LateReplay(): seq<Action>
  {
    [Login(1, 1, 10, 10), Tick(5), Refresh(10, 11, 10), Tick(6), Reap(0)]
  }

  lemma Advance(n: nat)
    requires n < 5
    ensures Run(EMPTY, LateReplay()[..n + 1]) == Step(Run(EMPTY, LateReplay()[..n]), LateReplay()[n]).0
  {
    assert LateReplay()[..n + 1][..n] == LateReplay()[..n];
  }

  const FIRST := NewRow(1, 1, 10, 10)
  const SPENT := FIRST.(revokedAt := Some(5), replacedBy := Some(11))
  const SECOND := NewRow(1, 1, 11, 15)

  lemma LoggedIn()
    ensures Run(EMPTY, LateReplay()[..2]) == State(5, [FIRST], [])
  {
    Advance(0);
    Advance(1);
    assert LateReplay()[..0] == [];
    assert Run(EMPTY, LateReplay()[..1]).rows == [FIRST];
  }

  lemma Rotated()
    ensures Run(EMPTY, LateReplay()[..3]) == State(5, [SPENT, SECOND], [10])
  {
    LoggedIn();
    Advance(2);
    assert Find([FIRST], 10) == 0;
    assert RefreshStep(State(5, [FIRST], []), 10, 11, 10).0.rows == [SPENT, SECOND];
  }

  lemma Reaped()
    ensures Run(EMPTY, LateReplay()) == State(11, [SPENT.(deleted := true), SECOND], [10])
  {
    Rotated();
    Advance(3);
    Advance(4);
    assert LateReplay()[..5] == LateReplay();
    assert Run(EMPTY, LateReplay()).rows == [SPENT.(deleted := true), SECOND];
  }

  /** Replaying that token at 11 goes unnoticed: the family keeps its live session. */
  lemma LateReplayGoesUnnoticed()
    ensures var s := Run(EMPTY, LateReplay());
            && |s.rows| == 2 && s.rows[0].family == s.rows[1].family && s.rows[0].hash == 10 && 10 in s.accepted
            && Live(s.rows[1], s.now)
            && Step(s, Refresh(10, 12, 10)) == (s, AuthFailed)
  {
    Reaped();
    assert Find(Run(EMPTY, LateReplay()).rows, 10) == 2;
  }
}
