/**
 * One-time codes sent to mobile numbers: an hourly limit and a cooldown on sending, and a bounded number of
 * guesses at every code. One call is one step; hashes are equal exactly when the codes are.
 */
module OneTimeCodes {
  import opened Prelude

  datatype Config = Config(ttlSeconds: int, maxAttempts: int, maxPerHour: int, resendCooldownSeconds: int)

  /** The bounds the configuration schema puts on its keys. */
  predicate ValidConfig(c: Config)
  {
    60 <= c.ttlSeconds <= 900 && 1 <= c.maxAttempts <= 10 && 1 <= c.maxPerHour <= 20 && 15 <= c.resendCooldownSeconds <= 600
  }

  const HOUR := 60 * 60 * 1000

  /** A sent code. The database deletes rows an hour after they expire; a deleted row stays here as a tombstone. */
  datatype Otp = Otp(target: string, purpose: string, code: string, createdAt: int, expiresAt: int, attempts: nat,
                     consumedAt: Option<int>, deleted: bool)

  /** A guess that was compared with a code. */
  datatype Guess = Guess(row: nat, code: string, at: int)

  /** `guesses` is history. */
  datatype State = State(now: int, rows: seq<Otp>, guesses: seq<Guess>)

  datatype Outcome =
    | Sent(expiresInSec: int)
    | HourlyLimit
    | Cooldown
    | NotFound
    | Locked
    | Invalid(attemptsLeft: int)
    | Verified
    | Nothing

  datatype Action =
    | Tick(elapsed: nat)
    | Issue(target: string, purpose: string, code: string)
    | Verify(target: string, purpose: string, code: string)
    | Reap(row: nat)

  // ---------- What each call does ----------

  function StoredSince(rows: seq<Otp>, target: string, from: int): nat
  {
    if rows == [] then 0
    else
      var r := rows[|rows| - 1];
      StoredSince(rows[..|rows| - 1], target, from) + if r.target == target && !r.deleted && r.createdAt >= from then 1 else 0
  }

  function ForTarget(target: string): Otp -> bool { (r: Otp) => r.target == target && !r.deleted }

  function Active(target: string, purpose: string, now: int): Otp -> bool
  {
    (r: Otp) => r.target == target && r.purpose == purpose && r.consumedAt.None? && r.expiresAt > now && !r.deleted
  }

  /** The newest row that matches (rows are stored in creation order), or the number of rows. */
  function Newest(rows: seq<Otp>, matches: Otp -> bool): (i: nat)
    ensures i <= |rows|
    ensures i < |rows| ==> matches(rows[i]) && forall k :: i < k < |rows| ==> !matches(rows[k])
    ensures i == |rows| ==> forall k :: 0 <= k < |rows| ==> !matches(rows[k])
  {
    if rows == [] then 0
    else if matches(rows[|rows| - 1]) then |rows| - 1
    else
      var i := Newest(rows[..|rows| - 1], matches);
      assert forall k :: 0 <= k < |rows| - 1 ==> rows[..|rows| - 1][k] == rows[k];
      if i == |rows| - 1 then |rows| else i
  }

  function NewRow(c: Config, target: string, purpose: string, code: string, now: int): Otp
  {
    Otp(target, purpose, code, now, now + c.ttlSeconds * 1000, 0, None, false)
  }

  function IssueOutcome(c: Config, s: State, target: string): Outcome
  {
    var latest := Newest(s.rows, ForTarget(target));
    if StoredSince(s.rows, target, s.now - HOUR) >= c.maxPerHour then HourlyLimit
    else if latest < |s.rows| && s.now - s.rows[latest].createdAt < c.resendCooldownSeconds * 1000 then Cooldown
    else Sent(c.ttlSeconds)
  }

  function IssueStep(c: Config, s: State, target: string, purpose: string, code: string): (State, Outcome)
  {
    var outcome := IssueOutcome(c, s, target);
    (if outcome.Sent? then s.(rows := s.rows + [NewRow(c, target, purpose, code, s.now)]) else s, outcome)
  }

  function VerifyStep(c: Config, s: State, target: string, purpose: string, code: string): (State, Outcome)
  {
    var i := Newest(s.rows, Active(target, purpose, s.now));
    if i == |s.rows| then (s, NotFound)
    else
      var r := s.rows[i];
      if r.attempts >= c.maxAttempts then (s, Locked)
      else if code != r.code then
        (State(s.now, s.rows[i := r.(attempts := r.attempts + 1)], s.guesses + [Guess(i, code, s.now)]),
         Invalid(c.maxAttempts - (r.attempts + 1)))
      else
        (State(s.now, s.rows[i := r.(consumedAt := Some(s.now))], s.guesses + [Guess(i, code, s.now)]), Verified)
  }

  function Step(c: Config, s: State, a: Action): (State, Outcome)
  {
    match a
    case Tick(elapsed) => (s.(now := s.now + elapsed), Nothing)
    case Issue(target, purpose, code) => IssueStep(c, s, target, purpose, code)
    case Verify(target, purpose, code) => VerifyStep(c, s, target, purpose, code)
    case Reap(i) =>
      if i < |s.rows| && s.rows[i].expiresAt + HOUR <= s.now then (s.(rows := s.rows[i := s.rows[i].(deleted := true)]), Nothing)
      else (s, Nothing)
  }

  function Run(c: Config, actions: seq<Action>): State
  {
    if actions == [] then State(0, [], []) else Step(c, Run(c, actions[..|actions| - 1]), actions[|actions| - 1]).0
  }

  // ---------- The service ----------

  class OtpService {
    const config: Config
    var now: int
    var rows: seq<Otp>
    ghost var guesses: seq<Guess>

    constructor (config: Config)
      ensures this.config == config && View() == State(0, [], [])
    {
      this.config := config;
      now, rows, guesses := 0, [], [];
    }

    ghost function View(): State
      reads this
    {
      State(now, rows, guesses)
    }

    method IssueCode(target: string, purpose: string, code: string) returns (r: Outcome)
      modifies this`rows
      ensures (View(), r) == IssueStep(config, old(View()), target, purpose, code)
    {
      var sentLastHour := StoredSince(rows, target, now - HOUR);
      if sentLastHour >= config.maxPerHour {
        return HourlyLimit;
      }
      var latest := Newest(rows, ForTarget(target));
      if latest < |rows| && now - rows[latest].createdAt < config.resendCooldownSeconds * 1000 {
        return Cooldown;
      }
      rows := rows + [NewRow(config, target, purpose, code, now)];
      r := Sent(config.ttlSeconds);
    }

    method VerifyCode(target: string, purpose: string, code: string) returns (r: Outcome)
      modifies this`rows, this`guesses
      ensures (View(), r) == VerifyStep(config, old(View()), target, purpose, code)
    {
      var i := Newest(rows, Active(target, purpose, now));
      if i == |rows| {
        return NotFound;
      }
      var doc := rows[i];
      if doc.attempts >= config.maxAttempts {
        return Locked;
      }
      guesses := guesses + [Guess(i, code, now)];
      if code != doc.code {
        rows := rows[i := doc.(attempts := doc.attempts + 1)];
        return Invalid(config.maxAttempts - rows[i].attempts);
      }
      rows := rows[i := doc.(consumedAt := Some(now))];
      r := Verified;
    }
  }

  // ---------- Sending ----------

  /** Codes ever sent to a target at times from `lo` to `hi`, both included, stored or not. */
  function SentIn(rows: seq<Otp>, target: string, lo: int, hi: int): nat
  {
    if rows == [] then 0
    else
      var r := rows[|rows| - 1];
      SentIn(rows[..|rows| - 1], target, lo, hi) + if r.target == target && lo <= r.createdAt <= hi then 1 else 0
  }

  function InHour(rows: seq<Otp>, target: string, t: int): nat { SentIn(rows, target, t, t + HOUR) }

  ghost predicate RowOk(c: Config, r: Otp, now: int)
  {
    && r.createdAt <= now
    && r.expiresAt == r.createdAt + c.ttlSeconds * 1000
    && (r.deleted ==> r.expiresAt + HOUR <= now)
  }

  ghost predicate RowsOk(c: Config, s: State)
  {
    && (forall i :: 0 <= i < |s.rows| ==> RowOk(c, s.rows[i], s.now))
    && (forall i, j :: 0 <= i < j < |s.rows| ==> s.rows[i].createdAt <= s.rows[j].createdAt)
  }

  ghost predicate Spaced(c: Config, rows: seq<Otp>)
  {
    forall i, j :: 0 <= i < j < |rows| && rows[i].target == rows[j].target ==>
      rows[j].createdAt - rows[i].createdAt >= c.resendCooldownSeconds * 1000
  }

  ghost predicate WithinHourly(c: Config, rows: seq<Otp>)
  {
    forall target, t :: InHour(rows, target, t) <= c.maxPerHour
  }

  /** The same sends: rows may differ in attempts, consumption and deletion only. */
  ghost predicate SameSends(a: seq<Otp>, b: seq<Otp>)
  {
    && |a| == |b|
    && forall i :: 0 <= i < |a| ==>
         a[i].target == b[i].target && a[i].createdAt == b[i].createdAt && a[i].expiresAt == b[i].expiresAt
  }

  lemma {:induction false} SameSendsCountTheSame(a: seq<Otp>, b: seq<Otp>, target: string, lo: int, hi: int)
    requires SameSends(a, b)
    ensures SentIn(a, target, lo, hi) == SentIn(b, target, lo, hi)
  {
    if a != [] {
      SameSendsCountTheSame(a[..|a| - 1], b[..|b| - 1], target, lo, hi);
    }
  }

  lemma {:induction false} NarrowerCountsFewer(rows: seq<Otp>, target: string, lo: int, hi: int, lo': int, hi': int)
    requires lo <= lo' && forall r :: r in rows ==> r.createdAt <= hi
    ensures SentIn(rows, target, lo', hi') <= SentIn(rows, target, lo, hi)
  {
    if rows != [] {
      NarrowerCountsFewer(rows[..|rows| - 1], target, lo, hi, lo', hi');
    }
  }

  /** Deletion never shortens the hour that is looked at: what is stored of it is all that was sent in it. */
  lemma {:induction false} HourIsStored(c: Config, now: int, rows: seq<Otp>, target: string)
    requires ValidConfig(c) && forall r :: r in rows ==> RowOk(c, r, now)
    ensures StoredSince(rows, target, now - HOUR) == SentIn(rows, target, now - HOUR, now)
  {
    if rows != [] {
      HourIsStored(c, now, rows[..|rows| - 1], target);
      assert RowOk(c, rows[|rows| - 1], now);
    }
  }

  lemma SentKeepsHourly(c: Config, s: State, target: string, purpose: string, code: string)
    requires ValidConfig(c) && RowsOk(c, s) && WithinHourly(c, s.rows) && IssueOutcome(c, s, target).Sent?
    ensures WithinHourly(c, IssueStep(c, s, target, purpose, code).0.rows)
  {
    var rows := s.rows + [NewRow(c, target, purpose, code, s.now)];
    assert rows[..|s.rows|] == s.rows;
    HourIsStored(c, s.now, s.rows, target);
    forall x, t
      ensures InHour(rows, x, t) <= c.maxPerHour
    {
      assert InHour(s.rows, x, t) <= c.maxPerHour;
      if x == target && t <= s.now <= t + HOUR {
        NarrowerCountsFewer(s.rows, target, s.now - HOUR, s.now, t, t + HOUR);
      }
    }
  }

  lemma SentKeepsSpacing(c: Config, s: State, target: string, purpose: string, code: string)
    requires ValidConfig(c) && RowsOk(c, s) && Spaced(c, s.rows) && IssueOutcome(c, s, target).Sent?
    ensures Spaced(c, IssueStep(c, s, target, purpose, code).0.rows)
  {
    var latest := Newest(s.rows, ForTarget(target));
    forall i | 0 <= i < |s.rows| && s.rows[i].target == target
      ensures s.now - s.rows[i].createdAt >= c.resendCooldownSeconds * 1000
    {
      assert RowOk(c, s.rows[i], s.now);
      if !s.rows[i].deleted {
        assert ForTarget(target)(s.rows[i]);
      }
    }
  }

  ghost predicate SendsOk(c: Config, s: State) { RowsOk(c, s) && Spaced(c, s.rows) && WithinHourly(c, s.rows) }

  lemma SameSendsStayOk(c: Config, s: State, d: State)
    requires SendsOk(c, s) && SameSends(s.rows, d.rows) && s.now <= d.now
    requires forall i :: 0 <= i < |s.rows| ==> (d.rows[i].deleted ==> s.rows[i].deleted || s.rows[i].expiresAt + HOUR <= d.now)
    ensures SendsOk(c, d)
  {
    forall i | 0 <= i < |d.rows|
      ensures RowOk(c, d.rows[i], d.now)
    {
      assert RowOk(c, s.rows[i], s.now);
    }
    forall target, t
      ensures InHour(d.rows, target, t) <= c.maxPerHour
    {
      assert InHour(s.rows, target, t) <= c.maxPerHour;
      SameSendsCountTheSame(s.rows, d.rows, target, t, t + HOUR);
    }
  }

  lemma IssueKeepsSends(c: Config, s: State, target: string, purpose: string, code: string)
    requires ValidConfig(c) && SendsOk(c, s)
    ensures SendsOk(c, IssueStep(c, s, target, purpose, code).0)
  {
    if IssueOutcome(c, s, target).Sent? {
      SentKeepsHourly(c, s, target, purpose, code);
      SentKeepsSpacing(c, s, target, purpose, code);
    }
  }

  lemma VerifyKeepsSends(c: Config, s: State, target: string, purpose: string, code: string)
    requires SendsOk(c, s)
    ensures SendsOk(c, VerifyStep(c, s, target, purpose, code).0)
  {
    SameSendsStayOk(c, s, VerifyStep(c, s, target, purpose, code).0);
  }

  lemma StepKeepsSends(c: Config, s: State, a: Action)
    requires ValidConfig(c) && SendsOk(c, s)
    ensures SendsOk(c, Step(c, s, a).0)
  {
    match a
    case Issue(target, purpose, code) => IssueKeepsSends(c, s, target, purpose, code);
    case Verify(target, purpose, code) => VerifyKeepsSends(c, s, target, purpose, code);
    case Tick(_) => SameSendsStayOk(c, s, Step(c, s, a).0);
    case Reap(_) => SameSendsStayOk(c, s, Step(c, s, a).0);
  }

  lemma {:induction false} RunKeepsSends(c: Config, actions: seq<Action>)
    requires ValidConfig(c)
    ensures SendsOk(c, Run(c, actions))
  {
    if actions != [] {
      RunKeepsSends(c, actions[..|actions| - 1]);
      StepKeepsSends(c, Run(c, actions[..|actions| - 1]), actions[|actions| - 1]);
    }
  }

  /** Over every run, no hour holds more than `maxPerHour` sends to a target, deleted rows included. */
  lemma HourlyLimitHolds(c: Config, actions: seq<Action>, target: string, t: int)
    requires ValidConfig(c)
    ensures InHour(Run(c, actions).rows, target, t) <= c.maxPerHour
  {
    RunKeepsSends(c, actions);
  }

  /** Over every run, two sends to a target are at least the cooldown apart. */
  lemma SendsAreSpaced(c: Config, actions: seq<Action>, i: nat, j: nat)
    requires ValidConfig(c)
    requires i < j < |Run(c, actions).rows| && Run(c, actions).rows[i].target == Run(c, actions).rows[j].target
    ensures Run(c, actions).rows[j].createdAt - Run(c, actions).rows[i].createdAt >= c.resendCooldownSeconds * 1000
  {
    RunKeepsSends(c, actions);
  }

  ghost predicate SentRecently(c: Config, s: State, target: string)
  {
    exists r :: r in s.rows && r.target == target && s.now - r.createdAt < c.resendCooldownSeconds * 1000
  }

  /** The cooldown check looks at the newest stored row only; deleted rows are past any cooldown. */
  lemma NewestDecidesCooldown(c: Config, s: State, target: string)
    requires ValidConfig(c) && RowsOk(c, s)
    ensures var latest := Newest(s.rows, ForTarget(target));
            SentRecently(c, s, target) <==>
              (latest < |s.rows| && s.now - s.rows[latest].createdAt < c.resendCooldownSeconds * 1000)
  {
    var latest := Newest(s.rows, ForTarget(target));
    if latest < |s.rows| {
      assert s.rows[latest] in s.rows && ForTarget(target)(s.rows[latest]);
    }
    forall i | 0 <= i < |s.rows| && s.rows[i].target == target && s.now - s.rows[i].createdAt < c.resendCooldownSeconds * 1000
      ensures latest < |s.rows| && s.rows[i].createdAt <= s.rows[latest].createdAt
    {
      assert RowOk(c, s.rows[i], s.now) && ForTarget(target)(s.rows[i]);
    }
  }

  /** A code is sent exactly when the history, deleted rows included, has room in the hour and is past the cooldown. */
  lemma SentExactlyWhenAllowed(c: Config, actions: seq<Action>, target: string)
    requires ValidConfig(c)
    ensures var s := Run(c, actions);
            IssueOutcome(c, s, target).Sent? <==>
              (SentIn(s.rows, target, s.now - HOUR, s.now) < c.maxPerHour && !SentRecently(c, s, target))
  {
    var s := Run(c, actions);
    RunKeepsSends(c, actions);
    HourIsStored(c, s.now, s.rows, target);
    NewestDecidesCooldown(c, s, target);
  }

  // ---------- Guessing ----------

  /** Guesses compared with the code of a row that were, or were not, right. */
  function Guesses(s: State, guesses: seq<Guess>, row: nat, right: bool): nat
    requires row < |s.rows|
  {
    if guesses == [] then 0
    else
      var g := guesses[|guesses| - 1];
      Guesses(s, guesses[..|guesses| - 1], row, right) + if g.row == row && (g.code == s.rows[row].code) == right then 1 else 0
  }

  ghost predicate GuessesOk(c: Config, s: State)
  {
    && (forall g :: g in s.guesses ==> g.row < |s.rows| && s.rows[g.row].createdAt <= g.at < s.rows[g.row].expiresAt)
    && (forall i :: 0 <= i < |s.rows| ==> RowGuessesOk(c, s, i))
  }

  ghost predicate RowGuessesOk(c: Config, s: State, i: nat)
    requires i < |s.rows|
  {
    && Guesses(s, s.guesses, i, false) == s.rows[i].attempts <= c.maxAttempts
    && Guesses(s, s.guesses, i, true) == (if s.rows[i].consumedAt.Some? then 1 else 0)
  }

  ghost predicate SameCodes(s: State, d: State)
  {
    |s.rows| <= |d.rows| && forall i :: 0 <= i < |s.rows| ==>
      d.rows[i].code == s.rows[i].code && d.rows[i].createdAt == s.rows[i].createdAt && d.rows[i].expiresAt == s.rows[i].expiresAt
  }

  lemma {:induction false} SameCodesCountTheSame(s: State, d: State, guesses: seq<Guess>, row: nat, right: bool)
    requires SameCodes(s, d) && row < |s.rows|
    ensures Guesses(d, guesses, row, right) == Guesses(s, guesses, row, right)
  {
    if guesses != [] {
      SameCodesCountTheSame(s, d, guesses[..|guesses| - 1], row, right);
    }
  }

  lemma {:induction false} NoGuessesYet(s: State, guesses: seq<Guess>, row: nat, right: bool)
    requires row < |s.rows| && forall g :: g in guesses ==> g.row < row
    ensures Guesses(s, guesses, row, right) == 0
  {
    if guesses != [] {
      NoGuessesYet(s, guesses[..|guesses| - 1], row, right);
    }
  }

  lemma OneMoreGuess(s: State, g: Guess, row: nat, right: bool)
    requires row < |s.rows|
    ensures Guesses(s, s.guesses + [g], row, right)
         == Guesses(s, s.guesses, row, right) + if g.row == row && (g.code == s.rows[row].code) == right then 1 else 0
  {
    assert (s.guesses + [g])[..|s.guesses|] == s.guesses;
  }

  lemma VerifyKeepsGuesses(c: Config, s: State, target: string, purpose: string, code: string)
    requires ValidConfig(c) && RowsOk(c, s) && GuessesOk(c, s)
    ensures GuessesOk(c, VerifyStep(c, s, target, purpose, code).0)
  {
    var d := VerifyStep(c, s, target, purpose, code).0;
    if d != s {
      var g := d.guesses[|d.guesses| - 1];
      assert RowOk(c, s.rows[g.row], s.now) && Active(target, purpose, s.now)(s.rows[g.row]);
      forall i | 0 <= i < |d.rows|
        ensures RowGuessesOk(c, d, i)
      {
        assert RowGuessesOk(c, s, i);
        OneMoreGuess(s, g, i, true);
        OneMoreGuess(s, g, i, false);
        SameCodesCountTheSame(s, d, d.guesses, i, true);
        SameCodesCountTheSame(s, d, d.guesses, i, false);
      }
    }
  }

  lemma OtherStepsKeepGuesses(c: Config, s: State, a: Action)
    requires ValidConfig(c) && GuessesOk(c, s) && !a.Verify?
    ensures GuessesOk(c, Step(c, s, a).0)
  {
    var d := Step(c, s, a).0;
    forall i | 0 <= i < |d.rows|
      ensures RowGuessesOk(c, d, i)
    {
      if i < |s.rows| {
        assert RowGuessesOk(c, s, i);
        SameCodesCountTheSame(s, d, s.guesses, i, true);
        SameCodesCountTheSame(s, d, s.guesses, i, false);
      } else {
        NoGuessesYet(d, d.guesses, i, true);
        NoGuessesYet(d, d.guesses, i, false);
      }
    }
  }

  lemma {:induction false} RunKeepsGuesses(c: Config, actions: seq<Action>)
    requires ValidConfig(c)
    ensures GuessesOk(c, Run(c, actions))
  {
    if actions != [] {
      var n := |actions| - 1;
      RunKeepsGuesses(c, actions[..n]);
      RunKeepsSends(c, actions[..n]);
      if actions[n].Verify? {
        VerifyKeepsGuesses(c, Run(c, actions[..n]), actions[n].target, actions[n].purpose, actions[n].code);
      } else {
        OtherStepsKeepGuesses(c, Run(c, actions[..n]), actions[n]);
      }
    }
  }

  /**
   * Over every run, a code is accepted at most once and compared with at most `maxAttempts` wrong guesses, all
   * of them between its creation and its expiry.
   */
  lemma GuessesAreBounded(c: Config, actions: seq<Action>, row: nat)
    requires ValidConfig(c) && row < |Run(c, actions).rows|
    ensures var s := Run(c, actions);
            && Guesses(s, s.guesses, row, true) <= 1
            && Guesses(s, s.guesses, row, false) <= c.maxAttempts
            && forall g :: g in s.guesses && g.row == row ==> s.rows[row].createdAt <= g.at < s.rows[row].expiresAt
  {
    RunKeepsGuesses(c, actions);
    assert RowGuessesOk(c, Run(c, actions), row);
  }
}
