/** Admin-supplied rule validation and the pure rule evaluation it feeds. */
module ChallengeRules {
  import opened Prelude

  datatype Rules = Rules(profitTargetPct: real, maxDrawdownPct: real, dailyDrawdownPct: real, drawdownAnchor: string,
                         minTradingDays: int, expiryDays: int, rewardPct: real, segments: seq<string>)

  /** What an admin submits: a field is `None` when it is missing or not of the expected kind. */
  datatype RawRules = RawRules(profitTargetPct: Option<real>, maxDrawdownPct: Option<real>,
                               dailyDrawdownPct: Option<real>, drawdownAnchor: Option<string>,
                               minTradingDays: Option<int>, expiryDays: Option<int>, rewardPct: Option<real>,
                               segments: Option<seq<string>>)

  datatype RuleError = RULE_INVALID(field: string) | RULE_INCONSISTENT(field: string)

  datatype Validated = Accepted(rules: Rules) | Refused(error: RuleError)

  const SEGMENTS := ["EQ", "FO", "CUR"]

  predicate PctWithin(v: Option<real>, min: real, max: real) { v.Some? && min <= v.value <= max }

  predicate IntWithin(v: Option<int>, min: int, max: int) { v.Some? && min <= v.value <= max }

  predicate AllKnown(segments: seq<string>) { forall s :: s in segments ==> s in SEGMENTS }

  function Distinct(s: seq<string>): (r: seq<string>)
    ensures forall x :: x in r <==> x in s
    ensures forall i, j :: 0 <= i < j < |r| ==> r[i] != r[j]
  {
    if s == [] then []
    else
      var front := Distinct(s[..|s| - 1]);
      assert s == s[..|s| - 1] + [s[|s| - 1]];
      if s[|s| - 1] in front then front else front + [s[|s| - 1]]
  }

  function ValidateChallengeRules(raw: RawRules): Validated
  {
    if !PctWithin(raw.profitTargetPct, 0.1, 100.0) then Refused(RULE_INVALID("profitTargetPct"))
    else if !PctWithin(raw.maxDrawdownPct, 0.1, 100.0) then Refused(RULE_INVALID("maxDrawdownPct"))
    else if !PctWithin(raw.dailyDrawdownPct, 0.1, 100.0) then Refused(RULE_INVALID("dailyDrawdownPct"))
    else if !PctWithin(raw.rewardPct, 0.0, 100.0) then Refused(RULE_INVALID("rewardPct"))
    else if raw.dailyDrawdownPct.value > raw.maxDrawdownPct.value then Refused(RULE_INCONSISTENT("dailyDrawdownPct"))
    else if raw.drawdownAnchor != Some("PREV_DAY_CLOSE") && raw.drawdownAnchor != Some("INITIAL_CAPITAL") then
      Refused(RULE_INVALID("drawdownAnchor"))
    else if !IntWithin(raw.minTradingDays, 0, 365) then Refused(RULE_INVALID("minTradingDays"))
    else if !IntWithin(raw.expiryDays, 1, 365) then Refused(RULE_INVALID("expiryDays"))
    else if raw.minTradingDays.value > raw.expiryDays.value then Refused(RULE_INCONSISTENT("minTradingDays"))
    else if raw.segments.None? || raw.segments.value == [] || !AllKnown(raw.segments.value) then
      Refused(RULE_INVALID("segments"))
    else
      Accepted(Rules(raw.profitTargetPct.value, raw.maxDrawdownPct.value, raw.dailyDrawdownPct.value,
                     raw.drawdownAnchor.value, raw.minTradingDays.value, raw.expiryDays.value, raw.rewardPct.value,
                     Distinct(raw.segments.value)))
  }

  ghost predicate NoRepeats(s: seq<string>) { forall i, j :: 0 <= i < j < |s| ==> s[i] != s[j] }

  /** The constraints the rule arithmetic relies on. */
  ghost predicate Sound(r: Rules)
  {
    && 0.1 <= r.profitTargetPct <= 100.0
    && 0.1 <= r.dailyDrawdownPct <= r.maxDrawdownPct <= 100.0
    && 0.0 <= r.rewardPct <= 100.0
    && (r.drawdownAnchor == "PREV_DAY_CLOSE" || r.drawdownAnchor == "INITIAL_CAPITAL")
    && 0 <= r.minTradingDays <= r.expiryDays <= 365 && 1 <= r.expiryDays
    && r.segments != [] && AllKnown(r.segments) && NoRepeats(r.segments)
  }

  function RawOf(r: Rules): RawRules
  {
    RawRules(Some(r.profitTargetPct), Some(r.maxDrawdownPct), Some(r.dailyDrawdownPct), Some(r.drawdownAnchor),
             Some(r.minTradingDays), Some(r.expiryDays), Some(r.rewardPct), Some(r.segments))
  }

  /** Validation accepts exactly the sound rules, and re-validating what it accepted changes nothing. */
  lemma ValidationIsExact(r: Rules)
    ensures ValidateChallengeRules(RawOf(r)) == Accepted(r) <==> Sound(r)
    ensures forall raw :: ValidateChallengeRules(raw) == Accepted(r) ==> Sound(r)
  {
    if Sound(r) {
      DistinctKeepsDistinct(r.segments);
    }
    forall raw | ValidateChallengeRules(raw) == Accepted(r)
      ensures Sound(r)
    {
      AcceptedIsSound(raw);
    }
    if ValidateChallengeRules(RawOf(r)) == Accepted(r) {
      AcceptedIsSound(RawOf(r));
    }
  }

  lemma AcceptedIsSound(raw: RawRules)
    requires ValidateChallengeRules(raw).Accepted?
    ensures Sound(ValidateChallengeRules(raw).rules)
  {
    DistinctKeepsKnown(raw.segments.value);
  }

  lemma DistinctKeepsKnown(s: seq<string>)
    requires s != [] && AllKnown(s)
    ensures Distinct(s) != [] && AllKnown(Distinct(s)) && NoRepeats(Distinct(s))
  {
    assert s[0] in Distinct(s);
  }

  lemma {:induction false} DistinctKeepsDistinct(s: seq<string>)
    requires NoRepeats(s)
    ensures Distinct(s) == s
  {
    if s != [] {
      DistinctKeepsDistinct(s[..|s| - 1]);
    }
  }

  // ---------- Evaluation ----------

  datatype FailReason = DAILY_DRAWDOWN | MAX_DRAWDOWN | EXPIRED

  datatype Outcome = CONTINUE | PASS | FAIL(reason: FailReason)

  datatype EvalInput = EvalInput(rules: Rules, capital: int, mtmEquity: int, dayStartEquity: int,
                                 tradingDaysCount: int, expired: bool)

  function PctOf(amount: int, pct: real): int { Round(amount as real * pct / 100.0) }

  function DailyFloor(i: EvalInput): int { i.dayStartEquity - PctOf(i.dayStartEquity, i.rules.dailyDrawdownPct) }

  function MaxFloor(i: EvalInput): int { i.capital - PctOf(i.capital, i.rules.maxDrawdownPct) }

  function ProfitTarget(i: EvalInput): int { i.capital + PctOf(i.capital, i.rules.profitTargetPct) }

  function EvaluateChallenge(i: EvalInput): Outcome
  {
    if i.mtmEquity <= DailyFloor(i) then FAIL(DAILY_DRAWDOWN)
    else if i.mtmEquity <= MaxFloor(i) then FAIL(MAX_DRAWDOWN)
    else if i.expired then FAIL(EXPIRED)
    else if i.mtmEquity >= ProfitTarget(i) && i.tradingDaysCount >= i.rules.minTradingDays then PASS
    else CONTINUE
  }

  function ComputeRewardPaise(capital: int, finalEquity: int, rewardPct: real): int
  {
    PctOf(Max(0, finalEquity - capital), rewardPct)
  }

  lemma PctMonotone(amount: int, p: real, q: real)
    requires amount >= 0 && p <= q
    ensures PctOf(amount, p) <= PctOf(amount, q)
  {
    assert amount as real * p <= amount as real * q;
  }

  lemma PctMonotoneInAmount(a: int, b: int, p: real)
    requires a <= b && 0.0 <= p
    ensures PctOf(a, p) <= PctOf(b, p)
  {
    assert a as real * p <= b as real * p;
  }

  lemma PctBounds(amount: int, p: real)
    requires amount >= 0 && 0.0 <= p <= 100.0
    ensures 0 <= PctOf(amount, p) <= amount
  {
    PctMonotone(amount, 0.0, p);
    PctMonotone(amount, p, 100.0);
  }

  /**
   * MAX_DRAWDOWN can be reported at all exactly when the overall floor lies above today's floor; under
   * validated rules that never happens while the day started at the opening capital.
   */
  lemma MaxDrawdownReachable(i: EvalInput)
    ensures (exists e: int :: EvaluateChallenge(i.(mtmEquity := e)) == FAIL(MAX_DRAWDOWN)) <==> DailyFloor(i) < MaxFloor(i)
    ensures Sound(i.rules) && i.dayStartEquity == i.capital >= 0 ==> MaxFloor(i) <= DailyFloor(i)
  {
    if DailyFloor(i) < MaxFloor(i) {
      assert EvaluateChallenge(i.(mtmEquity := MaxFloor(i))) == FAIL(MAX_DRAWDOWN);
    }
    if Sound(i.rules) && i.dayStartEquity == i.capital >= 0 {
      PctMonotone(i.capital, i.rules.dailyDrawdownPct, i.rules.maxDrawdownPct);
    }
  }

  ghost predicate DrawdownFailure(o: Outcome) { o == FAIL(DAILY_DRAWDOWN) || o == FAIL(MAX_DRAWDOWN) }

  /**
   * More equity never introduces a drawdown failure and never takes a pass away; a pass means a profit
   * within the time limit, so under validated rules it also never falls to the opening capital or below.
   */
  lemma MoreEquityNeverHurts(i: EvalInput, e: int)
    requires i.mtmEquity <= e
    ensures DrawdownFailure(EvaluateChallenge(i.(mtmEquity := e))) ==> DrawdownFailure(EvaluateChallenge(i))
    ensures EvaluateChallenge(i) == PASS ==> EvaluateChallenge(i.(mtmEquity := e)) == PASS
    ensures EvaluateChallenge(i) == PASS ==> !i.expired && i.mtmEquity > DailyFloor(i) && i.mtmEquity > MaxFloor(i)
    ensures EvaluateChallenge(i) == PASS && Sound(i.rules) && i.capital >= 500 ==> i.mtmEquity > i.capital
  {
    if Sound(i.rules) && i.capital >= 500 {
      assert PctOf(i.capital, 0.1) >= 1 by { assert i.capital as real * 0.1 / 100.0 >= 0.5; }
      PctMonotone(i.capital, 0.1, i.rules.profitTargetPct);
    }
  }

  /** The reward never exceeds the profit, is never negative, and never falls when the final equity rises. */
  lemma RewardBounds(capital: int, equity: int, higher: int, rewardPct: real)
    requires 0.0 <= rewardPct <= 100.0 && equity <= higher
    ensures 0 <= ComputeRewardPaise(capital, equity, rewardPct) <= Max(0, equity - capital)
    ensures ComputeRewardPaise(capital, equity, rewardPct) <= ComputeRewardPaise(capital, higher, rewardPct)
  {
    PctBounds(Max(0, equity - capital), rewardPct);
    PctMonotoneInAmount(Max(0, equity - capital), Max(0, higher - capital), rewardPct);
  }
}
