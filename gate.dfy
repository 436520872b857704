/** The re-assessment gate shared by `checkAssessmentLock` and
    `handleAssessmentSubmit`: a client may submit unless the whole number of
    days since their last record is negative.

    As written, this blocks only a last record dated in the FUTURE; there is no
    minimum interval between two assessments. The model keeps that literal
    rule and the lemmas below make it explicit. */
module AssessmentGate {

  import opened Assessment

  const MS_PER_DAY: int := 1000 * 60 * 60 * 24

  /** `Math.floor((now - last) / MS_PER_DAY)`; Dafny's `/` with a positive
      divisor rounds toward negative infinity, as `Math.floor` does. */
  function DiffDays(now: int, last: int): (d: int)
    ensures d * MS_PER_DAY <= now - last < (d + 1) * MS_PER_DAY
  {
    (now - last) / MS_PER_DAY
  }

  datatype Eligibility = Eligible | Blocked(waitDays: nat)

  /** The decision for a history (oldest first) at instant `now` (ms). */
  function CheckEligibility(history: seq<Assessment>, now: int): (e: Eligibility)
    ensures e.Eligible? <==> history == [] || history[|history| - 1].date <= now
    ensures e.Blocked? ==> e.waitDays >= 1
    ensures e.Blocked? ==>
      (e.waitDays - 1) * MS_PER_DAY < history[|history| - 1].date - now <= e.waitDays * MS_PER_DAY
  {
    if |history| > 0 then
      var diffDays := DiffDays(now, history[|history| - 1].date);
      if diffDays < 0 then Blocked(0 - diffDays) else Eligible
    else Eligible
  }

  /** No cooldown: a record dated at or before `now` never blocks the next
      submission, even one made in the same instant. */
  lemma NoCooldown(history: seq<Assessment>, rec: Assessment, now: int)
    requires rec.date <= now
    ensures CheckEligibility(history + [rec], now) == Eligible
  {
  }

  /** Once allowed, a client stays allowed as time goes on (until a new record
      is appended). */
  lemma EligibleStaysEligible(history: seq<Assessment>, now: int, later: int)
    requires now <= later
    requires CheckEligibility(history, now) == Eligible
    ensures CheckEligibility(history, later) == Eligible
  {
  }

  /** A record one day old allows; one dated two days ahead blocks for two
      days. */
  lemma GateExamples(rec: Assessment, now: int)
    ensures rec.date == now - MS_PER_DAY ==> CheckEligibility([rec], now) == Eligible
    ensures rec.date == now + 2 * MS_PER_DAY ==> CheckEligibility([rec], now) == Blocked(2)
  {
    if rec.date == now + 2 * MS_PER_DAY {
      assert DiffDays(now, rec.date) == -2;
    }
  }

}
