/** The Psychology Head in front of the gate: what its cooldown does to the heavy cycles of the Captain. */
module DisciplineRuns {
  import opened SharedTypes
  import opened FloorSummaries
  import opened PermissionGate
  import opened CaptainEngine
  import opened CaptainRuns
  import Psychology
  import HeadContract

  /** The cycle carries the report that the head makes of its memory at `now`. */
  ghost predicate CarriesReportOf(inp: HeavyInput, m: Psychology.PsychologyMemory, count: nat, last: Option<real>,
                                  now: real) {
    FindReport(inp.reports, PsychologyHead)
    == Some(HeadContract.RefreshReport(HeadContract.PsychologySignals(m, count), last, now))
  }

  lemma ReportCarriesVerdict(m: Psychology.PsychologyMemory, count: nat, last: Option<real>, now: real)
    ensures var r := HeadContract.RefreshReport(HeadContract.PsychologySignals(m, count), last, now);
            && r.tradeAllowed == Psychology.TradeAllowed(m) && r.cautionLevel == Psychology.CautionLevel(m)
            && r.cooldownActive == m.cooldownActive && r.trapPressure == m.trapPressure
  {
    hide Psychology.TradeAllowed, Psychology.CautionLevel, Psychology.PsychologyRules, Psychology.BrakeBias,
      Psychology.PsychologyBaseConfidence;
  }

  /** The gate names the psychology check exactly if the report it carries forbids trading. */
  lemma GateFollowsVerdict(s: CaptainState, inp: HeavyInput, m: Psychology.PsychologyMemory, count: nat,
                           last: Option<real>, now: real)
    requires CarriesReportOf(inp, m, count, last, now)
    ensures PsychologyCheck in GateVerdict(Opened(s, inp), inp) <==> !Psychology.TradeAllowed(m)
  {
    var t := Opened(s, inp);
    ReportCarriesVerdict(m, count, last, now);
    BlockedByIsExact(GateInputOf(inp, t.activeTrade.Some?), t.gateLock.locked, t.gateGuard.granted);
    hide BlockedBy, FindReport, HeadContract.RefreshReport;
  }

  /**
   Over any run of refreshes without a new cooldown report, every heavy cycle that carries the head's report is stopped
   by the psychology check, and trades nothing, until the countdown has run out.
  */
  lemma CooldownStopsCycles(b: Psychology.Brakes, start: real, visits: seq<Psychology.Visit>,
                            s: CaptainState, inp: HeavyInput, count: nat, last: Option<real>, now: real)
    requires b.memory.cooldownActive && b.memory.cooldownRemaining > 0.0 && b.baseline == Some(start)
    requires Psychology.QuietVisits(visits) && Psychology.ForwardFrom(start, visits)
    requires Psychology.LastTime(start, visits) - start < b.memory.cooldownRemaining
    requires CarriesReportOf(inp, Psychology.RefreshRun(b, visits).memory, count, last, now)
    ensures HeavyOut(s, inp).Blocked? && PsychologyCheck in HeavyOut(s, inp).failed
    ensures Traded(s, Heavy(inp)).None?
  {
    hide CarriesReportOf, BlockedBy;
    Psychology.CooldownBlocks(b, start, visits);
    GateFollowsVerdict(s, inp, Psychology.RefreshRun(b, visits).memory, count, last, now);
  }
}
