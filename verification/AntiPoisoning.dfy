/** Which telemetry events may enter the baseline, and where each is filed. */
module AntiPoisoning {
  import opened Basics
  import opened Telemetry

  datatype Tier = Pristine | Review | Quarantine

  datatype FileName = BaselineFile | QuarantineFile

  /** The fields the classification reads; `decision` is upper-cased. */
  datatype Event = Event(
    decision: string, risk: real, firedRules: nat, accountAgeDays: int, incidents: int, waf: real, auth: real)

  function Classify(e: Event): Tier {
    if e.decision == "BLOCK" || e.waf > 0.0 || e.auth > 0.0 || e.risk > 50.0 then Quarantine
    else if e.accountAgeDays < 7 || e.incidents > 0 then Review
    else if e.decision == "LIMIT" || (20.0 < e.risk <= 50.0) || e.firedRules > 0 then Review
    else if e.decision == "ALLOW" && e.risk <= 20.0 && e.firedRules == 0 then Pristine
    else Quarantine
  }

  /** An event is pristine exactly when it was allowed at low risk, fired nothing, shows no attack or authentication
      anomaly, and comes from a seasoned account without incidents. */
  lemma PristineExactly(e: Event)
    ensures Classify(e) == Pristine <==>
              && e.decision == "ALLOW" && e.risk <= 20.0 && e.firedRules == 0
              && e.waf <= 0.0 && e.auth <= 0.0 && e.accountAgeDays >= 7 && e.incidents <= 0
  {
    if e.decision == "ALLOW" {
      assert e.decision[0] == 'A';
      assert "BLOCK"[0] == 'B' && "LIMIT"[0] == 'L';
    }
  }

  /** The grey middle that waits for an analyst: no block, finding or risk above 50, and some doubt, be it a young
      account, a prior incident, a limited decision, a risk above 20 or a fired rule. Everything else that is not
      pristine is quarantined for good. */
  lemma ReviewExactly(e: Event)
    ensures Classify(e) == Review <==>
              && e.decision != "BLOCK" && e.waf <= 0.0 && e.auth <= 0.0 && e.risk <= 50.0
              && (e.accountAgeDays < 7 || e.incidents > 0 || e.decision == "LIMIT" || e.risk > 20.0 || e.firedRules > 0)
    ensures Classify(e) == Quarantine <==>
              || e.decision == "BLOCK" || e.waf > 0.0 || e.auth > 0.0 || e.risk > 50.0
              || (&& e.decision != "LIMIT" && e.decision != "ALLOW"
                  && e.risk <= 20.0 && e.firedRules == 0 && e.accountAgeDays >= 7 && e.incidents <= 0)
  {
    if e.decision == "ALLOW" || e.decision == "LIMIT" {
      assert e.decision[0] != 'B';
    }
  }

  /** What `process_event` puts on the queue. */
  function Routed(e: Event): (FileName, Event) {
    (if Classify(e) == Pristine then BaselineFile else QuarantineFile, e)
  }

  /** Only `process_event` emits. */
  predicate EmitsRouted(steps: seq<Step<(FileName, Event)>>) {
    forall i | 0 <= i < |steps| && steps[i].Emit? :: steps[i].event == Routed(steps[i].event.1)
  }

  lemma {:induction false} EmittedAreRouted(bound: int, steps: seq<Step<(FileName, Event)>>)
    requires EmitsRouted(steps)
    ensures forall i | 0 <= i < |Run(bound, steps).emitted| ::
              Run(bound, steps).emitted[i] == Routed(Run(bound, steps).emitted[i].1)
  {
    hide Routed;
    if steps == [] {
    } else {
      EmittedAreRouted(bound, steps[..|steps| - 1]);
    }
  }

  /** Under any interleaving, whatever reaches a file, from the queue or as an overflow, reaches the baseline file
      exactly when it is pristine. */
  lemma {:induction false} BaselineIsPristine(bound: int, steps: seq<Step<(FileName, Event)>>, item: (FileName, Event))
    requires EmitsRouted(steps)
    requires item in Run(bound, steps).written || item in Run(bound, steps).overflow
    ensures item.0 == BaselineFile <==> Classify(item.1) == Pristine
  {
    var p := Run(bound, steps);
    EveryEventAccountedFor(bound, steps, item);
    EmittedAreRouted(bound, steps);
    assert item in multiset(p.written) || item in multiset(p.overflow);
    assert item in multiset(p.emitted);
  }

  class AntiPoisoningFilter {
    const pipe: TelemetryPipeline<(FileName, Event)>

    constructor (bound: int)
      ensures fresh(pipe) && pipe.bound == bound && pipe.View() == Run(bound, [])
    {
      pipe := new TelemetryPipeline(bound);
    }

    /** Classify an event, queue it for its file, and say whether it is kept out of the baseline. */
    method ProcessEvent(ghost thread: nat, e: Event, ok: bool) returns (tier: Tier, quarantined: bool)
      requires thread !in pipe.spills
      modifies pipe
      ensures tier == Classify(e) && quarantined == (tier != Pristine)
      ensures pipe.View()
              == StepPipe(StepPipe(old(pipe.View()), pipe.bound, Emit(thread, Routed(e))), pipe.bound,
                          Spill(thread, ok))
    {
      hide StepPipe;
      tier := Classify(e);
      match tier {
        case Pristine =>
          pipe.EmitEvent(thread, (BaselineFile, e), ok);
          quarantined := false;
        case Review =>
          pipe.EmitEvent(thread, (QuarantineFile, e), ok);
          quarantined := true;
        case Quarantine =>
          pipe.EmitEvent(thread, (QuarantineFile, e), ok);
          quarantined := true;
      }
    }
  }
}
