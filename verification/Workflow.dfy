// The dispatcher that works through Specs: bounded parallel execution, serial
// integration, and the accounting of results (scripts/sandcastle/workflow.ts). Executions
// run in the background; at every await any of them may have settled, in any order.
module Workflow {
  import opened Json

  datatype Settlement = Fulfilled(value: bool) | Rejected(isFatal: bool)

  datatype Selection = PlanFails | Exhausted | Chosen(spec: nat, tickets: seq<nat>)

  datatype Frontier = FrontierFails | Frontier(tickets: seq<nat>, complete: bool)

  datatype Ending = Normal | FailsOrdinarily | FailsFatally

  datatype Runtime = Runtime(
    plan: (nat, set<nat>) -> Selection,
    frontier: (nat, nat, set<nat>) -> Frontier,
    execute: (nat, nat) -> Settlement,
    integrate: (nat, nat) -> Ending,
    finalize: nat -> Option<Ending>,
    deliver: nat -> Option<Ending>,
    pause: nat -> Ending,
    settled: nat -> set<nat>,
    aborts: nat -> bool,
    race: (nat, set<nat>) -> nat,
    universe: nat -> set<nat>)

  /** A race is won by a contender, and every frontier names tickets of its Spec. */
  ghost predicate Plausible(rt: Runtime) {
    && (forall n: nat, s: set<nat> :: s != {} ==> rt.race(n, s) in s)
    && (forall n: nat, spec: nat, done: set<nat> :: rt.frontier(n, spec, done).Frontier? ==>
          forall t :: t in rt.frontier(n, spec, done).tickets ==> t in rt.universe(spec))
    && (forall n: nat, done: set<nat> :: rt.plan(n, done).Chosen? ==>
          forall t :: t in rt.plan(n, done).tickets ==> t in rt.universe(rt.plan(n, done).spec))
  }

  function Set(s: seq<nat>): set<nat> { set x | x in s }

  ghost predicate NoRepeats(s: seq<nat>) {
    forall i, j :: 0 <= i < j < |s| ==> s[i] != s[j]
  }

  /** `whole` is made of exactly the members of `a` and `b`, each once. */
  ghost predicate Splits(whole: set<nat>, a: seq<nat>, b: seq<nat>) {
    whole == Set(a) + Set(b) && NoRepeats(a) && NoRepeats(b) && Set(a) !! Set(b)
  }

  lemma SplitGrows(whole: set<nat>, a: seq<nat>, b: seq<nat>, t: nat)
    requires Splits(whole, a, b) && t !in whole
    ensures Splits(whole + {t}, a + [t], b) && Splits(whole + {t}, a, b + [t])
  {
    assert Set(a + [t]) == Set(a) + {t} && Set(b + [t]) == Set(b) + {t};
  }

  // ---- One Spec ----

  class SpecRun {
    const rt: Runtime
    const spec: nat
    const maxParallel: nat
    var clock: nat
    var attempted: set<nat>
    var running: set<nat>
    var hasFatal: bool
    var aborted: bool
    var integrated: seq<nat>
    var failed: seq<nat>
    ghost var starts: seq<nat>   // the executions started, in order
    ghost var finished: set<nat> // those whose executor has settled

    ghost predicate Bounded()
      reads this
    {
      && Plausible(rt) && |running| <= maxParallel && 1 <= maxParallel
      && running <= attempted <= rt.universe(spec)
      && NoRepeats(starts) && Set(starts) == attempted && finished <= attempted && attempted <= running + finished
      && (forall t :: t in integrated ==> rt.execute(spec, t) == Fulfilled(true) && rt.integrate(spec, t) == Normal)
    }

    /** Started work is running, integrated or failed. */
    ghost predicate Accounted()
      reads this
    {
      Bounded() && Splits(attempted - running, integrated, failed)
    }

    /** Nobody has raised an alarm that the settled executions would have raised. */
    ghost predicate Alarmed()
      reads this
    {
      forall t :: t in finished && rt.execute(spec, t) == Rejected(true) ==> hasFatal
    }

    constructor (rt: Runtime, spec: nat, maxParallel: nat, clock: nat)
      requires Plausible(rt) && maxParallel >= 1
      ensures Accounted() && Alarmed() && fresh(this) && attempted == {} && !hasFatal && !aborted
      ensures this.rt == rt && this.spec == spec && this.maxParallel == maxParallel
    {
      this.rt, this.spec, this.maxParallel, this.clock := rt, spec, maxParallel, clock;
      attempted, running, hasFatal, aborted, integrated, failed := {}, {}, false, false, [], [];
      starts, finished := [], {};
    }

    method Settle(settled: set<nat>)
      requires Bounded() && Alarmed() && settled <= attempted
      modifies this`hasFatal, this`finished
      ensures Bounded() && Alarmed() && finished == old(finished) + settled
      ensures old(hasFatal) ==> hasFatal
    {
      if exists t :: t in settled && rt.execute(spec, t) == Rejected(true) { hasFatal := true; }
      finished := finished + settled;
    }

    /** Everything that may happen in the background during an await. */
    method Await()
      requires Bounded() && Alarmed()
      modifies this`clock, this`hasFatal, this`aborted, this`finished
      ensures Bounded() && Alarmed() && old(finished) <= finished && (old(hasFatal) ==> hasFatal) && (old(aborted) ==> aborted)
    {
      Settle(rt.settled(clock) * running);
      aborted := aborted || rt.aborts(clock);
      clock := clock + 1;
    }

    method Start(ticket: nat)
      requires Accounted() && Alarmed() && ticket in rt.universe(spec) && ticket !in attempted && |running| < maxParallel
      modifies this`attempted, this`running, this`starts
      ensures Accounted() && Alarmed() && attempted - running == old(attempted) - old(running)
      ensures attempted == old(attempted) + {ticket} && starts == old(starts) + [ticket]
    {
      attempted := attempted + {ticket};
      running := running + {ticket};
      starts := starts + [ticket];
      assert attempted - running == old(attempted) - old(running);
      assert Set(starts) == Set(old(starts)) + {ticket};
    }

    /** Starts as much of the frontier as fits. */
    method Dispatch(tickets: seq<nat>)
      requires Accounted() && Alarmed() && NamesTickets(tickets)
      modifies this`attempted, this`running, this`starts
      ensures Accounted() && Alarmed() && attempted - running == old(attempted) - old(running)
      ensures old(attempted) <= attempted && old(starts) <= starts
      ensures Served(tickets) && (running == {} && old(running) == {} ==> attempted == old(attempted))
    {
      for i := 0 to |tickets|
        invariant Accounted() && Alarmed() && attempted - running == old(attempted) - old(running)
        invariant old(attempted) <= attempted && old(starts) <= starts
        invariant forall k :: 0 <= k < i ==> tickets[k] in attempted
      {
        if |running| >= maxParallel || hasFatal || aborted { break; }
        var ticket := tickets[i];
        if ticket !in attempted { Start(ticket); }
      }
    }

    /** Integrates or fails one settled ticket. A fatal integration error ends the Spec. */
    method Conclude(ticket: nat) returns (threw: bool)
      requires Bounded() && Alarmed() && ticket in attempted && ticket !in running
      requires Splits(attempted - running - {ticket}, integrated, failed)
      modifies this`integrated, this`failed, this`clock, this`hasFatal, this`aborted, this`finished
      ensures Bounded() && Alarmed() && (!threw ==> Accounted()) && (old(hasFatal) ==> hasFatal) && (old(aborted) ==> aborted)
      ensures threw <==> rt.execute(spec, ticket) == Fulfilled(true) && rt.integrate(spec, ticket).FailsFatally?
      ensures integrated == old(integrated) ||
        (integrated == old(integrated) + [ticket] && rt.execute(spec, ticket) == Fulfilled(true))
    {
      SplitGrows(attempted - running - {ticket}, integrated, failed, ticket);
      assert attempted - running - {ticket} + {ticket} == attempted - running;
      threw := false;
      if rt.execute(spec, ticket) == Fulfilled(true) {
        Await();
        match rt.integrate(spec, ticket) {
          case Normal => integrated := integrated + [ticket];
          case FailsOrdinarily => failed := failed + [ticket];
          case FailsFatally => threw := true;
        }
      } else {
        failed := failed + [ticket];
      }
    }

    /** Whichever execution settles first leaves the running ones. */
    method Race() returns (ticket: nat)
      requires Accounted() && Alarmed() && running != {}
      modifies this`running, this`clock, this`hasFatal, this`aborted, this`finished
      ensures Bounded() && Alarmed() && (old(hasFatal) ==> hasFatal) && (old(aborted) ==> aborted)
      ensures ticket in old(running) && running == old(running) - {ticket} && ticket in finished
      ensures Splits(attempted - running - {ticket}, integrated, failed)
    {
      Await();
      ticket := rt.race(clock, running);
      Settle({ticket});
      running := running - {ticket};
      assert attempted - running - {ticket} == attempted - old(running);
    }

    /** One race and its conclusion. */
    method Turn() returns (cut: bool)
      requires Accounted() && Alarmed() && running != {}
      modifies this`running, this`integrated, this`failed, this`clock, this`hasFatal, this`aborted, this`finished
      ensures Bounded() && Alarmed() && (cut ==> hasFatal || aborted) && (!cut ==> Accounted())
      ensures running < old(running) && (old(hasFatal) ==> hasFatal) && (old(aborted) ==> aborted)
    {
      var ticket := Race();
      if hasFatal || aborted { return true; }
      var threw := Conclude(ticket);
      if threw { hasFatal := true; }
      cut := hasFatal || aborted;
    }

    /** A turn of the loop: race, conclude, look at the frontier again, dispatch. */
    method Step(last: seq<nat>) returns (next: seq<nat>, cut: bool)
      requires Accounted() && Alarmed() && running != {} && NamesTickets(last)
      modifies this`attempted, this`running, this`starts,
               this`integrated, this`failed, this`clock, this`hasFatal, this`aborted, this`finished
      ensures Bounded() && Alarmed() && (cut ==> hasFatal || aborted) && (!cut ==> Accounted()) && NamesTickets(next)
      ensures !cut ==> Served(next) && Answered(next)
      ensures old(attempted) - old(running) < attempted - running
      ensures (old(hasFatal) ==> hasFatal) && (old(aborted) ==> aborted)
    {
      cut := Turn();
      if cut { return last, true; }
      var frontier := rt.frontier(clock, spec, attempted);
      Await();
      match frontier {
        case FrontierFails =>
          hasFatal := true;
          return last, true;
        case Frontier(tickets, _) =>
          Dispatch(tickets);
          return tickets, false;
      }
    }

    method Loop(first: seq<nat>) returns (last: seq<nat>)
      requires Accounted() && Alarmed() && NamesTickets(first) && Served(first)
      modifies this`attempted, this`running, this`starts,
               this`integrated, this`failed, this`clock, this`hasFatal, this`aborted, this`finished
      ensures Bounded() && Alarmed() && (old(hasFatal) ==> hasFatal) && (old(aborted) ==> aborted)
      ensures !hasFatal && !aborted ==> running == {} && Accounted() && Served(last) && (Answered(last) || (last == first && old(running) == {}))
    {
      last := first;
      var cut := false;
      while running != {} && !cut
        invariant Bounded() && Alarmed() && NamesTickets(last) && (cut ==> hasFatal || aborted)
        invariant (old(hasFatal) ==> hasFatal) && (old(aborted) ==> aborted)
        invariant !cut ==> Accounted() && Served(last) && (Answered(last) || (last == first && attempted == old(attempted) && running == old(running)))
        decreases |rt.universe(spec) - (attempted - running)|
      {
        ghost var before := rt.universe(spec) - (attempted - running);
        last, cut := Step(last);
        Shrinks(rt.universe(spec) - (attempted - running), before);
      }
    }

    /** Works until nothing is running. Afterwards no execution is left behind, and unless
        the Spec was cut short every started ticket is integrated or failed and the last
        frontier has been attempted completely. */
    method Work(first: seq<nat>) returns (last: seq<nat>)
      requires Accounted() && Alarmed() && attempted == {} && NamesTickets(first)
      modifies this`attempted, this`running, this`starts,
               this`integrated, this`failed, this`clock, this`hasFatal, this`aborted, this`finished
      ensures Bounded() && Alarmed() && finished == attempted
      ensures !hasFatal && !aborted ==>
        && Splits(attempted, integrated, failed) && (forall t :: t in last ==> t in attempted)
        && (FinalFrontier(last) || (last == first && first == []))
    {
      Dispatch(first);
      NoMembers(first);
      last := WorkOff(first);
      Drain();
    }

    /** The loop, in terms of everything attempted. */
    method WorkOff(first: seq<nat>) returns (last: seq<nat>)
      requires Accounted() && Alarmed() && NamesTickets(first) && Served(first)
      modifies this`attempted, this`running, this`starts,
               this`integrated, this`failed, this`clock, this`hasFatal, this`aborted, this`finished
      ensures Bounded() && Alarmed() && (old(hasFatal) ==> hasFatal) && (old(aborted) ==> aborted)
      ensures !hasFatal && !aborted ==>
        && Splits(attempted, integrated, failed) && (forall t :: t in last ==> t in attempted)
        && (FinalFrontier(last) || (last == first && old(running) == {}))
    {
      last := Loop(first);
      assert running == {} ==> attempted - running == attempted;
    }

    /** Every started execution is awaited before the Spec is left. */
    method Drain()
      requires Bounded() && Alarmed()
      modifies this`hasFatal, this`finished
      ensures Bounded() && Alarmed() && finished == attempted && (old(hasFatal) ==> hasFatal)
    {
      Settle(running);
    }

    ghost predicate NamesTickets(tickets: seq<nat>) {
      forall t :: t in tickets ==> t in rt.universe(spec)
    }

    /** The frontier was asked for after everything running or done had been attempted; if
        nothing runs now, nothing was started since. */
    ghost predicate Answered(tickets: seq<nat>)
      reads this
    {
      exists n, done :: done <= attempted && (running == {} ==> done == attempted)
        && rt.frontier(n, spec, done).Frontier? && rt.frontier(n, spec, done).tickets == tickets
    }

    /** The last look at the frontier, with everything attempted so far excluded. */
    ghost predicate FinalFrontier(tickets: seq<nat>)
      reads this
    {
      exists n :: rt.frontier(n, spec, attempted).Frontier? && rt.frontier(n, spec, attempted).tickets == tickets
    }

    /** When nothing is running, the whole frontier has been attempted. */
    ghost predicate Served(tickets: seq<nat>)
      reads this
    {
      running == {} && !hasFatal && !aborted ==> forall t :: t in tickets ==> t in attempted
    }
  }

  lemma NoMembers(s: seq<nat>)
    ensures s == [] <==> forall x :: x !in s
  {
    if s != [] { assert s[0] in s; }
  }

  lemma Shrinks(a: set<nat>, b: set<nat>)
    requires a < b
    ensures |a| < |b|
  {
    assert b == a + (b - a) && b - a != {};
  }

  // ---- All Specs ----

  /** What one Spec came to, for the accounting of the whole run. */
  datatype SpecResult = SpecResult(spec: nat, attempted: set<nat>, integrated: seq<nat>, failed: seq<nat>)

  datatype Report = Report(
    attemptedSpecs: seq<nat>, integrated: seq<nat>, failed: seq<nat>, ready: seq<nat>,
    finalized: seq<nat>, delivered: seq<nat>, incomplete: seq<nat>, exhausted: bool)

  /** Both last stages succeed for the Spec. */
  predicate Delivers(rt: Runtime, spec: nat) { rt.finalize(spec) == Some(Normal) && rt.deliver(spec) == Some(Normal) }

  /** Every finished Spec is delivered or incomplete, and only a Spec without a failed
      ticket gets as far as finalization. */
  ghost predicate Balanced(rt: Runtime, r: Report, results: seq<SpecResult>) {
    && NoRepeats(r.attemptedSpecs) && |results| == |r.attemptedSpecs|
    && Splits(Set(r.attemptedSpecs), r.delivered, r.incomplete)
    && (forall i :: 0 <= i < |results| ==>
          && results[i].spec == r.attemptedSpecs[i]
          && Splits(results[i].attempted, results[i].integrated, results[i].failed)
          && (results[i].spec in r.ready ==> results[i].failed == []))
    && (forall s :: s in r.delivered <==> s in r.ready && Delivers(rt, s))
    && (forall s :: s in r.finalized <==> s in r.ready && rt.finalize(s) == Some(Normal))
    && Set(r.ready) <= Set(r.attemptedSpecs) && Set(r.finalized) <= Set(r.ready) && Set(r.delivered) <= Set(r.finalized)
  }

  datatype Verdict = Threw | Incomplete | Done

  /** Finalization and delivery of a Spec whose tickets are all integrated. */
  function Finish(rt: Runtime, spec: nat, aborted: bool): (v: (bool, Verdict))
    ensures !v.1.Threw? ==> (v.1.Done? <==> Delivers(rt, spec)) && (v.0 <==> rt.finalize(spec) == Some(Normal))
  {
    match rt.finalize(spec)
    case None => (false, Incomplete)
    case Some(FailsFatally) => (false, Threw)
    case Some(FailsOrdinarily) => (false, if aborted || rt.pause(spec) != Normal then Threw else Incomplete)
    case Some(Normal) =>
      match rt.deliver(spec)
      case None => (true, if aborted || rt.pause(spec) != Normal then Threw else Incomplete)
      case Some(ending) =>
        if aborted || ending.FailsFatally? then (true, Threw)
        else if ending.Normal? then (true, Done)
        else (true, if rt.pause(spec) != Normal then Threw else Incomplete)
  }

  /** How far a Spec got: each stage requires the one before. */
  datatype Stages = Stages(ready: bool, finalized: bool, delivered: bool)

  predicate Coherent(stages: Stages) { (stages.delivered ==> stages.finalized) && (stages.finalized ==> stages.ready) }

  /** A ready Spec is finalized and delivered exactly when those stages succeed. */
  predicate Staged(rt: Runtime, spec: nat, stages: Stages) {
    && (stages.delivered <==> stages.ready && Delivers(rt, spec))
    && (stages.finalized <==> stages.ready && rt.finalize(spec) == Some(Normal))
  }

  function If(condition: bool, spec: nat): seq<nat> { if condition then [spec] else [] }

  function Extended(r: Report, result: SpecResult, stages: Stages): Report {
    var spec := result.spec;
    Report(r.attemptedSpecs + [spec], r.integrated + result.integrated, r.failed + result.failed,
           r.ready + If(stages.ready, spec), r.finalized + If(stages.finalized, spec),
           r.delivered + If(stages.delivered, spec), r.incomplete + If(!stages.delivered, spec), r.exhausted)
  }

  lemma BalanceGrows(rt: Runtime, r: Report, results: seq<SpecResult>, result: SpecResult, stages: Stages)
    requires Balanced(rt, r, results) && result.spec !in r.attemptedSpecs && Coherent(stages)
    requires Splits(result.attempted, result.integrated, result.failed) && (stages.ready ==> result.failed == [])
    requires Staged(rt, result.spec, stages)
    ensures Balanced(rt, Extended(r, result, stages), results + [result])
  {
    var n := Extended(r, result, stages);
    SplitGrows(Set(r.attemptedSpecs), r.delivered, r.incomplete, result.spec);
    assert Set(n.attemptedSpecs) == Set(r.attemptedSpecs) + {result.spec};
    assert Set(n.ready) == Set(r.ready) + (if stages.ready then {result.spec} else {});
    assert Set(n.finalized) == Set(r.finalized) + (if stages.finalized then {result.spec} else {});
    assert Set(n.delivered) == Set(r.delivered) + (if stages.delivered then {result.spec} else {});
  }

  /** Each Spec was chosen by the planner with the earlier ones excluded. */
  ghost predicate Selected(rt: Runtime, specs: seq<nat>) {
    forall i :: 0 <= i < |specs| ==> ChosenAfter(rt, specs[..i], specs[i])
  }

  ghost predicate ChosenAfter(rt: Runtime, earlier: seq<nat>, spec: nat) {
    exists n :: ChosenNext(rt.plan(n, Set(earlier)), spec)
  }

  predicate ChosenNext(s: Selection, spec: nat) { s.Chosen? && s.spec == spec }

  /** The planner found nothing beyond the attempted Specs. */
  ghost predicate ReallyExhausted(rt: Runtime, r: Report) {
    r.exhausted && exists n :: rt.plan(n, Set(r.attemptedSpecs)).Exhausted?
  }

  lemma SelectedNext(rt: Runtime, specs: seq<nat>, spec: nat, n: nat)
    requires Selected(rt, specs) && ChosenNext(rt.plan(n, Set(specs)), spec)
    ensures Selected(rt, specs + [spec])
  {
    var all := specs + [spec];
    assert ChosenAfter(rt, specs, spec);
    forall i | 0 <= i < |all| ensures ChosenAfter(rt, all[..i], all[i]) {
      assert all[..i] == if i < |specs| then specs[..i] else specs;
    }
  }

  /** One Spec from its selection to its outcome. */
  method RunSpec(rt: Runtime, spec: nat, tickets: seq<nat>, maxParallel: nat, start: nat)
    returns (threw: bool, result: SpecResult, stages: Stages, clock: nat)
    requires Plausible(rt) && maxParallel >= 1 && forall t :: t in tickets ==> t in rt.universe(spec)
    ensures !threw ==> result.spec == spec && Splits(result.attempted, result.integrated, result.failed)
    ensures !threw ==> Coherent(stages) && Staged(rt, spec, stages) && (stages.ready ==> result.failed == [])
    ensures !threw && stages.ready ==> exists n, tickets :: rt.frontier(n, spec, result.attempted) == Frontier(tickets, true)
  {
    var run := new SpecRun(rt, spec, maxParallel, start);
    var last := run.Work(tickets);
    result := SpecResult(spec, run.attempted, run.integrated, run.failed);
    stages := Stages(false, false, false);
    clock := run.clock + 1;
    if run.hasFatal || run.aborted { return true, result, stages, clock; }
    var frontier := rt.frontier(run.clock, spec, run.attempted);
    if frontier.FrontierFails? { return true, result, stages, clock; }
    if frontier.complete && run.failed == [] {
      var (finalized, verdict) := Finish(rt, spec, rt.aborts(clock));
      stages := Stages(true, finalized, verdict.Done?);
      threw := verdict.Threw?;
    } else {
      threw := rt.pause(spec) != Normal;
    }
  }

  /** The whole run. When it returns normally, attempted Specs split exactly into delivered
      and incomplete ones, and each Spec's attempted tickets into integrated and failed. */
  method RunWorkflow(rt: Runtime, maxSpecs: int, maxParallel: int)
    returns (threw: bool, report: Report, ghost results: seq<SpecResult>)
    requires Plausible(rt)
    ensures maxSpecs < 1 || maxParallel < 1 ==> threw
    ensures !threw ==> Balanced(rt, report, results) && |report.attemptedSpecs| <= maxSpecs
    ensures !threw && |report.attemptedSpecs| < maxSpecs ==> ReallyExhausted(rt, report)
    ensures !threw ==> Selected(rt, report.attemptedSpecs)
    ensures !threw ==> report.integrated == AllIntegrated(results) && report.failed == AllFailed(results)
  {
    report, results := Report([], [], [], [], [], [], [], false), [];
    assert Selected(rt, []);
    if maxSpecs < 1 || maxParallel < 1 { return true, report, results; }
    var clock := 0;
    var attempt := 0;
    while attempt < maxSpecs && !report.exhausted
      invariant Balanced(rt, report, results) && attempt <= maxSpecs && Selected(rt, report.attemptedSpecs)
      invariant report.exhausted ==> ReallyExhausted(rt, report)
      invariant |report.attemptedSpecs| == if report.exhausted then attempt - 1 else attempt
      invariant report.integrated == AllIntegrated(results) && report.failed == AllFailed(results)
    {
      attempt := attempt + 1;
      if rt.aborts(clock) { return true, report, results; }
      var selection := rt.plan(clock, Set(report.attemptedSpecs));
      ghost var asked := clock;
      clock := clock + 1;
      if rt.aborts(clock) || selection.PlanFails? { return true, report, results; }
      if selection.Exhausted? {
        report := report.(exhausted := true);
      } else {
        var spec := selection.spec;
        if spec in report.attemptedSpecs { return true, report, results; }
        var failing, result, stages;
        failing, result, stages, clock := RunSpec(rt, spec, selection.tickets, maxParallel, clock);
        if failing { return true, report, results; }
        BalanceGrows(rt, report, results, result, stages);
        SelectedNext(rt, report.attemptedSpecs, spec, asked);
        report := Extended(report, result, stages);
        results := results + [result];
        assert results[..|results| - 1] + [result] == results;
      }
    }
    threw := rt.aborts(clock);
  }

  ghost function AllIntegrated(results: seq<SpecResult>): seq<nat> {
    if results == [] then [] else AllIntegrated(results[..|results| - 1]) + results[|results| - 1].integrated
  }

  ghost function AllFailed(results: seq<SpecResult>): seq<nat> {
    if results == [] then [] else AllFailed(results[..|results| - 1]) + results[|results| - 1].failed
  }
}
