/** Running the phases of a source-live scenario, and the ledger they leave behind. */
module PhaseLedger {
  import opened Wrappers

  predicate Opening(c: char) { 'a' <= c <= 'z' || '0' <= c <= '9' }

  /** `[a-z0-9][a-z0-9._-]{0,127}`; phases and errors check their names when they are built. */
  predicate IsName(s: string) {
    1 <= |s| <= 128 && Opening(s[0]) && forall i :: 0 <= i < |s| ==> Opening(s[i]) || s[i] in "._-"
  }

  type Name = s: string | IsName(s) witness "x"

  const MALFORMED: Name := "phase-result-malformed"
  const UNEXPECTED: Name := "unexpected-error"
  const PRIOR_FAILED: Name := "prior-phase-failed"
  const UNEXPECTED_CLEANUP: Name := "unexpected-cleanup-error"
  const CLEANUP := Phase("abort-cleanup", "cpk-server")

  /** The fields of an evidence value that are set. */
  type Evidence = map<Name, string>

  const REMOVED: Evidence := map["resource_stage" := "removed"]

  datatype Phase = Phase(name: Name, component: Name)

  datatype Status = Started | Succeeded | Failed | Skipped

  datatype Line = Line(phase: Phase, status: Status, evidence: Option<Evidence>, code: Option<Name>)

  datatype Record = Record(sequence: nat, line: Line)

  /** How an action ends: with evidence, with something else, with an invariant error or another
      exception, or with one that is no `Exception` and that nobody catches. */
  datatype Outcome = Returned(evidence: Evidence) | Malformed | Invariant(code: Name) | Unexpected | Interrupted

  datatype CleanupOutcome = Cleaned | CleanupInvariant(code: Name) | CleanupUnexpected | CleanupInterrupted

  datatype RunResult = Completed(evidence: seq<Evidence>) | RunFailed(primary: Name, cleanup: Option<Name>) | Interrupt

  // ----- what a run should leave -----

  function StartedLine(p: Phase): Line { Line(p, Started, None, None) }

  function SucceededLine(p: Phase, e: Evidence): Line {
    Line(p, Succeeded, if e == map[] then None else Some(e), None)
  }

  function FailedLine(p: Phase, code: Name): Line { Line(p, Failed, None, Some(code)) }

  function SkippedLine(p: Phase): Line { Line(p, Skipped, None, Some(PRIOR_FAILED)) }

  function SkippedLines(ps: seq<Phase>): seq<Line> {
    seq(|ps|, i requires 0 <= i < |ps| => SkippedLine(ps[i]))
  }

  predicate Fails(o: Outcome) { o.Malformed? || o.Invariant? || o.Unexpected? }

  function PrimaryCode(o: Outcome): Name
    requires Fails(o)
  {
    match o
    case Malformed => MALFORMED
    case Invariant(code) => code
    case Unexpected => UNEXPECTED
  }

  function CleanupCode(o: CleanupOutcome): Option<Name> {
    match o
    case CleanupInvariant(code) => Some(code)
    case CleanupUnexpected => Some(UNEXPECTED_CLEANUP)
    case _ => None
  }

  function CleanupLines(o: CleanupOutcome): seq<Line> {
    [StartedLine(CLEANUP)] +
    (if o.CleanupInterrupted? then []
     else if CleanupCode(o).Some? then [FailedLine(CLEANUP, CleanupCode(o).value)]
     else [SucceededLine(CLEANUP, REMOVED)])
  }

  function Trace(ps: seq<Phase>, os: seq<Outcome>, cleanup: CleanupOutcome): seq<Line>
    requires |ps| == |os|
    decreases |ps|, 1
  {
    if ps == [] then [] else [StartedLine(ps[0])] + AfterStart(ps, os, cleanup)
  }

  /** What follows the start of the first phase. */
  function AfterStart(ps: seq<Phase>, os: seq<Outcome>, cleanup: CleanupOutcome): seq<Line>
    requires |ps| == |os| && ps != []
    decreases |ps|, 0
  {
    match os[0]
    case Returned(e) => [SucceededLine(ps[0], e)] + Trace(ps[1..], os[1..], cleanup)
    case Interrupted => []
    case _ => [FailedLine(ps[0], PrimaryCode(os[0]))] + SkippedLines(ps[1..]) + CleanupLines(cleanup)
  }

  /** The first phase that does not return evidence, or the number of phases. */
  function Broken(os: seq<Outcome>): (n: nat)
    ensures n <= |os| && (forall i :: 0 <= i < n ==> os[i].Returned?) && (n < |os| ==> !os[n].Returned?)
  {
    if os == [] || !os[0].Returned? then 0
    else
      var n := Broken(os[1..]);
      assert forall i :: 1 <= i < |os| ==> os[1..][i - 1] == os[i];
      n + 1
  }

  function ResultOf(os: seq<Outcome>, cleanup: CleanupOutcome): RunResult {
    var n := Broken(os);
    if n == |os| then Completed(seq(n, i requires 0 <= i < n => os[i].evidence))
    else if os[n].Interrupted? || cleanup.CleanupInterrupted? then Interrupt
    else RunFailed(PrimaryCode(os[n]), CleanupCode(cleanup))
  }

  function Numbered(from: nat, lines: seq<Line>): (r: seq<Record>)
    ensures |r| == |lines|
  {
    seq(|lines|, i requires 0 <= i < |lines| => Record(from + 1 + i, lines[i]))
  }

  // ----- the ledger and the runner -----

  class SourceLivePhaseLedger {
    var sequence: nat
    var output: seq<Record>

    ghost predicate Valid()
      reads this
    {
      sequence == |output| && forall i :: 0 <= i < |output| ==> output[i].sequence == i + 1
    }

    constructor ()
      ensures Valid() && output == []
    {
      sequence, output := 0, [];
    }

    method Emit(line: Line)
      requires Valid()
      modifies this
      ensures Valid() && output == old(output) + Numbered(|old(output)|, [line])
    {
      sequence := sequence + 1;
      output := output + [Record(sequence, line)];
    }
  }

  /** A scenario: what each action and the cleanup will do, and which of them have been run. */
  class Scenario {
    const phases: seq<Phase>
    const outcomes: seq<Outcome>
    const cleanup: CleanupOutcome
    var ran: seq<nat>
    var cleanups: nat

    constructor (phases: seq<Phase>, outcomes: seq<Outcome>, cleanup: CleanupOutcome)
      requires |phases| == |outcomes|
      ensures this.phases == phases && this.outcomes == outcomes && this.cleanup == cleanup
      ensures ran == [] && cleanups == 0
    {
      this.phases, this.outcomes, this.cleanup := phases, outcomes, cleanup;
      ran, cleanups := [], 0;
    }

    method Act(i: nat) returns (o: Outcome)
      requires i < |phases| == |outcomes|
      modifies this`ran
      ensures o == outcomes[i] && ran == old(ran) + [i]
    {
      ran := ran + [i];
      o := outcomes[i];
    }

    method CleanUp() returns (o: CleanupOutcome)
      modifies this`cleanups
      ensures o == cleanup && cleanups == old(cleanups) + 1
    {
      cleanups := cleanups + 1;
      o := cleanup;
    }
  }

  /** `run_source_live_phases`. */
  method RunSourceLivePhases(scenario: Scenario, ledger: SourceLivePhaseLedger) returns (r: RunResult)
    requires ledger.Valid() && |scenario.phases| == |scenario.outcomes|
    requires scenario.ran == [] && scenario.cleanups == 0
    modifies ledger, scenario
    ensures ledger.Valid()
    ensures ledger.output == old(ledger.output)
              + Numbered(|old(ledger.output)|, Trace(scenario.phases, scenario.outcomes, scenario.cleanup))
    ensures r == ResultOf(scenario.outcomes, scenario.cleanup)
    ensures var n := Broken(scenario.outcomes);
      && scenario.ran == seq(if n < |scenario.phases| then n + 1 else n, i => i)
      && scenario.cleanups == if n < |scenario.phases| && Fails(scenario.outcomes[n]) then 1 else 0
  {
    hide Trace, AfterStart, Broken, Numbered, StartedLine, SucceededLine, FailedLine, SkippedLines, CleanupLines;
    var phases, outcomes := scenario.phases, scenario.outcomes;
    ghost var base, trace := ledger.output, Trace(phases, outcomes, scenario.cleanup);
    ghost var lines: seq<Line> := [];
    var completed: seq<Evidence> := [];
    NumberedNone(base);
    assert phases[0..] == phases && outcomes[0..] == outcomes;
    for index := 0 to |phases|
      invariant ledger.Valid() && ledger.output == base + Numbered(|base|, lines)
      invariant lines + Trace(phases[index..], outcomes[index..], scenario.cleanup) == trace
      invariant |completed| == index
      invariant forall i :: 0 <= i < index ==> outcomes[i].Returned? && completed[i] == outcomes[i].evidence
      invariant scenario.ran == seq(index, i => i) && scenario.cleanups == 0
    {
      var phase := phases[index];
      TraceStep(phases, outcomes, scenario.cleanup, index);
      ledger.Emit(StartedLine(phase));
      NumberedJoins(base, lines, [StartedLine(phase)]);
      lines := lines + [StartedLine(phase)];
      assert lines + AfterStart(phases[index..], outcomes[index..], scenario.cleanup) == trace;
      var outcome := scenario.Act(index);
      if !outcome.Returned? { BrokenIs(outcomes, index); }
      if outcome.Interrupted? {
        assert lines == trace;
        return Interrupt;
      }
      if !outcome.Returned? {
        r := FinishFailedRun(scenario, index, PrimaryCode(outcome), ledger);
        NumberedJoins(base, lines, AfterStart(phases[index..], outcomes[index..], scenario.cleanup));
        return;
      }
      var succeeded := SucceededLine(phase, outcome.evidence);
      ledger.Emit(succeeded);
      NumberedJoins(base, lines, [succeeded]);
      lines := lines + [succeeded];
      completed := completed + [outcome.evidence];
    }
    BrokenIs(outcomes, |phases|);
    NoneLeft(scenario.cleanup);
    assert lines == trace;
    return Completed(completed);
  }

  lemma TraceStep(ps: seq<Phase>, os: seq<Outcome>, cleanup: CleanupOutcome, i: nat)
    requires i < |ps| == |os|
    ensures Trace(ps[i..], os[i..], cleanup) == [StartedLine(ps[i])] + AfterStart(ps[i..], os[i..], cleanup)
    ensures os[i].Returned? ==>
      AfterStart(ps[i..], os[i..], cleanup)
      == [SucceededLine(ps[i], os[i].evidence)] + Trace(ps[i + 1..], os[i + 1..], cleanup)
    ensures os[i].Interrupted? ==> AfterStart(ps[i..], os[i..], cleanup) == []
    ensures Fails(os[i]) ==>
      AfterStart(ps[i..], os[i..], cleanup)
      == [FailedLine(ps[i], PrimaryCode(os[i]))] + SkippedLines(ps[i + 1..]) + CleanupLines(cleanup)
  {
    assert ps[i..][1..] == ps[i + 1..] && os[i..][1..] == os[i + 1..];
  }

  lemma {:induction false} BrokenIs(os: seq<Outcome>, n: nat)
    requires n <= |os| && (forall i :: 0 <= i < n ==> os[i].Returned?) && (n < |os| ==> !os[n].Returned?)
    ensures Broken(os) == n
  {
    if n > 0 { BrokenIs(os[1..], n - 1); }
  }

  lemma NumberedNone(base: seq<Record>)
    ensures base + Numbered(|base|, []) == base
  {
  }

  lemma NoneLeft(cleanup: CleanupOutcome)
    ensures Trace([], [], cleanup) == []
  {
  }

  lemma NumberedJoins(base: seq<Record>, a: seq<Line>, b: seq<Line>)
    ensures base + Numbered(|base|, a) + Numbered(|base| + |a|, b) == base + Numbered(|base|, a + b)
  {
  }

  /** `_finish_failed_run`: it always raises. */
  method FinishFailedRun(scenario: Scenario, failedIndex: nat, primary: Name, ledger: SourceLivePhaseLedger)
      returns (r: RunResult)
    requires ledger.Valid() && failedIndex < |scenario.phases|
    modifies ledger, scenario`cleanups
    ensures ledger.Valid() && scenario.cleanups == old(scenario.cleanups) + 1
    ensures ledger.output == old(ledger.output) + Numbered(|old(ledger.output)|,
              [FailedLine(scenario.phases[failedIndex], primary)] + SkippedLines(scenario.phases[failedIndex + 1..])
              + CleanupLines(scenario.cleanup))
    ensures r == if scenario.cleanup.CleanupInterrupted? then Interrupt
                 else RunFailed(primary, CleanupCode(scenario.cleanup))
  {
    var failed, rest := scenario.phases[failedIndex], scenario.phases[failedIndex + 1..];
    ghost var base := ledger.output;
    ledger.Emit(FailedLine(failed, primary));
    ghost var lines := [FailedLine(failed, primary)];
    for i := 0 to |rest|
      invariant ledger.Valid() && ledger.output == base + Numbered(|base|, lines)
      invariant lines == [FailedLine(failed, primary)] + SkippedLines(rest[..i])
      invariant scenario.cleanups == old(scenario.cleanups)
    {
      ledger.Emit(SkippedLine(rest[i]));
      NumberedJoins(base, lines, [SkippedLine(rest[i])]);
      lines := lines + [SkippedLine(rest[i])];
    }
    assert rest[..|rest|] == rest;
    ledger.Emit(StartedLine(CLEANUP));
    NumberedJoins(base, lines, [StartedLine(CLEANUP)]);
    lines := lines + [StartedLine(CLEANUP)];
    var outcome := scenario.CleanUp();
    if outcome.CleanupInterrupted? { return Interrupt; }
    var cleanupCode := CleanupCode(outcome);
    var last := if cleanupCode.None? then SucceededLine(CLEANUP, REMOVED) else FailedLine(CLEANUP, cleanupCode.value);
    ledger.Emit(last);
    NumberedJoins(base, lines, [last]);
    return RunFailed(primary, cleanupCode);
  }

  // ----- the shape of every trace -----

  /** The two lines of each of the first `n` phases. */
  function Pairs(ps: seq<Phase>, os: seq<Outcome>, n: nat): seq<Line>
    requires n <= |ps| == |os| && forall i :: 0 <= i < n ==> os[i].Returned?
  {
    seq(2 * n, k requires 0 <= k < 2 * n =>
      if k % 2 == 0 then StartedLine(ps[k / 2]) else SucceededLine(ps[k / 2], os[k / 2].evidence))
  }

  /** What follows them when the phase at `n` did not return evidence. */
  function Ending(ps: seq<Phase>, os: seq<Outcome>, n: nat, cleanup: CleanupOutcome): seq<Line>
    requires n <= |ps| == |os| && (n < |os| ==> !os[n].Returned?)
  {
    if n == |os| then []
    else if os[n].Interrupted? then [StartedLine(ps[n])]
    else [StartedLine(ps[n]), FailedLine(ps[n], PrimaryCode(os[n]))] + SkippedLines(ps[n + 1..]) + CleanupLines(cleanup)
  }

  lemma PairsStep(ps: seq<Phase>, os: seq<Outcome>, n: nat)
    requires 0 < n <= |ps| == |os| && forall i :: 0 <= i < n ==> os[i].Returned?
    ensures Pairs(ps, os, n) ==
            [StartedLine(ps[0]), SucceededLine(ps[0], os[0].evidence)] + Pairs(ps[1..], os[1..], n - 1)
  {
    hide StartedLine, SucceededLine;
    assert forall k :: 0 <= k < 2 * n - 2 ==> ps[1..][k / 2] == ps[(k + 2) / 2] && os[1..][k / 2] == os[(k + 2) / 2];
  }

  lemma EndingStep(ps: seq<Phase>, os: seq<Outcome>, n: nat, cleanup: CleanupOutcome)
    requires 0 < n <= |ps| == |os| && (n < |os| ==> !os[n].Returned?)
    ensures Ending(ps[1..], os[1..], n - 1, cleanup) == Ending(ps, os, n, cleanup)
  {
    if n < |os| { assert ps[1..][n..] == ps[n + 1..]; }
  }

  lemma BreaksAtOnce(ps: seq<Phase>, os: seq<Outcome>, cleanup: CleanupOutcome)
    requires |ps| == |os| && Broken(os) == 0
    ensures Pairs(ps, os, 0) == [] && Trace(ps, os, cleanup) == Ending(ps, os, 0, cleanup)
  {
    assert Trace(ps, os, cleanup) == [] || Trace(ps, os, cleanup) == [StartedLine(ps[0])] + AfterStart(ps, os, cleanup);
  }

  /** Every line of a trace by its place: two for each phase that returned evidence, then for a failure
      its start and its code, one skipped line for each phase after it, and the cleanup's. */
  lemma {:induction false} TraceByPlace(ps: seq<Phase>, os: seq<Outcome>, cleanup: CleanupOutcome)
    requires |ps| == |os|
    ensures Trace(ps, os, cleanup) == Pairs(ps, os, Broken(os)) + Ending(ps, os, Broken(os), cleanup)
    decreases |ps|
  {
    hide Trace, Broken, Pairs, Ending, StartedLine, SucceededLine;
    if Broken(os) > 0 {
      TraceGoesOn(ps, os, cleanup);
      TraceByPlace(ps[1..], os[1..], cleanup);
      PairsStep(ps, os, Broken(os));
      EndingStep(ps, os, Broken(os), cleanup);
    } else {
      BreaksAtOnce(ps, os, cleanup);
    }
  }

  lemma TraceGoesOn(ps: seq<Phase>, os: seq<Outcome>, cleanup: CleanupOutcome)
    requires |ps| == |os| && Broken(os) > 0
    ensures Broken(os[1..]) == Broken(os) - 1
    ensures Trace(ps, os, cleanup)
         == [StartedLine(ps[0]), SucceededLine(ps[0], os[0].evidence)] + Trace(ps[1..], os[1..], cleanup)
  {
    hide Trace, AfterStart, StartedLine, SucceededLine, FailedLine, SkippedLines, CleanupLines;
    assert ps[0..] == ps && os[0..] == os;
    TraceStep(ps, os, cleanup, 0);
    var start, closed := [StartedLine(ps[0])], [SucceededLine(ps[0], os[0].evidence)];
    assert start + (closed + Trace(ps[1..], os[1..], cleanup)) == start + closed + Trace(ps[1..], os[1..], cleanup);
  }

  function Terminals(lines: seq<Line>): seq<Line> {
    if lines == [] then []
    else (if lines[0].status.Started? then [] else [lines[0]]) + Terminals(lines[1..])
  }

  lemma {:induction false} TerminalsJoin(a: seq<Line>, b: seq<Line>)
    ensures Terminals(a + b) == Terminals(a) + Terminals(b)
  {
    if a == [] {
      assert a + b == b;
    } else {
      assert (a + b)[1..] == a[1..] + b;
      TerminalsJoin(a[1..], b);
    }
  }

  lemma {:induction false} AllTerminal(lines: seq<Line>)
    requires forall i :: 0 <= i < |lines| ==> !lines[i].status.Started?
    ensures Terminals(lines) == lines
  {
    if lines != [] { AllTerminal(lines[1..]); }
  }

  /** The status a run gives the phase at `i` when the phase at `n` broke it off. */
  function Verdict(i: nat, n: nat): Status { if i < n then Succeeded else if i == n then Failed else Skipped }

  /** Nobody interrupted the run. */
  predicate Uninterrupted(os: seq<Outcome>, cleanup: CleanupOutcome) {
    ResultOf(os, cleanup) != Interrupt
  }

  /** A phase line as a reader of the ledger counts them. */
  predicate Closes(l: Line, p: Phase, s: Status) { l.phase == p && l.status == s }

  /** Each phase is closed exactly once and in order: all succeed up to the first failure, the rest are
      skipped; the cleanup is closed after them exactly when a phase failed. */
  lemma {:induction false} OneTerminalEach(ps: seq<Phase>, os: seq<Outcome>, cleanup: CleanupOutcome)
    requires |ps| == |os| && Uninterrupted(os, cleanup)
    ensures var n, t := Broken(os), Terminals(Trace(ps, os, cleanup));
      && |t| == |ps| + (if n < |ps| then 1 else 0)
      && (forall i :: 0 <= i < |ps| ==> Closes(t[i], ps[i], Verdict(i, n)))
      && (n < |ps| ==> Closes(t[|ps|], CLEANUP, if CleanupCode(cleanup).Some? then Failed else Succeeded))
    decreases |ps|
  {
    hide Trace, AfterStart, Terminals, Broken, CleanupLines, CleanupCode, ResultOf, StartedLine, PrimaryCode;
    if ps == [] {
      NothingRun(os, cleanup);
    } else if os[0].Returned? {
      ShorterResult(os, cleanup);
      OneTerminalEach(ps[1..], os[1..], cleanup);
      ClosedFirst(ps, os, cleanup);
      var rest := Terminals(Trace(ps[1..], os[1..], cleanup));
      forall i | 0 < i < |ps|
        ensures Closes(rest[i - 1], ps[i], Verdict(i, Broken(os)))
      {
        assert Closes(rest[i - 1], ps[1..][i - 1], Verdict(i - 1, Broken(os) - 1));
      }
      assert Closes(SucceededLine(ps[0], os[0].evidence), ps[0], Succeeded);
    } else {
      FailedFirst(ps, os, cleanup);
      CleanupCloses(cleanup);
    }
  }

  lemma NothingRun(os: seq<Outcome>, cleanup: CleanupOutcome)
    requires os == []
    ensures Trace([], os, cleanup) == [] && Terminals([]) == [] && Broken(os) == 0
  {
  }

  lemma ClosedFirst(ps: seq<Phase>, os: seq<Outcome>, cleanup: CleanupOutcome)
    requires |ps| == |os| && ps != [] && os[0].Returned?
    ensures Terminals(Trace(ps, os, cleanup))
         == [SucceededLine(ps[0], os[0].evidence)] + Terminals(Trace(ps[1..], os[1..], cleanup))
  {
    var begun, closed := [StartedLine(ps[0])], [SucceededLine(ps[0], os[0].evidence)];
    TerminalsJoin(begun, closed + Trace(ps[1..], os[1..], cleanup));
    TerminalsJoin(closed, Trace(ps[1..], os[1..], cleanup));
    AllTerminal(closed);
    assert Terminals(begun) == [];
  }

  lemma FailedFirst(ps: seq<Phase>, os: seq<Outcome>, cleanup: CleanupOutcome)
    requires |ps| == |os| && ps != [] && !os[0].Returned? && Uninterrupted(os, cleanup)
    ensures Fails(os[0]) && Broken(os) == 0 && !cleanup.CleanupInterrupted?
    ensures Terminals(Trace(ps, os, cleanup))
         == [FailedLine(ps[0], PrimaryCode(os[0]))] + SkippedLines(ps[1..]) + Terminals(CleanupLines(cleanup))
  {
    var begun, closed := [StartedLine(ps[0])], [FailedLine(ps[0], PrimaryCode(os[0]))] + SkippedLines(ps[1..]);
    TerminalsJoin(begun, closed + CleanupLines(cleanup));
    TerminalsJoin(closed, CleanupLines(cleanup));
    AllTerminal(closed);
    assert Terminals(begun) == [];
  }

  lemma CleanupCloses(cleanup: CleanupOutcome)
    requires !cleanup.CleanupInterrupted?
    ensures var t := Terminals(CleanupLines(cleanup));
      |t| == 1 && Closes(t[0], CLEANUP, if CleanupCode(cleanup).Some? then Failed else Succeeded)
  {
    var lines := CleanupLines(cleanup);
    assert lines == [StartedLine(CLEANUP)] + lines[1..] && |lines| == 2;
    TerminalsJoin([StartedLine(CLEANUP)], lines[1..]);
    AllTerminal(lines[1..]);
    assert Terminals([StartedLine(CLEANUP)]) == [];
  }

  lemma ShorterResult(os: seq<Outcome>, cleanup: CleanupOutcome)
    requires os != [] && os[0].Returned? && Uninterrupted(os, cleanup)
    ensures Uninterrupted(os[1..], cleanup) && Broken(os) == Broken(os[1..]) + 1
  {
    assert Broken(os[1..]) < |os| - 1 ==> os[1..][Broken(os[1..])] == os[Broken(os)];
  }
}
