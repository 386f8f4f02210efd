/** Re-running integration tests on request: every requested scenario that
    is not pending or in progress is reset in the ledger and gets a new
    pipeline run; the others are skipped and counted. */
module Rerun {
  import opened Types
  import opened TestLedger
  import opened RunCreation
  import opened Supersession

  /** The value of the rerun label that asks for every scenario. */
  const RerunAll := "all"

  /** A scenario pending or in progress is not re-run. */
  predicate SkipsRerun(st: Ledger, name: string) {
    name in st && (st[name].state == InProgress || st[name].state == Pending)
  }

  /** How many of the scenarios the ledger `st` skips. */
  function SkipCount(st: Ledger, scenarios: seq<Scenario>): (r: nat)
    ensures r <= |scenarios|
    decreases |scenarios|
  {
    if scenarios == [] then 0
    else SkipCount(st, scenarios[..|scenarios| - 1]) + (if SkipsRerun(st, scenarios[|scenarios| - 1].name) then 1 else 0)
  }

  /** Every scenario is skipped exactly when the count reaches the number of
      scenarios requested. */
  lemma {:induction false} SkipCountAllIff(st: Ledger, scenarios: seq<Scenario>)
    ensures SkipCount(st, scenarios) == |scenarios| <==> forall i :: 0 <= i < |scenarios| ==> SkipsRerun(st, scenarios[i].name)
    decreases |scenarios|
  {
    if scenarios != [] {
      var init := scenarios[..|scenarios| - 1];
      SkipCountAllIff(st, init);
      if forall i :: 0 <= i < |scenarios| ==> SkipsRerun(st, scenarios[i].name) {
        assert forall i :: 0 <= i < |init| ==> SkipsRerun(st, init[i].name) by {
          forall i | 0 <= i < |init| ensures SkipsRerun(st, init[i].name) {
            assert init[i] == scenarios[i];
          }
        }
      } else if SkipCount(st, scenarios) == |scenarios| {
        forall i | 0 <= i < |scenarios| ensures SkipsRerun(st, scenarios[i].name) {
          if i < |init| { assert init[i] == scenarios[i]; }
        }
      }
    }
  }

  function RerunCreatedMessage(run: string): string {
    "PipelineRun '" + run + "' created"
  }

  /** The ledger being built, the peers and runs in the cluster, whether the
      snapshot is marked in progress, and the skip count. */
  datatype RerunState = RerunState(statuses: Ledger, peers: seq<Peer>, runs: seq<PipelineRun>,
                                   inProgress: bool, skipped: nat)

  /** The loop goes on, or stopped at a scenario whose run could not be
      created (that scenario already marked invalid in the ledger). */
  datatype RerunProgress = Going(s: RerunState) | Halted(s: RerunState, error: ErrorKind)

  /** The ledger after a run was created for a reset scenario: in progress,
      with the run recorded. */
  function CreatedLedger(st: Ledger, name: string, run: string): (r: Ledger)
    ensures r.Keys == st.Keys + {name}
    ensures forall k :: k in st && k != name ==> r[k] == st[k]
    ensures r[name].state == InProgress && r[name].pipelineRunName == run
  {
    var st' := UpdateTestStatusIfChanged(st, name, InProgress, RerunCreatedMessage(run));
    assert UpdateTestPipelineRunName(st', name, run).Ok?;
    RecordRunName(st', name, run)
  }

  /** Supersession after a new run; push snapshots supersede nothing. */
  function SupersedeAfterRun(snapshot: SnapshotInfo, peers: seq<Peer>, runs: seq<PipelineRun>, b: Backend): (p: Progress)
    ensures |p.runs| == |runs|
    ensures snapshot.pushEvent ==> p.peers == peers && p.runs == runs
  {
    if snapshot.pushEvent then Progress(peers, runs, None) else SupersedeFor(snapshot, peers, runs, b)
  }

  /** Re-running one scenario whose entry was reset: a run is created; a
      failure marks the scenario invalid and halts the loop. A new run marks
      the snapshot in progress if it is not yet, is followed by supersession
      (whose errors are ignored), and is recorded in the ledger. */
  function RerunScenario(s: RerunState, scenario: Scenario, snapshot: SnapshotInfo, b: Backend): (p: RerunProgress)
    ensures p.s.skipped == s.skipped
    ensures p.Halted? ==> p.s.peers == s.peers && p.s.runs == s.runs && p.s.inProgress == s.inProgress
  {
    var name := scenario.name;
    match b(CreateRun(name))
    case Some(e) => Halted(s.(statuses := UpdateTestStatusIfChanged(s.statuses, name, TestInvalid, FailureMessage(e))), e)
    case None =>
      var run := NewRun(scenario, snapshot, |s.runs|);
      var sup := SupersedeAfterRun(snapshot, s.peers, s.runs + [run], b);
      Going(RerunState(CreatedLedger(s.statuses, name, run.name), sup.peers, sup.runs,
                       s.inProgress || b(MarkInProgress).None?, s.skipped))
  }

  /** A re-run that goes on adds exactly one run, after the others, for the
      scenario and this snapshot; the scenario is in progress with that
      run's name recorded, no other entry of the ledger changes, the runs
      there before are all kept with their names, snapshots and scenarios,
      and the competing snapshots are superseded after the new run. */
  lemma RerunScenarioAddsRun(s: RerunState, scenario: Scenario, snapshot: SnapshotInfo, b: Backend)
    ensures var p := RerunScenario(s, scenario, snapshot, b);
      p.Going? ==>
        && |p.s.runs| == |s.runs| + 1
        && SameRunIds(s.runs, p.s.runs[..|s.runs|])
        && p.s.runs[|s.runs|].scenario == scenario.name && p.s.runs[|s.runs|].snapshot == snapshot.name
        && p.s.statuses.Keys == s.statuses.Keys + {scenario.name}
        && (forall n :: n in s.statuses && n != scenario.name ==> p.s.statuses[n] == s.statuses[n])
        && p.s.statuses[scenario.name].state == InProgress
        && p.s.statuses[scenario.name].pipelineRunName == p.s.runs[|s.runs|].name != ""
        && p.s.peers == SupersedeAfterRun(snapshot, s.peers, s.runs + [NewRun(scenario, snapshot, |s.runs|)], b).peers
  {
    if b(CreateRun(scenario.name)).None? && !snapshot.pushEvent {
      SupersedeForKeepsIds(snapshot, s.peers, s.runs + [NewRun(scenario, snapshot, |s.runs|)], b);
    }
  }

  /** One scenario: skipped (and counted) when pending or in progress;
      otherwise its entry is reset and it is re-run. */
  function RerunStep(s: RerunState, scenario: Scenario, snapshot: SnapshotInfo, b: Backend): RerunProgress {
    var name := scenario.name;
    if SkipsRerun(s.statuses, name) then Going(s.(skipped := s.skipped + 1))
    else RerunScenario(s.(statuses := ResetStatus(s.statuses, name)), scenario, snapshot, b)
  }

  /** The first `j` scenarios in order, stopping at the first failure. */
  function RerunUpTo(s0: RerunState, scenarios: seq<Scenario>, snapshot: SnapshotInfo, b: Backend, j: nat): RerunProgress
    requires j <= |scenarios|
    decreases j
  {
    if j == 0 then Going(s0)
    else
      match RerunUpTo(s0, scenarios, snapshot, b, j - 1)
      case Halted(s, e) => Halted(s, e)
      case Going(s) => RerunStep(s, scenarios[j - 1], snapshot, b)
  }

  /** The count over one more scenario. */
  lemma SkipCountSnoc(st: Ledger, scenarios: seq<Scenario>, i: nat)
    requires i < |scenarios|
    ensures SkipCount(st, scenarios[..i + 1]) == SkipCount(st, scenarios[..i]) + (if SkipsRerun(st, scenarios[i].name) then 1 else 0)
  {
    assert scenarios[..i + 1][..i] == scenarios[..i];
  }

  /** The ledger `local` differs from `st` only in the entries of the first
      `i` scenarios, and has an entry for each of them. */
  ghost predicate LedgerFrame(st: Ledger, local: Ledger, scenarios: seq<Scenario>, i: nat)
    requires i <= |scenarios|
  {
    && local.Keys == st.Keys + ScenarioNameSet(scenarios[..i])
    && forall n :: n in st && n !in ScenarioNameSet(scenarios[..i]) ==> local[n] == st[n]
  }

  /** The frame after one more scenario whose entry alone changed. */
  lemma LedgerFrameStep(st: Ledger, local: Ledger, local': Ledger, scenarios: seq<Scenario>, i: nat)
    requires i < |scenarios| && LedgerFrame(st, local, scenarios, i)
    requires local'.Keys == local.Keys + {scenarios[i].name}
    requires forall n :: n in local && n != scenarios[i].name ==> local'[n] == local[n]
    ensures LedgerFrame(st, local', scenarios, i + 1)
  {
    NameSetStep(scenarios, i);
  }

  /** Each of the first `i` scenarios is as the rerun leaves it: a skipped
      one (pending or in progress in `st`) keeps its entry, any other is in
      progress with a run recorded. */
  ghost predicate RerunDone(st: Ledger, local: Ledger, scenarios: seq<Scenario>, i: nat)
    requires i <= |scenarios|
  {
    forall k :: 0 <= k < i ==>
      && scenarios[k].name in local
      && if SkipsRerun(st, scenarios[k].name) then local[scenarios[k].name] == st[scenarios[k].name]
         else local[scenarios[k].name].state == InProgress && Registered(local, scenarios[k].name)
  }

  /** One more scenario done, the others untouched. */
  lemma RerunDoneStep(st: Ledger, local: Ledger, local': Ledger, scenarios: seq<Scenario>, i: nat)
    requires i < |scenarios| && DistinctScenarioNames(scenarios) && RerunDone(st, local, scenarios, i)
    requires forall n :: n in local && n != scenarios[i].name ==> n in local' && local'[n] == local[n]
    requires scenarios[i].name in local'
    requires SkipsRerun(st, scenarios[i].name) ==> local'[scenarios[i].name] == st[scenarios[i].name]
    requires !SkipsRerun(st, scenarios[i].name) ==>
               local'[scenarios[i].name].state == InProgress && Registered(local', scenarios[i].name)
    ensures RerunDone(st, local', scenarios, i + 1)
  {
    forall k | 0 <= k < i ensures scenarios[k].name != scenarios[i].name {
    }
  }

  /** What the loop has done after `i` scenarios, starting from the ledger
      `st`: only their entries changed, the count is at most `i`, and with
      distinct names the count is the number of them `st` skips and each is
      as the rerun leaves it. */
  ghost predicate RerunSoFar(st: Ledger, local: Ledger, skipped: nat, scenarios: seq<Scenario>, i: nat)
    requires i <= |scenarios|
  {
    && LedgerFrame(st, local, scenarios, i)
    && skipped <= i
    && (DistinctScenarioNames(scenarios) ==> skipped == SkipCount(st, scenarios[..i]) && RerunDone(st, local, scenarios, i))
  }

  /** What one scenario does to the ledger `local`, giving `local'`: only
      its entry changes and it has one; a scenario the ledger skips is
      counted and leaves the ledger as it was, and the loop goes on; a
      re-run on which the loop goes on is in progress with its run
      recorded. */
  ghost predicate StepFacts(local: Ledger, local': Ledger, skipped: nat, skipped': nat, name: string, going: bool) {
    && local'.Keys == local.Keys + {name}
    && (forall n :: n in local && n != name ==> local'[n] == local[n])
    && skipped' == skipped + (if SkipsRerun(local, name) then 1 else 0)
    && (SkipsRerun(local, name) ==> local' == local && going)
    && (going && !SkipsRerun(local, name) ==> local'[name].state == InProgress && Registered(local', name))
  }

  /** One more scenario, skipped and counted, or re-run. */
  lemma RerunSoFarStep(st: Ledger, local: Ledger, local': Ledger, skipped: nat, skipped': nat, scenarios: seq<Scenario>, i: nat, going: bool)
    requires i < |scenarios| && RerunSoFar(st, local, skipped, scenarios, i)
    requires StepFacts(local, local', skipped, skipped', scenarios[i].name, going)
    ensures LedgerFrame(st, local', scenarios, i + 1)
    ensures going ==> RerunSoFar(st, local', skipped', scenarios, i + 1)
  {
    LedgerFrameStep(st, local, local', scenarios, i);
    if going && DistinctScenarioNames(scenarios) {
      var name := scenarios[i].name;
      FreshName(scenarios, i);
      assert SkipsRerun(local, name) == SkipsRerun(st, name);
      SkipCountSnoc(st, scenarios, i);
      RerunDoneStep(st, local, local', scenarios, i);
    }
  }

  /** The ledger `local` has an entry wherever `st` has one, new entries
      only for `names`, and the entries of `st` outside `names` unchanged. */
  ghost predicate LedgerWithin(st: Ledger, local: Ledger, names: set<string>) {
    && st.Keys <= local.Keys <= st.Keys + names
    && forall n :: n in st && n !in names ==> local[n] == st[n]
  }

  /** What one scenario does to the ledger: only its entry changes, and it
      gains one; a skipped scenario changes nothing and is counted; a re-run
      that goes on leaves it in progress with its run recorded. */
  lemma RerunStepLedger(s: RerunState, scenario: Scenario, snapshot: SnapshotInfo, b: Backend)
    ensures var p := RerunStep(s, scenario, snapshot, b);
      StepFacts(s.statuses, p.s.statuses, s.skipped, p.s.skipped, scenario.name, p.Going?)
    ensures var p := RerunStep(s, scenario, snapshot, b);
      SkipsRerun(s.statuses, scenario.name) ==> p == Going(s.(skipped := s.skipped + 1))
  {
    var name := scenario.name;
    if !SkipsRerun(s.statuses, name) {
      var reset := ResetStatus(s.statuses, name);
      if b(CreateRun(name)).None? {
        var run := NewRun(scenario, snapshot, |s.runs|);
        assert RerunStep(s, scenario, snapshot, b).s.statuses == CreatedLedger(reset, name, run.name);
      }
    }
  }

  /** A step halts only at a scenario that is re-run and whose run cannot
      be created; that scenario is left invalid and the step halts with the
      creation error. */
  lemma RerunStepHalts(s: RerunState, scenario: Scenario, snapshot: SnapshotInfo, b: Backend)
    ensures var p := RerunStep(s, scenario, snapshot, b);
      p.Halted? <==> !SkipsRerun(s.statuses, scenario.name) && b(CreateRun(scenario.name)).Some?
    ensures var p := RerunStep(s, scenario, snapshot, b);
      p.Halted? ==> p.s.statuses[scenario.name].state == TestInvalid && p.error == b(CreateRun(scenario.name)).value
  {
  }

  /** What the loop does to the ledger over the first `j` scenarios: only
      their entries change; while it goes on, the count and the entries are
      as `RerunSoFar` says. */
  lemma {:induction false} RerunUpToLedger(s0: RerunState, scenarios: seq<Scenario>, snapshot: SnapshotInfo, b: Backend, j: nat)
    requires j <= |scenarios| && s0.skipped == 0
    ensures var p := RerunUpTo(s0, scenarios, snapshot, b, j);
      && LedgerWithin(s0.statuses, p.s.statuses, ScenarioNameSet(scenarios[..j]))
      && (p.Going? ==> RerunSoFar(s0.statuses, p.s.statuses, p.s.skipped, scenarios, j))
    decreases j
  {
    if j == 0 {
      assert scenarios[..0] == [];
    } else {
      RerunUpToLedger(s0, scenarios, snapshot, b, j - 1);
      var p := RerunUpTo(s0, scenarios, snapshot, b, j - 1);
      if p.Going? {
        var q := RerunStep(p.s, scenarios[j - 1], snapshot, b);
        RerunStepLedger(p.s, scenarios[j - 1], snapshot, b);
        RerunSoFarStep(s0.statuses, p.s.statuses, q.s.statuses, p.s.skipped, q.s.skipped, scenarios, j - 1, q.Going?);
      } else {
        NameSetStep(scenarios, j - 1);
      }
    }
  }

  /** The loop over all the requested scenarios leaves only their entries
      changed. When it goes through, each of them has an entry and the count
      is at most their number; with distinct names the count is that of the
      scenarios the ledger as read skips, a skipped scenario keeps its entry
      and every other one is in progress with a run recorded. */
  lemma RerunLedger(s0: RerunState, scenarios: seq<Scenario>, snapshot: SnapshotInfo, b: Backend)
    requires s0.skipped == 0
    ensures var p := RerunUpTo(s0, scenarios, snapshot, b, |scenarios|);
      var st := s0.statuses;
      && LedgerWithin(st, p.s.statuses, ScenarioNameSet(scenarios))
      && (p.Going? ==> p.s.statuses.Keys == st.Keys + ScenarioNameSet(scenarios) && p.s.skipped <= |scenarios|)
      && (p.Going? && DistinctScenarioNames(scenarios) ==>
            && p.s.skipped == SkipCount(st, scenarios)
            && RerunDone(st, p.s.statuses, scenarios, |scenarios|))
  {
    RerunUpToLedger(s0, scenarios, snapshot, b, |scenarios|);
    assert scenarios[..|scenarios|] == scenarios;
  }

  // ---------------------------------------------------------------------
  // The runs a rerun creates

  /** The names of the scenarios that the ledger `st` does not skip, in
      order. */
  function Reran(st: Ledger, scenarios: seq<Scenario>): (r: seq<string>)
    ensures |r| + SkipCount(st, scenarios) == |scenarios|
    ensures forall m :: 0 <= m < |r| ==> r[m] in ScenarioNameSet(scenarios) && !SkipsRerun(st, r[m])
    decreases |scenarios|
  {
    if scenarios == [] then []
    else
      var last := scenarios[|scenarios| - 1].name;
      ScenarioNameSetSnoc(scenarios);
      Reran(st, scenarios[..|scenarios| - 1]) + (if SkipsRerun(st, last) then [] else [last])
  }

  /** Every scenario the ledger does not skip is among those re-run, and
      with distinct scenario names none is re-run twice. */
  lemma {:induction false} ReranOnce(st: Ledger, scenarios: seq<Scenario>)
    ensures forall k :: 0 <= k < |scenarios| && !SkipsRerun(st, scenarios[k].name) ==>
              scenarios[k].name in Reran(st, scenarios)
    ensures DistinctScenarioNames(scenarios) ==>
              forall m, m' :: 0 <= m < m' < |Reran(st, scenarios)| ==> Reran(st, scenarios)[m] != Reran(st, scenarios)[m']
    decreases |scenarios|
  {
    if scenarios != [] {
      var init := scenarios[..|scenarios| - 1];
      var last := scenarios[|scenarios| - 1].name;
      ReranOnce(st, init);
      var r0 := Reran(st, init);
      assert Reran(st, scenarios) == r0 + (if SkipsRerun(st, last) then [] else [last]);
      forall k | 0 <= k < |init| ensures init[k] == scenarios[k] { }
      if DistinctScenarioNames(scenarios) {
        FreshName(scenarios, |scenarios| - 1);
        assert DistinctScenarioNames(init);
      }
    }
  }

  /** The runs after the first `i` scenarios, against the runs `runs0`
      before the loop: those are all kept with their names, snapshots and
      scenarios; one run was added, in order, for each scenario that `st`
      does not skip, for this snapshot, and its name is recorded for that
      scenario in the ledger `local`; when no scenario was re-run the runs
      are as they were. */
  ghost predicate NewRunsRecorded(st: Ledger, local: Ledger, runs0: seq<PipelineRun>, runs: seq<PipelineRun>,
                                  snapshot: SnapshotInfo, scenarios: seq<Scenario>, i: nat)
    requires i <= |scenarios|
  {
    var names := Reran(st, scenarios[..i]);
    && |runs| == |runs0| + |names|
    && SameRunIds(runs0, runs[..|runs0|])
    && (forall m :: 0 <= m < |names| ==>
          && runs[|runs0| + m].scenario == names[m] && runs[|runs0| + m].snapshot == snapshot.name
          && names[m] in local && local[names[m]].pipelineRunName == runs[|runs0| + m].name)
    && (names == [] ==> runs == runs0)
  }

  /** One more re-run scenario `name`, not among the earlier ones: one run
      for it is added after the others, which keep their identities, and
      the ledger records its name without touching the other entries. */
  lemma NewRunsRecordedAppend(st: Ledger, local: Ledger, local': Ledger, runs0: seq<PipelineRun>,
                              runs: seq<PipelineRun>, runs': seq<PipelineRun>,
                              snapshot: SnapshotInfo, scenarios: seq<Scenario>, i: nat)
    requires i < |scenarios| && NewRunsRecorded(st, local, runs0, runs, snapshot, scenarios, i)
    requires scenarios[i].name !in ScenarioNameSet(scenarios[..i])
    requires Reran(st, scenarios[..i + 1]) == Reran(st, scenarios[..i]) + [scenarios[i].name]
    requires |runs'| == |runs| + 1 && SameRunIds(runs, runs'[..|runs|])
    requires runs'[|runs|].scenario == scenarios[i].name && runs'[|runs|].snapshot == snapshot.name
    requires forall n :: n in local && n != scenarios[i].name ==> n in local' && local'[n] == local[n]
    requires scenarios[i].name in local' && local'[scenarios[i].name].pipelineRunName == runs'[|runs|].name
    ensures NewRunsRecorded(st, local', runs0, runs', snapshot, scenarios, i + 1)
  {
    var names := Reran(st, scenarios[..i]);
    var names' := names + [scenarios[i].name];
    forall m | 0 <= m < |names'|
      ensures && runs'[|runs0| + m].scenario == names'[m] && runs'[|runs0| + m].snapshot == snapshot.name
              && names'[m] in local' && local'[names'[m]].pipelineRunName == runs'[|runs0| + m].name
    {
      if m < |names| {
        assert names[m] in ScenarioNameSet(scenarios[..i]);
        assert names'[m] == names[m] != scenarios[i].name;
        assert runs'[..|runs|][|runs0| + m] == runs'[|runs0| + m];
        assert runs[|runs0| + m].scenario == names[m] && runs[|runs0| + m].snapshot == snapshot.name;
        assert local[names[m]].pipelineRunName == runs[|runs0| + m].name;
      } else {
        assert |runs0| + m == |runs|;
      }
    }
    assert SameRunIds(runs0, runs'[..|runs0|]) by {
      forall k | 0 <= k < |runs0| ensures runs'[..|runs0|][k] == runs'[..|runs|][k] { }
    }
  }

  /** One more scenario, skipped or re-run, on which the loop goes on. */
  lemma NewRunsRecordedStep(st: Ledger, s: RerunState, runs0: seq<PipelineRun>, scenarios: seq<Scenario>, i: nat,
                            snapshot: SnapshotInfo, b: Backend)
    requires i < |scenarios| && DistinctScenarioNames(scenarios)
    requires LedgerFrame(st, s.statuses, scenarios, i)
    requires NewRunsRecorded(st, s.statuses, runs0, s.runs, snapshot, scenarios, i)
    ensures var q := RerunStep(s, scenarios[i], snapshot, b);
      q.Going? ==> NewRunsRecorded(st, q.s.statuses, runs0, q.s.runs, snapshot, scenarios, i + 1)
  {
    var sc := scenarios[i];
    var name := sc.name;
    assert scenarios[..i + 1][..i] == scenarios[..i];
    assert Reran(st, scenarios[..i + 1]) == Reran(st, scenarios[..i]) + (if SkipsRerun(st, name) then [] else [name]);
    FreshName(scenarios, i);
    assert SkipsRerun(s.statuses, name) == SkipsRerun(st, name);
    var q := RerunStep(s, sc, snapshot, b);
    if q.Going? && !SkipsRerun(st, name) {
      var r := s.(statuses := ResetStatus(s.statuses, name));
      RerunScenarioAddsRun(r, sc, snapshot, b);
      NewRunsRecordedAppend(st, s.statuses, q.s.statuses, runs0, s.runs, q.s.runs, snapshot, scenarios, i);
    }
  }

  /** While the loop goes on, the runs are as `NewRunsRecorded` says. */
  lemma {:induction false} RerunUpToRuns(s0: RerunState, scenarios: seq<Scenario>, snapshot: SnapshotInfo, b: Backend, j: nat)
    requires j <= |scenarios| && s0.skipped == 0 && DistinctScenarioNames(scenarios)
    ensures var p := RerunUpTo(s0, scenarios, snapshot, b, j);
      p.Going? ==> NewRunsRecorded(s0.statuses, p.s.statuses, s0.runs, p.s.runs, snapshot, scenarios, j)
    decreases j
  {
    if j == 0 {
      assert scenarios[..0] == [];
    } else {
      RerunUpToRuns(s0, scenarios, snapshot, b, j - 1);
      var p := RerunUpTo(s0, scenarios, snapshot, b, j - 1);
      if p.Going? {
        RerunUpToLedger(s0, scenarios, snapshot, b, j - 1);
        NewRunsRecordedStep(s0.statuses, p.s, s0.runs, scenarios, j - 1, snapshot, b);
      }
    }
  }

  /** A rerun over distinct scenarios that goes through creates exactly one
      new run for each scenario that was not pending or in progress, and
      none for the others: the new runs follow the runs there before, which
      are all kept, each is for this snapshot, and the ledger records its
      name for its scenario. */
  lemma RerunRuns(s0: RerunState, scenarios: seq<Scenario>, snapshot: SnapshotInfo, b: Backend)
    requires s0.skipped == 0 && DistinctScenarioNames(scenarios)
    ensures var p := RerunUpTo(s0, scenarios, snapshot, b, |scenarios|);
      p.Going? ==> NewRunsRecorded(s0.statuses, p.s.statuses, s0.runs, p.s.runs, snapshot, scenarios, |scenarios|)
    ensures forall k :: 0 <= k < |scenarios| && !SkipsRerun(s0.statuses, scenarios[k].name) ==>
              scenarios[k].name in Reran(s0.statuses, scenarios)
    ensures forall m, m' :: 0 <= m < m' < |Reran(s0.statuses, scenarios)| ==>
              Reran(s0.statuses, scenarios)[m] != Reran(s0.statuses, scenarios)[m']
  {
    RerunUpToRuns(s0, scenarios, snapshot, b, |scenarios|);
    ReranOnce(s0.statuses, scenarios);
  }

  /** Once a creation failed, later scenarios are not looked at. */
  lemma {:induction false} RerunUpToStops(s0: RerunState, scenarios: seq<Scenario>, snapshot: SnapshotInfo, b: Backend, i: nat, j: nat)
    requires i <= j <= |scenarios| && RerunUpTo(s0, scenarios, snapshot, b, i).Halted?
    ensures RerunUpTo(s0, scenarios, snapshot, b, j) == RerunUpTo(s0, scenarios, snapshot, b, i)
    decreases j
  {
    if j > i {
      RerunUpToStops(s0, scenarios, snapshot, b, i, j - 1);
    }
  }
}
