/** Creating the integration pipeline runs of a snapshot, at most one per
    scenario, with the test-status ledger as the idempotency record. This
    module gives the loop of the reconciler as a specification and proves
    what it guarantees: exactly-once creation, no abort on a scenario's
    failure, and idempotence of a repeated reconciliation. */
module RunCreation {
  import opened Types
  import opened GitResolver
  import opened TestLedger

  function ScenarioNames(scenarios: seq<Scenario>): (r: seq<string>)
    ensures |r| == |scenarios|
    ensures forall i :: 0 <= i < |scenarios| ==> r[i] == scenarios[i].name
  {
    seq(|scenarios|, i requires 0 <= i < |scenarios| => scenarios[i].name)
  }

  function ScenarioNameSet(scenarios: seq<Scenario>): set<string> {
    set i | 0 <= i < |scenarios| :: scenarios[i].name
  }

  lemma ScenarioNameSetOfNames(scenarios: seq<Scenario>)
    ensures NameSet(ScenarioNames(scenarios)) == ScenarioNameSet(scenarios)
  {
    var names := ScenarioNames(scenarios);
    forall n | n in ScenarioNameSet(scenarios) ensures n in NameSet(names) {
      var i :| 0 <= i < |scenarios| && scenarios[i].name == n;
      assert names[i] == n;
    }
  }

  lemma ScenarioNameSetSnoc(scenarios: seq<Scenario>)
    requires scenarios != []
    ensures ScenarioNameSet(scenarios)
            == ScenarioNameSet(scenarios[..|scenarios| - 1]) + {scenarios[|scenarios| - 1].name}
  {
    var init := scenarios[..|scenarios| - 1];
    forall n | n in ScenarioNameSet(scenarios)
      ensures n in ScenarioNameSet(init) + {scenarios[|scenarios| - 1].name}
    {
      var i :| 0 <= i < |scenarios| && scenarios[i].name == n;
      if i < |init| { assert init[i].name == n; }
    }
    forall n | n in ScenarioNameSet(init) ensures n in ScenarioNameSet(scenarios) {
      var i :| 0 <= i < |init| && init[i].name == n;
      assert scenarios[i].name == n;
    }
  }

  /** The names of the first `i + 1` scenarios. */
  lemma NameSetStep(scenarios: seq<Scenario>, i: nat)
    requires i < |scenarios|
    ensures ScenarioNameSet(scenarios[..i + 1]) == ScenarioNameSet(scenarios[..i]) + {scenarios[i].name}
  {
    ScenarioNameSetSnoc(scenarios[..i + 1]);
    assert scenarios[..i + 1][..i] == scenarios[..i];
  }

  /** With distinct names, scenario `i` is not among the earlier ones. */
  lemma FreshName(scenarios: seq<Scenario>, i: nat)
    requires i < |scenarios| && DistinctScenarioNames(scenarios)
    ensures scenarios[i].name !in ScenarioNameSet(scenarios[..i])
  {
    forall k | 0 <= k < i ensures scenarios[..i][k].name != scenarios[i].name {
      assert scenarios[..i][k] == scenarios[k];
    }
  }

  /** Transforms the scenario list into the list of its names, in a loop. */
  method ScenariosNamesToList(scenarios: seq<Scenario>) returns (names: seq<string>)
    ensures |names| == |scenarios|
    ensures forall i :: 0 <= i < |scenarios| ==> names[i] == scenarios[i].name
  {
    names := [];
    var i := 0;
    while i < |scenarios|
      invariant 0 <= i <= |scenarios|
      invariant |names| == i
      invariant forall k :: 0 <= k < i ==> names[k] == scenarios[k].name
    {
      names := names + [scenarios[i].name];
      i := i + 1;
    }
  }

  // ---------------------------------------------------------------------
  // The pipeline run built for a scenario

  /** The generated name of the `n`-th pipeline run: the scenario name, a dash
      and a suffix; never empty. */
  function RunName(scenario: string, n: nat): (r: string)
    ensures r != ""
  {
    scenario + "-" + DigitString(n)
  }

  /** The pipeline run created for a scenario: it belongs to the snapshot,
      carries the finalizer that protects it from premature deletion, and has
      its git resolver pinned to the commit under test exactly when the
      pinning rule says so. */
  function NewRun(scenario: Scenario, snapshot: SnapshotInfo, n: nat): (r: PipelineRun)
    ensures r.name != "" && r.snapshot == snapshot.name && r.scenario == scenario.name
    ensures !r.finished && r.hasFinalizer && r.specStatus == Unset
    ensures r.resolverUpdate.Some? <==> ShouldUpdateIntegrationTestGitResolver(scenario, snapshot)
    ensures r.resolverUpdate.Some? ==> r.resolverUpdate.value.Keys == {ParamUrl, ParamRevision}
  {
    PipelineRun(RunName(scenario.name, n), snapshot.name, scenario.name, false, true, Unset, map[],
                if ShouldUpdateIntegrationTestGitResolver(scenario, snapshot)
                then Some(GetGitResolverUpdateMap(snapshot)) else None)
  }

  function ErrorText(e: ErrorKind): string {
    match e
    case Invalid => "invalid"
    case NotFound => "not found"
    case Forbidden => "forbidden"
    case Other => "error"
  }

  function FailureMessage(e: ErrorKind): string {
    "Creation of pipelineRun failed during creation due to: " + ErrorText(e) + "."
  }

  function CreatedMessage(run: string): string {
    "IntegrationTestScenario pipeline '" + run + "' has been created"
  }

  /** The outcome of a failed creation during a rerun: a validation
      rejection stops processing, anything else is retried. */
  function CreationErrorOutcome(e: ErrorKind): (r: Outcome)
    ensures r == Stop <==> e == Invalid
    ensures r != Stop ==> r == Requeue([e])
  {
    if e == Invalid then Stop else Requeue([e])
  }

  // ---------------------------------------------------------------------
  // The creation loop

  /** The ledger, the runs created so far and the errors that call for a
      requeue. */
  datatype Attempt = Attempt(statuses: Ledger, created: seq<PipelineRun>, errors: seq<ErrorKind>)

  /** One scenario: skipped when the ledger already records a run for it;
      otherwise a run is created, and a failure marks the scenario invalid and
      is kept for the requeue unless it is a validation rejection. */
  function CreateStep(a: Attempt, scenario: Scenario, snapshot: SnapshotInfo, b: Backend, base: nat): Attempt {
    var name := scenario.name;
    if Registered(a.statuses, name) then a
    else
      match b(CreateRun(name))
      case Some(e) =>
        Attempt(UpdateTestStatusIfChanged(a.statuses, name, TestInvalid, FailureMessage(e)),
                a.created,
                if e == Invalid then a.errors else a.errors + [e])
      case None =>
        var run := NewRun(scenario, snapshot, base + |a.created|);
        var st := UpdateTestStatusIfChanged(a.statuses, name, InProgress, CreatedMessage(run.name));
        Attempt(RecordRunName(st, name, run.name), a.created + [run], a.errors)
  }

  /** All scenarios in order, starting from ledger `st`; `base` is the number
      of runs that existed before, used for the generated names. */
  function CreateRuns(st: Ledger, scenarios: seq<Scenario>, snapshot: SnapshotInfo, b: Backend, base: nat): Attempt
    decreases |scenarios|
  {
    if scenarios == [] then Attempt(st, [], [])
    else
      CreateStep(CreateRuns(st, scenarios[..|scenarios| - 1], snapshot, b, base),
                 scenarios[|scenarios| - 1], snapshot, b, base)
  }

  /** After the loop a scenario either has a run recorded or its creation
      failed and it is marked invalid. */
  predicate Settled(st: Ledger, scenario: Scenario, b: Backend) {
    Registered(st, scenario.name)
    || (b(CreateRun(scenario.name)).Some? && scenario.name in st && st[scenario.name].state == TestInvalid)
  }

  /** The ledger gains entries only for the scenarios processed, and entries
      of scenarios that already had a run, or that are not processed, are
      left exactly as they were. */
  lemma {:induction false} CreateRunsFrame(st: Ledger, scenarios: seq<Scenario>, snapshot: SnapshotInfo, b: Backend, base: nat)
    ensures var a := CreateRuns(st, scenarios, snapshot, b, base);
      && a.statuses.Keys == st.Keys + ScenarioNameSet(scenarios)
      && (forall n :: Registered(st, n) ==> a.statuses[n] == st[n])
      && (forall n :: n in st && n !in ScenarioNameSet(scenarios) ==> a.statuses[n] == st[n])
    decreases |scenarios|
  {
    if scenarios != [] {
      var init := scenarios[..|scenarios| - 1];
      var sc := scenarios[|scenarios| - 1];
      CreateRunsFrame(st, init, snapshot, b, base);
      ScenarioNameSetSnoc(scenarios);
      var a0 := CreateRuns(st, init, snapshot, b, base);
      StepEffect(a0, sc, snapshot, b, base);
      assert CreateStep(a0, sc, snapshot, b, base) == CreateRuns(st, scenarios, snapshot, b, base);
    }
  }

  /** The fold over one more scenario is one more step, and a step only
      ever appends to the runs created. */
  lemma CreateRunsNext(st: Ledger, scenarios: seq<Scenario>, i: nat, snapshot: SnapshotInfo, b: Backend, base: nat)
    requires i < |scenarios|
    ensures var a := CreateRuns(st, scenarios[..i], snapshot, b, base);
      var a' := CreateRuns(st, scenarios[..i + 1], snapshot, b, base);
      && a' == CreateStep(a, scenarios[i], snapshot, b, base)
      && (a'.created != a.created ==> a'.created != [])
  {
    assert scenarios[..i + 1][..i] == scenarios[..i];
  }

  /** What one step does to the ledger and the run list. */
  lemma StepEffect(a: Attempt, scenario: Scenario, snapshot: SnapshotInfo, b: Backend, base: nat)
    ensures var a' := CreateStep(a, scenario, snapshot, b, base);
      && a'.statuses.Keys == a.statuses.Keys + {scenario.name}
      && (forall n :: n in a.statuses && n != scenario.name ==> a'.statuses[n] == a.statuses[n])
      && (Registered(a.statuses, scenario.name) ==> a' == a)
      && (a'.created == a.created
          || (&& !Registered(a.statuses, scenario.name)
              && a'.created == a.created + [NewRun(scenario, snapshot, base + |a.created|)]
              && a'.statuses[scenario.name].pipelineRunName == NewRun(scenario, snapshot, base + |a.created|).name))
  {
  }

  /** A settled scenario stays settled, and the processed one becomes so. */
  lemma StepSettles(a: Attempt, scenario: Scenario, snapshot: SnapshotInfo, b: Backend, base: nat)
    ensures var a' := CreateStep(a, scenario, snapshot, b, base);
      && Settled(a'.statuses, scenario, b)
      && (forall x :: Settled(a.statuses, x, b) ==> Settled(a'.statuses, x, b))
      && (a'.errors == a.errors || (exists e :: e != Invalid && a'.errors == a.errors + [e]))
      && |a'.created| + |a'.errors| <= |a.created| + |a.errors| + 1
  {
    var a' := CreateStep(a, scenario, snapshot, b, base);
    StepEffect(a, scenario, snapshot, b, base);
    forall x | Settled(a.statuses, x, b) ensures Settled(a'.statuses, x, b) {
      if x.name != scenario.name {
        assert a'.statuses[x.name] == a.statuses[x.name];
      }
    }
  }

  /** Every run created is for a scenario of `names` that had no run
      recorded in `st`, belongs to `snapshot` and carries the name generated
      from its position after `base`. */
  ghost predicate CreatedFresh(a: Attempt, st: Ledger, names: set<string>, snapshot: SnapshotInfo, base: nat) {
    forall k :: 0 <= k < |a.created| ==>
      && a.created[k].scenario in names
      && !Registered(st, a.created[k].scenario)
      && a.created[k].name == RunName(a.created[k].scenario, base + k)
      && a.created[k].snapshot == snapshot.name
  }

  /** The ledger records every run created under its scenario. */
  ghost predicate CreatedRecorded(a: Attempt) {
    forall k :: 0 <= k < |a.created| ==>
      Registered(a.statuses, a.created[k].scenario)
      && a.statuses[a.created[k].scenario].pipelineRunName == a.created[k].name
  }

  /** No scenario has two runs. */
  ghost predicate CreatedOncePerScenario(a: Attempt) {
    forall j, k :: 0 <= j < k < |a.created| ==> a.created[j].scenario != a.created[k].scenario
  }

  lemma {:induction false} CreatedWereMissing(st: Ledger, scenarios: seq<Scenario>, snapshot: SnapshotInfo, b: Backend, base: nat)
    ensures CreatedFresh(CreateRuns(st, scenarios, snapshot, b, base), st, ScenarioNameSet(scenarios), snapshot, base)
    decreases |scenarios|
  {
    if scenarios != [] {
      var init := scenarios[..|scenarios| - 1];
      var sc := scenarios[|scenarios| - 1];
      CreatedWereMissing(st, init, snapshot, b, base);
      CreateRunsFrame(st, init, snapshot, b, base);
      ScenarioNameSetSnoc(scenarios);
      var a0 := CreateRuns(st, init, snapshot, b, base);
      StepEffect(a0, sc, snapshot, b, base);
      var a := CreateStep(a0, sc, snapshot, b, base);
      assert a == CreateRuns(st, scenarios, snapshot, b, base);
      assert CreatedFresh(a0, st, ScenarioNameSet(init), snapshot, base);
    }
  }

  lemma {:induction false} CreatedAreRecorded(st: Ledger, scenarios: seq<Scenario>, snapshot: SnapshotInfo, b: Backend, base: nat)
    ensures CreatedRecorded(CreateRuns(st, scenarios, snapshot, b, base))
    decreases |scenarios|
  {
    if scenarios != [] {
      var init := scenarios[..|scenarios| - 1];
      var sc := scenarios[|scenarios| - 1];
      CreatedAreRecorded(st, init, snapshot, b, base);
      var a0 := CreateRuns(st, init, snapshot, b, base);
      StepEffect(a0, sc, snapshot, b, base);
      var a := CreateStep(a0, sc, snapshot, b, base);
      assert a == CreateRuns(st, scenarios, snapshot, b, base);
      assert CreatedRecorded(a0);
      forall k | 0 <= k < |a0.created|
        ensures a0.created[k].scenario in a0.statuses
        ensures a.statuses[a0.created[k].scenario] == a0.statuses[a0.created[k].scenario]
      {
        if a0.created[k].scenario == sc.name {
          assert Registered(a0.statuses, sc.name);
        }
      }
    }
  }

  lemma {:induction false} CreatedDistinct(st: Ledger, scenarios: seq<Scenario>, snapshot: SnapshotInfo, b: Backend, base: nat)
    ensures CreatedOncePerScenario(CreateRuns(st, scenarios, snapshot, b, base))
    decreases |scenarios|
  {
    if scenarios != [] {
      var init := scenarios[..|scenarios| - 1];
      var sc := scenarios[|scenarios| - 1];
      CreatedDistinct(st, init, snapshot, b, base);
      CreatedAreRecorded(st, init, snapshot, b, base);
      var a0 := CreateRuns(st, init, snapshot, b, base);
      StepEffect(a0, sc, snapshot, b, base);
      var a := CreateStep(a0, sc, snapshot, b, base);
      assert a == CreateRuns(st, scenarios, snapshot, b, base);
      assert CreatedRecorded(a0) && CreatedOncePerScenario(a0);
      if a.created != a0.created {
        forall k | 0 <= k < |a0.created| ensures a0.created[k].scenario != sc.name {
          assert Registered(a0.statuses, a0.created[k].scenario);
        }
      }
    }
  }

  /** Exactly once: the three facts above together. */
  lemma CreateRunsExactlyOnce(st: Ledger, scenarios: seq<Scenario>, snapshot: SnapshotInfo, b: Backend, base: nat)
    ensures var a := CreateRuns(st, scenarios, snapshot, b, base);
      && CreatedFresh(a, st, ScenarioNameSet(scenarios), snapshot, base)
      && CreatedRecorded(a)
      && CreatedOncePerScenario(a)
  {
    CreatedWereMissing(st, scenarios, snapshot, b, base);
    CreatedAreRecorded(st, scenarios, snapshot, b, base);
    CreatedDistinct(st, scenarios, snapshot, b, base);
  }

  /** A failing scenario does not stop the others: afterwards every
      scenario is settled, so failures are marked invalid, and only errors
      other than validation rejections are kept for the requeue. */
  lemma {:induction false} CreateRunsSettles(st: Ledger, scenarios: seq<Scenario>, snapshot: SnapshotInfo, b: Backend, base: nat)
    ensures var a := CreateRuns(st, scenarios, snapshot, b, base);
      && (forall i :: 0 <= i < |scenarios| ==> Settled(a.statuses, scenarios[i], b))
      && (forall e :: e in a.errors ==> e != Invalid)
      && |a.created| + |a.errors| <= |scenarios|
    decreases |scenarios|
  {
    if scenarios != [] {
      var init := scenarios[..|scenarios| - 1];
      var sc := scenarios[|scenarios| - 1];
      CreateRunsSettles(st, init, snapshot, b, base);
      var a0 := CreateRuns(st, init, snapshot, b, base);
      var a := CreateStep(a0, sc, snapshot, b, base);
      assert a == CreateRuns(st, scenarios, snapshot, b, base);
      StepSettles(a0, sc, snapshot, b, base);
      forall i | 0 <= i < |scenarios| ensures Settled(a.statuses, scenarios[i], b) {
        if i < |init| {
          assert Settled(a0.statuses, init[i], b);
        }
      }
    }
  }

  /** Once every scenario is settled, running the loop again with the same
      backend answers creates nothing and leaves the ledger as it is. */
  lemma {:induction false} CreateRunsNoOpWhenSettled(st: Ledger, scenarios: seq<Scenario>, snapshot: SnapshotInfo, b: Backend, base: nat)
    requires forall i :: 0 <= i < |scenarios| ==> Settled(st, scenarios[i], b)
    ensures CreateRuns(st, scenarios, snapshot, b, base) == Attempt(st, [], CreateRuns(st, scenarios, snapshot, b, base).errors)
    decreases |scenarios|
  {
    if scenarios != [] {
      var init := scenarios[..|scenarios| - 1];
      assert forall i :: 0 <= i < |init| ==> init[i] == scenarios[i];
      CreateRunsNoOpWhenSettled(st, init, snapshot, b, base);
      assert Settled(st, scenarios[|scenarios| - 1], b);
    }
  }

  /** Reconciling a second time with the same backend answers creates no
      further run and leaves the ledger unchanged. */
  lemma CreateRunsIdempotent(st: Ledger, scenarios: seq<Scenario>, snapshot: SnapshotInfo, b: Backend, base: nat, base': nat)
    ensures var a := CreateRuns(st, scenarios, snapshot, b, base);
            var again := CreateRuns(a.statuses, scenarios, snapshot, b, base');
            again.created == [] && again.statuses == a.statuses
  {
    CreateRunsSettles(st, scenarios, snapshot, b, base);
    var a := CreateRuns(st, scenarios, snapshot, b, base);
    CreateRunsNoOpWhenSettled(a.statuses, scenarios, snapshot, b, base');
  }

  /** When the backend answers differently the second time (a transient
      error that went away), only scenarios whose first creation failed get
      a run. */
  lemma CreateRunsRetriesOnlyFailures(st: Ledger, scenarios: seq<Scenario>, snapshot: SnapshotInfo,
                                      b1: Backend, b2: Backend, base: nat, base': nat)
    ensures var a := CreateRuns(st, scenarios, snapshot, b1, base);
            var again := CreateRuns(a.statuses, scenarios, snapshot, b2, base');
            forall k :: 0 <= k < |again.created| ==> b1(CreateRun(again.created[k].scenario)).Some?
  {
    var a := CreateRuns(st, scenarios, snapshot, b1, base);
    var again := CreateRuns(a.statuses, scenarios, snapshot, b2, base');
    CreateRunsSettles(st, scenarios, snapshot, b1, base);
    CreatedWereMissing(a.statuses, scenarios, snapshot, b2, base');
    forall k | 0 <= k < |again.created| ensures b1(CreateRun(again.created[k].scenario)).Some? {
      assert again.created[k].scenario in ScenarioNameSet(scenarios);
      var i :| 0 <= i < |scenarios| && scenarios[i].name == again.created[k].scenario;
      assert Settled(a.statuses, scenarios[i], b1);
    }
  }

  /** The whole first part of the operation, initialisation followed by the
      loop, run twice: the second reconciliation creates nothing. */
  lemma ReconcileTwiceCreatesOnce(ledger: Ledger, scenarios: seq<Scenario>, snapshot: SnapshotInfo, b: Backend, base: nat, base': nat)
    ensures var names := ScenarioNames(scenarios);
            var a := CreateRuns(InitStatuses(ledger, names), scenarios, snapshot, b, base);
            var again := CreateRuns(InitStatuses(a.statuses, names), scenarios, snapshot, b, base');
            again.created == [] && again.statuses == a.statuses
  {
    var names := ScenarioNames(scenarios);
    var st := InitStatuses(ledger, names);
    var a := CreateRuns(st, scenarios, snapshot, b, base);
    CreateRunsFrame(st, scenarios, snapshot, b, base);
    ScenarioNameSetOfNames(scenarios);
    assert InitStatuses(a.statuses, names) == a.statuses;
    CreateRunsIdempotent(st, scenarios, snapshot, b, base, base');
  }
  /** Whatever the cluster does in either reconcile pass, no scenario gets a
      run in both: a run created in the first pass is recorded in the
      ledger, and the second pass only creates runs for scenarios with none
      recorded. */
  lemma ReconcileTwiceNoDoubleRun(ledger: Ledger, scenarios: seq<Scenario>, snapshot: SnapshotInfo,
                                  b1: Backend, b2: Backend, base: nat, base': nat)
    ensures var names := ScenarioNames(scenarios);
            var a := CreateRuns(InitStatuses(ledger, names), scenarios, snapshot, b1, base);
            var again := CreateRuns(InitStatuses(a.statuses, names), scenarios, snapshot, b2, base');
            forall j, k :: 0 <= j < |a.created| && 0 <= k < |again.created| ==>
              a.created[j].scenario != again.created[k].scenario
  {
    var names := ScenarioNames(scenarios);
    var a := CreateRuns(InitStatuses(ledger, names), scenarios, snapshot, b1, base);
    var st2 := InitStatuses(a.statuses, names);
    CreatedAreRecorded(InitStatuses(ledger, names), scenarios, snapshot, b1, base);
    CreatedWereMissing(st2, scenarios, snapshot, b2, base');
  }

}
