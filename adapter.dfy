/** The snapshot adapter: the operations the snapshot reconciler runs, in
    order, against one snapshot of an application. Each operation reads the
    adapter's view of the cluster, issues calls through the backend, updates
    the fields that those calls change, and tells the reconciler whether to
    continue, to requeue with errors, or to stop. */
module SnapshotAdapter {
  import opened Types
  import opened TestLedger
  import opened RunCreation
  import opened Rerun
  import opened Supersession
  import opened Grouping
  import opened Releases
  import opened Promotion

  /** The note a component snapshot carries about its pull request group;
      any note means the group was processed for that snapshot. */
  datatype GroupNote =
    | NoGroupInfo
    | Held(blocker: Blocker)
    | PrepareFailed
    | TooFewComponents(count: nat)
    | GroupCreated(index: nat)
    | GroupCreationFailed

  /** The snapshots named by the infos. */
  function InfoSnapshots(infos: seq<ComponentSnapshotInfo>): set<string> {
    set k | 0 <= k < |infos| :: infos[k].snapshot
  }

  /** Every constituent snapshot gets the note; other notes are kept. */
  function NotifyAll(notes: map<string, GroupNote>, infos: seq<ComponentSnapshotInfo>, note: GroupNote): (r: map<string, GroupNote>)
    ensures r.Keys == notes.Keys + InfoSnapshots(infos)
    ensures forall k :: 0 <= k < |infos| ==> r[infos[k].snapshot] == note
    ensures forall n :: n in notes && n !in InfoSnapshots(infos) ==> r[n] == notes[n]
  {
    map n | n in notes.Keys + InfoSnapshots(infos) :: if n in InfoSnapshots(infos) then note else notes[n]
  }

  /** Requeue while the snapshot is young, give up once it is old. */
  function RequeueIfYoungerThanThreshold(young: bool, errors: seq<ErrorKind>): (r: Outcome)
    ensures r != Stop
    ensures r.Requeue? <==> young
    ensures r.Requeue? ==> r.errors == errors
  {
    if young then Requeue(errors) else Continue
  }

  /** The scenarios a rerun label asks for, when they can be found: all
      those that apply to the snapshot (none at all is `None`) or the one
      named by the label. */
  function RequestedScenarios(runLabel: string, all: Result<Option<seq<Scenario>>>, named: Result<Scenario>): Option<seq<Scenario>> {
    if runLabel == RerunAll then (if all.Ok? then all.value else None)
    else if named.Ok? then Some([named.value]) else None
  }

  /** The outcome of looking up the scenarios a rerun label asks for: a
      failure to load them requeues, and so does a failure to remove a label
      that names a scenario that does not exist; anything else goes on. */
  function LookupOutcome(runLabel: string, all: Result<Option<seq<Scenario>>>, named: Result<Scenario>, b: Backend): (r: Outcome)
    ensures r != Stop
    ensures r.Requeue? <==>
              if runLabel == RerunAll then all.Err?
              else named.Err? && (named.error != NotFound || b(RemoveRerunLabel).Some?)
  {
    if runLabel == RerunAll then (if all.Err? then Requeue([all.error]) else Continue)
    else if named.Ok? then Continue
    else if named.error != NotFound then Requeue([named.error])
    else if b(RemoveRerunLabel).Some? then Requeue([b(RemoveRerunLabel).value])
    else Continue
  }

  /** The first failure of the clean-up after a re-run: removing the label,
      then (unless every requested scenario was skipped) writing the ledger
      and resetting the snapshot's conditions. */
  function CleanupError(skip: nat, total: nat, b: Backend): (r: Option<ErrorKind>)
    ensures b(RemoveRerunLabel).Some? ==> r == b(RemoveRerunLabel)
    ensures r.None? <==>
              b(RemoveRerunLabel).None? && (skip == total || (b(WriteStatuses(RerunWrite)).None? && b(ResetConditions).None?))
  {
    if b(RemoveRerunLabel).Some? then b(RemoveRerunLabel)
    else if skip == total then None
    else if b(WriteStatuses(RerunWrite)).Some? then b(WriteStatuses(RerunWrite))
    else b(ResetConditions)
  }

  /** How a failed creation ends the operation: a failed write of the
      ledger is retried, otherwise a validation rejection stops and any other
      error is retried. */
  function StopOutcome(e: ErrorKind, b: Backend): (r: Outcome)
    ensures r.Stop? <==> b(WriteStatuses(ErrorWrite)).None? && e == Invalid
  {
    if b(WriteStatuses(ErrorWrite)).Some? then Requeue([b(WriteStatuses(ErrorWrite)).value]) else CreationErrorOutcome(e)
  }

  /** The ledger, runs and competing snapshots after the ledger is
      initialised for the scenarios and their missing runs are created: a
      failed read or first write of the ledger changes nothing; otherwise
      the runs created are added (and older snapshots superseded), the
      snapshot is marked in progress once a run was created (a failed mark
      is only logged), and the ledger holds the new run names when its
      final write goes through. */
  ghost predicate InitializedFrom(snapshot: SnapshotInfo, scs: seq<Scenario>, b: Backend,
                                  ledger0: Ledger, runs0: seq<PipelineRun>, peers0: seq<Peer>, inProgress0: bool,
                                  ledger: Ledger, runs: seq<PipelineRun>, peers: seq<Peer>, inProgress: bool) {
    if b(ReadStatuses).Some? || b(WriteStatuses(InitialWrite)).Some? then
      ledger == ledger0 && runs == runs0 && peers == peers0 && inProgress == inProgress0
    else
      var st0 := InitStatuses(ledger0, ScenarioNames(scs));
      var a := CreateRuns(st0, scs, snapshot, b, |runs0|);
      var sup := SupersedeAfterRun(snapshot, peers0, runs0 + a.created, b);
      && ledger == (if b(WriteStatuses(FinalWrite)).None? then a.statuses else st0)
      && peers == sup.peers && runs == sup.runs
      && inProgress == (inProgress0 || (a.created != [] && b(MarkInProgress).None?))
  }

  /** The errors with which the run-creation part of the operation
      requeues: a failed read or first write of the ledger alone; otherwise
      the creation errors other than validation rejections, then a failed
      final write. It requeues not at all exactly when every ledger call
      went through and every failed creation was a validation rejection. */
  function InitErrors(ledger0: Ledger, scs: seq<Scenario>, snapshot: SnapshotInfo, b: Backend, base: nat): (r: seq<ErrorKind>)
    ensures b(ReadStatuses).Some? ==> r == [b(ReadStatuses).value]
    ensures r == [] <==>
              && b(ReadStatuses).None? && b(WriteStatuses(InitialWrite)).None? && b(WriteStatuses(FinalWrite)).None?
              && CreateRuns(InitStatuses(ledger0, ScenarioNames(scs)), scs, snapshot, b, base).errors == []
    ensures b(ReadStatuses).None? && b(WriteStatuses(InitialWrite)).None? && b(WriteStatuses(FinalWrite)).None? ==>
              Invalid !in r
  {
    if b(ReadStatuses).Some? then [b(ReadStatuses).value]
    else if b(WriteStatuses(InitialWrite)).Some? then [b(WriteStatuses(InitialWrite)).value]
    else
      var st0 := InitStatuses(ledger0, ScenarioNames(scs));
      CreateRunsSettles(st0, scs, snapshot, b, base);
      var a := CreateRuns(st0, scs, snapshot, b, base);
      a.errors + (if b(WriteStatuses(FinalWrite)).Some? then [b(WriteStatuses(FinalWrite)).value] else [])
  }

  /** The tail of the run-creation operation: failing to list the required
      scenarios marks the integration status as errored and stops, or
      requeues when that mark cannot be written; a snapshot with no
      required scenario that is not yet passed is marked passed, and a
      failed mark requeues; anything else goes on unchanged. */
  predicate PassedTail(required: Result<nat>, b: Backend, passed0: bool, integrationError0: bool,
                       outcome: Outcome, passed: bool, integrationError: bool) {
    match required
    case Err(_) =>
      && passed == passed0
      && if b(PatchIntegrationStatus).Some? then
           outcome == Requeue([b(PatchIntegrationStatus).value]) && integrationError == integrationError0
         else outcome == Stop && integrationError
    case Ok(n) =>
      && integrationError == integrationError0
      && if n != 0 || passed0 then outcome == Continue && passed == passed0
         else if b(MarkPassed).None? then outcome == Continue && passed
         else outcome == Requeue([b(MarkPassed).value]) && !passed
  }

  /** A loop halted by a failed creation ends as the error handler says,
      with the ledger written when that write went through. */
  ghost predicate HaltedAs(p: RerunProgress, stop: Option<Outcome>, ledger0: Ledger, ledger: Ledger, local: Ledger, b: Backend) {
    p.Halted? ==>
      && stop == Some(StopOutcome(p.error, b))
      && ledger == if b(WriteStatuses(ErrorWrite)).Some? then ledger0 else local
  }

  /** How a failure to list the release plans or to create the releases
      ends the operation: the snapshot's integration status is patched as
      errored (a failed patch joins its error), then the operation is
      requeued while the snapshot is young and gives up once it is old. */
  function ReleaseErrorOutcome(e: ErrorKind, young: bool, b: Backend): (r: Outcome)
    ensures r != Stop && (r.Requeue? <==> young)
    ensures r.Requeue? ==> |r.errors| >= 1 && r.errors[0] == e && (|r.errors| == 2 <==> b(PatchIntegrationStatus).Some?)
  {
    RequeueIfYoungerThanThreshold(young, [e] + (if b(PatchIntegrationStatus).Some? then [b(PatchIntegrationStatus).value] else []))
  }

  /** The end of a promotion: an error requeues; otherwise the snapshot is
      marked as added to the global candidate list, and a failed mark
      requeues. */
  predicate MarkedAdded(err: Option<ErrorKind>, outcome: Outcome, added0: bool, added: bool, b: Backend) {
    if err.Some? then outcome == Requeue([err.value]) && added == added0
    else if b(MarkAddedToCandidates).Some? then outcome == Requeue([b(MarkAddedToCandidates).value]) && added == added0
    else outcome == Continue && added
  }

  /** What a re-run that went through leaves, for distinct scenario names:
      when every scenario was skipped, the ledger, the runs and the passed
      mark as they were; otherwise the snapshot no longer passed, each
      skipped scenario's entry as it was, every other scenario in progress,
      and exactly one new run for each of those, whose name the ledger
      records (`NewRunsRecorded`). */
  ghost predicate RerunEffect(snapshot: SnapshotInfo, scs: seq<Scenario>, st: Ledger, ledger: Ledger,
                              runs0: seq<PipelineRun>, runs: seq<PipelineRun>, passed0: bool, passed: bool) {
    && (SkipCount(st, scs) == |scs| ==> ledger == st && runs == runs0 && passed == passed0)
    && (SkipCount(st, scs) < |scs| ==>
          && !passed && RerunDone(st, ledger, scs, |scs|)
          && NewRunsRecorded(st, ledger, runs0, runs, snapshot, scs, |scs|))
  }

  /** A rerun loop over distinct scenarios that went through, and the
      ledger written back after it: with every scenario skipped the ledger
      and the passed mark are kept, otherwise the ledger is the loop's and
      the mark is cleared. That leaves what `RerunEffect` describes. */
  lemma RerunWentThrough(snapshot: SnapshotInfo, scs: seq<Scenario>, s0: RerunState, b: Backend,
                         ledger: Ledger, passed0: bool, passed: bool)
    requires s0.skipped == 0 && DistinctScenarioNames(scs)
    requires RerunUpTo(s0, scs, snapshot, b, |scs|).Going?
    requires var p := RerunUpTo(s0, scs, snapshot, b, |scs|);
      if p.s.skipped == |scs| then ledger == s0.statuses && passed == passed0
      else ledger == p.s.statuses && !passed
    ensures RerunEffect(snapshot, scs, s0.statuses, ledger, s0.runs, RerunUpTo(s0, scs, snapshot, b, |scs|).s.runs,
                        passed0, passed)
  {
    RerunLedger(s0, scs, snapshot, b);
    RerunRuns(s0, scs, snapshot, b);
    assert scs[..|scs|] == scs;
  }

  /** The global candidate record and the group snapshot agree: a component
      promoted from an entry (an image with a valid digest, built from a
      revision) contributes to a later group snapshot, when it has no open
      pull request, exactly that image at that revision, from its own
      repository. */
  lemma FallbackAfterPromotion(c: Candidates, i: nat, entry: SnapshotComponent, b: Backend)
    requires i < |c.components| && c.components[i].source.Some?
    requires entry.containerImage != "" && ValidImageDigest(entry.containerImage)
    requires entry.source.Some? && entry.source.value.revision != ""
    requires PromoteEntry(c, i, entry, b).error.None?
    ensures Fallback(PromoteEntry(c, i, entry, b).c.components[i]) ==
              Some(SnapshotComponent(c.components[i].name, entry.containerImage,
                                     Some(GitSource(c.components[i].source.value.url, entry.source.value.revision))))
  {
    PromoteEntryEffect(c, i, entry, b);
  }

  /** The status markers a snapshot carries when it is loaded. */
  datatype Markers = Markers(inProgress: bool, passed: bool, integrationError: bool,
                             autoReleased: bool, addedToCandidates: bool, markedInvalid: bool)

  class Adapter {
    /** The snapshot under reconciliation. */
    const snapshot: SnapshotInfo
    /** Whether the snapshot's tests are already reported as finished. */
    const testsFinished: bool
    /** The test-status ledger as stored in the snapshot. */
    var ledger: Ledger
    /** The rerun label on the snapshot: a scenario name, or "all". */
    var rerunLabel: Option<string>
    /** Status markers of the snapshot. */
    var inProgress: bool
    var passed: bool
    var integrationError: bool
    var autoReleased: bool
    var addedToCandidates: bool
    var markedInvalid: bool
    /** Pull request group notes of component snapshots, by snapshot name. */
    var notes: map<string, GroupNote>
    /** The snapshots that compete with this one (same pull request and
        component, or same group), newest first. */
    var peers: seq<Peer>
    /** The integration pipeline runs in the namespace. */
    var runs: seq<PipelineRun>
    /** The releases of this snapshot, by release plan. */
    var releases: ReleaseSet
    /** The application's components and the patches sent to them. */
    var candidates: Candidates
    /** The group snapshots created. */
    var groupSnapshots: seq<GroupSnapshot>

    /** The competing snapshots are sorted newest first and named uniquely. */
    predicate Valid()
      reads this
    {
      SortedNewestFirst(peers) && DistinctPeerNames(peers)
    }

    /** The adapter wraps the snapshot as loaded, with the markers, notes,
        releases and group snapshots it already carries; the patches sent to
        the components start empty. */
    constructor (snapshot: SnapshotInfo, testsFinished: bool, ledger: Ledger, rerunLabel: Option<string>,
                 markers: Markers, notes: map<string, GroupNote>, peers: seq<Peer>, runs: seq<PipelineRun>,
                 releases: ReleaseSet, components: seq<Component>, groupSnapshots: seq<GroupSnapshot>)
      requires SortedNewestFirst(peers) && DistinctPeerNames(peers)
      ensures Valid()
      ensures this.snapshot == snapshot && this.testsFinished == testsFinished
      ensures this.ledger == ledger && this.rerunLabel == rerunLabel
      ensures this.peers == peers && this.runs == runs && this.candidates == Candidates(components, [])
      ensures inProgress == markers.inProgress && passed == markers.passed
      ensures integrationError == markers.integrationError && autoReleased == markers.autoReleased
      ensures addedToCandidates == markers.addedToCandidates && markedInvalid == markers.markedInvalid
      ensures this.notes == notes && this.releases == releases && this.groupSnapshots == groupSnapshots
    {
      this.snapshot := snapshot;
      this.testsFinished := testsFinished;
      this.ledger := ledger;
      this.rerunLabel := rerunLabel;
      this.peers := peers;
      this.runs := runs;
      this.candidates := Candidates(components, []);
      inProgress := markers.inProgress;
      passed := markers.passed;
      integrationError := markers.integrationError;
      autoReleased := markers.autoReleased;
      addedToCandidates := markers.addedToCandidates;
      markedInvalid := markers.markedInvalid;
      this.notes := notes;
      this.releases := releases;
      this.groupSnapshots := groupSnapshots;
    }

    // -------------------------------------------------------------------
    // Creating one pipeline run

    /** Creates the run of a scenario. On success the run exists, named
        after the number of runs so far, and the snapshot is marked in
        progress if it was not (a failure to mark it is only logged). */
    method CreateIntegrationPipelineRun(scenario: Scenario, b: Backend) returns (r: Result<PipelineRun>)
      modifies this`runs, this`inProgress
      ensures b(CreateRun(scenario.name)).Some? ==>
                r == Err(b(CreateRun(scenario.name)).value) && runs == old(runs) && inProgress == old(inProgress)
      ensures b(CreateRun(scenario.name)).None? ==>
                && r == Ok(NewRun(scenario, snapshot, |old(runs)|))
                && runs == old(runs) + [r.value]
                && inProgress == (old(inProgress) || b(MarkInProgress).None?)
    {
      match b(CreateRun(scenario.name))
      case Some(e) =>
        return Err(e);
      case None =>
        var run := NewRun(scenario, snapshot, |runs|);
        runs := runs + [run];
        if !inProgress && b(MarkInProgress).None? {
          inProgress := true;
        }
        return Ok(run);
    }

    /** A failed creation marks the scenario invalid and writes the ledger;
        a failed write is retried, otherwise a validation rejection stops
        and any other error is retried. */
    method HandlePipelineCreationError(e: ErrorKind, name: string, local: Ledger, b: Backend)
      returns (outcome: Outcome, st: Ledger)
      modifies this`ledger
      ensures st == UpdateTestStatusIfChanged(local, name, TestInvalid, FailureMessage(e))
      ensures outcome == StopOutcome(e, b)
      ensures ledger == if b(WriteStatuses(ErrorWrite)).Some? then old(ledger) else st
    {
      st := UpdateTestStatusIfChanged(local, name, TestInvalid, FailureMessage(e));
      match b(WriteStatuses(ErrorWrite))
      case Some(we) =>
        return Requeue([we]), st;
      case None =>
        ledger := st;
        if e == Invalid {
          return Stop, st;
        }
        return Requeue([e]), st;
    }

    // -------------------------------------------------------------------
    // Superseding older snapshots

    /** Cancels every unfinished run of snapshot `target`, stopping at the
        first failed call. */
    method CancelAllPipelineRunsForSnapshot(target: string, b: Backend) returns (err: Option<ErrorKind>)
      modifies this`runs
      ensures RunsProgress(runs, err) == CancelAllRuns(old(runs), target, b)
      ensures err.None? ==> runs == CancelRunsOf(old(runs), {target})
    {
      if b(ListRuns(target)).Some? {
        return b(ListRuns(target));
      }
      var j := 0;
      while j < |runs|
        invariant 0 <= j <= |runs| == |old(runs)|
        invariant CancelRunsUpTo(old(runs), target, b, j) == RunsProgress(runs, None)
      {
        var r := runs[j];
        if r.snapshot == target && !r.finished {
          var e := b(RemoveFinalizer(r.name));
          if e.Some? {
            CancelRunsUpToStops(old(runs), target, b, j + 1, |runs|);
            return e;
          }
          runs := runs[j := r.(hasFinalizer := false)];
          e := b(PatchCancel(r.name));
          if e.Some? {
            CancelRunsUpToStops(old(runs), target, b, j + 1, |runs|);
            return e;
          }
          runs := runs[j := CancelRun(r)];
        }
        j := j + 1;
      }
      CancelAllRunsOk(old(runs), target, b);
      return None;
    }

    /** Marks every competing snapshot but the newest canceled and cancels
        its runs. The newest snapshot and its runs, and every finished run,
        are left alone whatever the backend answers. */
    method CheckAndCancelOldSnapshotsPipelineRun(b: Backend) returns (err: Option<ErrorKind>)
      requires Valid()
      modifies this`peers, this`runs
      ensures Valid()
      ensures Progress(peers, runs, err) == SupersedeFor(snapshot, old(peers), old(runs), b)
      ensures |old(peers)| > 0 ==> peers[0] == old(peers)[0]
      ensures forall k :: 0 <= k < |old(runs)| && (old(runs)[k].finished || (|old(peers)| > 0 && old(runs)[k].snapshot == old(peers)[0].name))
                ==> runs[k] == old(runs)[k]
    {
      SupersedeForKeepsOrder(snapshot, peers, runs, b);
      SupersedeForKeepsNewest(snapshot, peers, runs, b);
      if snapshot.kind == GroupKind && (snapshot.prGroupHash == "" || snapshot.prGroup == "") {
        return Some(Other);
      }
      if snapshot.kind != ComponentKind && snapshot.kind != GroupKind {
        return None;
      }
      if b(ListPeers).Some? {
        return b(ListPeers);
      }
      if |peers| < 2 {
        return None;
      }
      var i := 1;
      while i < |peers|
        invariant 1 <= i <= |peers| == |old(peers)|
        invariant SupersedeUpTo(old(peers), old(runs), b, i) == Progress(peers, runs, None)
      {
        var peer := peers[i];
        if !peer.canceled {
          var e := b(MarkCanceled(peer.name));
          if e.Some? {
            SupersedeUpToStops(old(peers), old(runs), b, i + 1, |peers|);
            return e;
          }
          peers := peers[i := peer.(canceled := true)];
          e := CancelAllPipelineRunsForSnapshot(peer.name, b);
          if e.Some? {
            SupersedeUpToStops(old(peers), old(runs), b, i + 1, |peers|);
            return e;
          }
        }
        i := i + 1;
      }
      return None;
    }

    // -------------------------------------------------------------------
    // Integration pipeline runs

    /** One scenario of the loop: a scenario whose ledger entry already
        records a run is left alone; for any other a run is created, and a
        failure marks the scenario invalid and is kept for the requeue unless
        it is a validation rejection. */
    method EnsureRunForScenario(a: Attempt, sc: Scenario, b: Backend, base: nat, ghost runs0: seq<PipelineRun>)
      returns (a': Attempt)
      requires runs == runs0 + a.created && |runs0| == base
      modifies this`runs, this`inProgress
      ensures a' == CreateStep(a, sc, snapshot, b, base)
      ensures runs == runs0 + a'.created
      ensures inProgress == (old(inProgress) || (a'.created != a.created && b(MarkInProgress).None?))
    {
      a' := a;
      if !Registered(a.statuses, sc.name) {
        var r := CreateIntegrationPipelineRun(sc, b);
        match r {
          case Err(e) =>
            var st := UpdateTestStatusIfChanged(a.statuses, sc.name, TestInvalid, FailureMessage(e));
            a' := Attempt(st, a.created, if e == Invalid then a.errors else a.errors + [e]);
          case Ok(run) =>
            var st := UpdateTestStatusIfChanged(a.statuses, sc.name, InProgress, CreatedMessage(run.name));
            a' := Attempt(RecordRunName(st, sc.name, run.name), a.created + [run], a.errors);
        }
      }
    }

    /** The loop over the scenarios, in order: afterwards the ledger, the
        runs created and the errors are those of `CreateRuns`. */
    method CreateMissingPipelineRuns(st0: Ledger, scs: seq<Scenario>, b: Backend) returns (a: Attempt)
      modifies this`runs, this`inProgress
      ensures a == CreateRuns(st0, scs, snapshot, b, |old(runs)|)
      ensures runs == old(runs) + a.created
      ensures inProgress == (old(inProgress) || (a.created != [] && b(MarkInProgress).None?))
    {
      var base := |runs|;
      a := Attempt(st0, [], []);
      var i := 0;
      while i < |scs|
        invariant 0 <= i <= |scs|
        invariant a == CreateRuns(st0, scs[..i], snapshot, b, base)
        invariant runs == old(runs) + a.created
        invariant inProgress == (old(inProgress) || (a.created != [] && b(MarkInProgress).None?))
      {
        CreateRunsNext(st0, scs, i, snapshot, b, base);
        a := EnsureRunForScenario(a, scs[i], b, base, old(runs));
        i := i + 1;
      }
      assert scs[..|scs|] == scs;
    }

    /** The part of the operation that runs when the scenarios could be
        listed: the ledger is read, initialised and written, a run is created
        for every scenario whose entry records none, competing snapshots are
        superseded (unless the snapshot comes from a push event), and the
        ledger is written again. The errors returned call for a requeue:
        creation errors other than validation rejections, and a failure of
        the last write. */
    method InitializeAndCreatePipelineRuns(scs: seq<Scenario>, b: Backend) returns (errors: seq<ErrorKind>)
      requires Valid()
      modifies this`ledger, this`runs, this`peers, this`inProgress
      ensures Valid()
      ensures errors == InitErrors(old(ledger), scs, snapshot, b, |old(runs)|)
      ensures InitializedFrom(snapshot, scs, b, old(ledger), old(runs), old(peers), old(inProgress),
                              ledger, runs, peers, inProgress)
    {
      if b(ReadStatuses).Some? {
        return [b(ReadStatuses).value];
      }
      var names := ScenariosNamesToList(scs);
      assert names == ScenarioNames(scs);
      var st0 := InitStatuses(ledger, names);
      if b(WriteStatuses(InitialWrite)).Some? {
        return [b(WriteStatuses(InitialWrite)).value];
      }
      ledger := st0;
      var a := CreateMissingPipelineRuns(st0, scs, b);
      ghost var sup := SupersedeAfterRun(snapshot, peers, runs, b);
      if !snapshot.pushEvent {
        var _ := CheckAndCancelOldSnapshotsPipelineRun(b);
      }
      assert peers == sup.peers && runs == sup.runs;
      errors := a.errors;
      match b(WriteStatuses(FinalWrite)) {
        case Some(we) =>
          errors := errors + [we];
        case None =>
          ledger := a.statuses;
      }
    }

    /** Once the tests have finished nothing is done. Otherwise, when the
        scenarios can be listed, every one of them gets a run (see above); an
        operation that goes on afterwards leaves every scenario settled in
        the ledger, with a run recorded or marked invalid because its
        creation was rejected. Then a snapshot with no required scenario is
        marked passed; failing to list the required scenarios marks the
        snapshot's integration status as errored and stops. */
    method EnsureIntegrationPipelineRunsExist(scenarios: Result<seq<Scenario>>, required: Result<nat>, b: Backend)
      returns (outcome: Outcome)
      requires Valid()
      modifies this`ledger, this`runs, this`peers, this`inProgress, this`integrationError, this`passed
      ensures Valid()
      ensures testsFinished ==> outcome == Continue && unchanged(this)
      ensures !testsFinished && scenarios.Err? ==>
                ledger == old(ledger) && runs == old(runs) && peers == old(peers) && inProgress == old(inProgress)
      ensures !testsFinished && scenarios.Ok? ==>
                InitializedFrom(snapshot, scenarios.value, b, old(ledger), old(runs), old(peers), old(inProgress),
                                ledger, runs, peers, inProgress)
      ensures !testsFinished && scenarios.Ok? && InitErrors(old(ledger), scenarios.value, snapshot, b, |old(runs)|) != [] ==>
                && outcome == Requeue(InitErrors(old(ledger), scenarios.value, snapshot, b, |old(runs)|))
                && passed == old(passed) && integrationError == old(integrationError)
      ensures !testsFinished && (scenarios.Err? || InitErrors(old(ledger), scenarios.value, snapshot, b, |old(runs)|) == []) ==>
                PassedTail(required, b, old(passed), old(integrationError), outcome, passed, integrationError)
      ensures !testsFinished && scenarios.Ok? && !outcome.Requeue? ==>
                forall i :: 0 <= i < |scenarios.value| ==> Settled(ledger, scenarios.value[i], b)
      ensures !testsFinished && outcome == Continue ==> required.Ok?
      ensures !testsFinished && required.Ok? && required.value == 0 && outcome == Continue ==> passed
      ensures outcome == Stop ==> !testsFinished && required.Err? && integrationError
    {
      if testsFinished {
        return Continue;
      }
      if scenarios.Ok? {
        var errors := InitializeAndCreatePipelineRuns(scenarios.value, b);
        if errors != [] {
          return Requeue(errors);
        }
        assert b(ReadStatuses).None? && b(WriteStatuses(InitialWrite)).None?;
        CreateRunsSettles(InitStatuses(old(ledger), ScenarioNames(scenarios.value)), scenarios.value, snapshot, b, |old(runs)|);
      }
      outcome := MarkPassedIfNothingRequired(required, b);
    }

    /** The tail of the operation: failing to list the required scenarios
        marks the integration status as errored and stops (requeues when
        that mark cannot be written); a snapshot with no required scenario
        that is not yet passed is marked passed. */
    method MarkPassedIfNothingRequired(required: Result<nat>, b: Backend) returns (outcome: Outcome)
      modifies this`integrationError, this`passed
      ensures PassedTail(required, b, old(passed), old(integrationError), outcome, passed, integrationError)
    {
      match required {
        case Err(_) =>
          match b(PatchIntegrationStatus) {
            case Some(pe) =>
              return Requeue([pe]);
            case None =>
              integrationError := true;
              return Stop;
          }
        case Ok(n) =>
          if n == 0 && !passed {
            match b(MarkPassed) {
              case Some(me) =>
                return Requeue([me]);
              case None =>
                passed := true;
            }
          }
          return Continue;
      }
    }

    // -------------------------------------------------------------------
    // Re-runs requested with the rerun label

    /** Re-runs one scenario whose entry was reset (`skipped` is the skip
        count so far): a run is created, older snapshots are superseded with
        their errors only logged, and the run is recorded in the ledger as in
        progress. A creation failure goes through the error handler and ends
        the loop. */
    method RerunIntegrationPipelinerunForScenario(sc: Scenario, local: Ledger, b: Backend, ghost skipped: nat)
      returns (stop: Option<Outcome>, local': Ledger)
      requires Valid()
      modifies this`ledger, this`runs, this`peers, this`inProgress
      ensures Valid()
      ensures var p := RerunScenario(RerunState(local, old(peers), old(runs), old(inProgress), skipped), sc, snapshot, b);
        && p.s == RerunState(local', peers, runs, inProgress, skipped)
        && (p.Going? <==> stop.None?)
        && (p.Going? ==> ledger == old(ledger))
        && HaltedAs(p, stop, old(ledger), ledger, local', b)
    {
      var r := CreateIntegrationPipelineRun(sc, b);
      match r {
        case Err(e) =>
          var outcome;
          outcome, local' := HandlePipelineCreationError(e, sc.name, local, b);
          return Some(outcome), local';
        case Ok(run) =>
          ghost var sup := SupersedeAfterRun(snapshot, peers, runs, b);
          if !snapshot.pushEvent {
            var _ := CheckAndCancelOldSnapshotsPipelineRun(b);
          }
          assert peers == sup.peers && runs == sup.runs;
          local' := UpdateTestStatusIfChanged(local, sc.name, InProgress, RerunCreatedMessage(run.name));
          local' := RecordRunName(local', sc.name, run.name);
          assert local' == CreatedLedger(local, sc.name, run.name);
          return None, local';
      }
    }

    /** The loop over the requested scenarios: a scenario pending or in
        progress is skipped and counted, any other is reset and re-run; the
        loop ends at the first scenario whose run cannot be created. The new
        state is the one `RerunUpTo` gives (what that does to the ledger is
        stated by `RerunLedger`). */
    method HandleScenarioReruns(scs: seq<Scenario>, st: Ledger, b: Backend)
      returns (skipped: nat, stop: Option<Outcome>, local: Ledger)
      requires Valid()
      modifies this`ledger, this`runs, this`peers, this`inProgress
      ensures Valid()
      ensures var p := RerunUpTo(RerunState(st, old(peers), old(runs), old(inProgress), 0), scs, snapshot, b, |scs|);
        && p.s == RerunState(local, peers, runs, inProgress, p.s.skipped)
        && (p.Going? <==> stop.None?)
        && (p.Going? ==> skipped == p.s.skipped && ledger == old(ledger))
        && HaltedAs(p, stop, old(ledger), ledger, local, b)
    {
      ghost var s0 := RerunState(st, peers, runs, inProgress, 0);
      skipped, stop, local := 0, None, st;
      var i := 0;
      while i < |scs|
        invariant 0 <= i <= |scs|
        invariant Valid()
        invariant RerunUpTo(s0, scs, snapshot, b, i) == Going(RerunState(local, peers, runs, inProgress, skipped))
        invariant ledger == old(ledger) && stop.None?
      {
        ghost var si := RerunState(local, peers, runs, inProgress, skipped);
        assert RerunUpTo(s0, scs, snapshot, b, i + 1) == RerunStep(si, scs[i], snapshot, b);
        stop, local, skipped := HandleScenario(scs[i], local, skipped, b);
        if stop.Some? {
          RerunUpToStops(s0, scs, snapshot, b, i + 1, |scs|);
          return;
        }
        i := i + 1;
      }
    }

    /** One iteration of the loop: a scenario pending or in progress is
        skipped and counted; any other is reset and re-run. The state reached
        is the one `RerunStep` gives. */
    method HandleScenario(sc: Scenario, local: Ledger, skipped: nat, b: Backend)
      returns (stop: Option<Outcome>, local': Ledger, skipped': nat)
      requires Valid()
      modifies this`ledger, this`runs, this`peers, this`inProgress
      ensures Valid()
      ensures var p := RerunStep(RerunState(local, old(peers), old(runs), old(inProgress), skipped), sc, snapshot, b);
        && p.s == RerunState(local', peers, runs, inProgress, skipped')
        && (p.Going? <==> stop.None?)
        && (p.Going? ==> ledger == old(ledger))
        && HaltedAs(p, stop, old(ledger), ledger, local', b)
    {
      if SkipsRerun(local, sc.name) {
        return None, local, skipped + 1;
      }
      stop, local' := RerunIntegrationPipelinerunForScenario(sc, ResetStatus(local, sc.name), b, skipped);
      skipped' := skipped;
    }

    /** Removes the rerun label; then, unless every requested scenario was
        skipped, writes the ledger and resets the snapshot's conditions, which
        clears its passed mark. The first failure is returned. */
    method CleanupRerunLabelAndUpdateStatus(skip: nat, total: nat, local: Ledger, b: Backend) returns (err: Option<ErrorKind>)
      modifies this`rerunLabel, this`ledger, this`passed
      ensures err == CleanupError(skip, total, b)
      ensures b(RemoveRerunLabel).Some? ==> err == b(RemoveRerunLabel) && unchanged(this)
      ensures b(RemoveRerunLabel).None? ==> rerunLabel.None?
      ensures b(RemoveRerunLabel).None? && skip == total ==> err.None? && ledger == old(ledger) && passed == old(passed)
      ensures b(RemoveRerunLabel).None? && skip != total && b(WriteStatuses(RerunWrite)).Some? ==>
                err == b(WriteStatuses(RerunWrite)) && ledger == old(ledger) && passed == old(passed)
      ensures b(RemoveRerunLabel).None? && skip != total && b(WriteStatuses(RerunWrite)).None? ==>
                && ledger == local
                && (if b(ResetConditions).Some? then err == b(ResetConditions) && passed == old(passed)
                    else err.None? && !passed)
    {
      if b(RemoveRerunLabel).Some? {
        return b(RemoveRerunLabel);
      }
      rerunLabel := None;
      if skip == total {
        return None;
      }
      if b(WriteStatuses(RerunWrite)).Some? {
        return b(WriteStatuses(RerunWrite));
      }
      ledger := local;
      if b(ResetConditions).Some? {
        return b(ResetConditions);
      }
      passed := false;
      return None;
    }

    /** The scenarios the label asks for: with "all", every scenario that
        applies to the snapshot (no scenario at all ends the operation with
        the label left in place); otherwise the scenario it names, and when
        that one does not exist the label is removed and the operation ends.
        A failure to load requeues. */
    method GetScenariosToRerun(runLabel: string, all: Result<Option<seq<Scenario>>>, named: Result<Scenario>, b: Backend)
      returns (scs: Option<seq<Scenario>>, outcome: Outcome)
      modifies this`rerunLabel
      ensures scs == RequestedScenarios(runLabel, all, named)
      ensures outcome == LookupOutcome(runLabel, all, named, b)
      ensures rerunLabel == if runLabel != RerunAll && named == Err(NotFound) && b(RemoveRerunLabel).None? then None
                            else old(rerunLabel)
      ensures scs.Some? ==> outcome == Continue && rerunLabel == old(rerunLabel)
      ensures runLabel == RerunAll ==> rerunLabel == old(rerunLabel)
      ensures runLabel == RerunAll && all.Err? ==> outcome == Requeue([all.error])
      ensures runLabel == RerunAll && all.Ok? ==> outcome == Continue
      ensures runLabel != RerunAll && named.Err? && named.error != NotFound ==>
                outcome == Requeue([named.error]) && rerunLabel == old(rerunLabel)
      ensures runLabel != RerunAll && named == Err(NotFound) ==>
                if b(RemoveRerunLabel).Some? then outcome == Requeue([b(RemoveRerunLabel).value]) && rerunLabel == old(rerunLabel)
                else outcome == Continue && rerunLabel.None?
    {
      if runLabel == RerunAll {
        match all {
          case Err(e) =>
            return None, Requeue([e]);
          case Ok(found) =>
            return found, Continue;
        }
      }
      match named {
        case Err(e) =>
          if e == NotFound {
            if b(RemoveRerunLabel).Some? {
              return None, Requeue([b(RemoveRerunLabel).value]);
            }
            rerunLabel := None;
            return None, Continue;
          }
          return None, Requeue([e]);
        case Ok(sc) =>
          return Some([sc]), Continue;
      }
    }

    /** Re-runs the scenarios found for the rerun label: the ledger is read,
        the scenarios are re-run (see above) and, when that goes through,
        the label is removed and the ledger written back. A validation
        rejection stops with the label left in place; any other failure
        requeues. */
    method RerunRequestedScenarios(scs: seq<Scenario>, b: Backend) returns (outcome: Outcome)
      requires Valid()
      modifies this`rerunLabel, this`ledger, this`runs, this`peers, this`inProgress, this`passed
      ensures Valid()
      ensures b(ReadStatuses).Some? ==> outcome == Requeue([b(ReadStatuses).value]) && unchanged(this)
      ensures b(ReadStatuses).None? ==>
                ReranAs(scs, b, RerunState(old(ledger), old(peers), old(runs), old(inProgress), 0), old(rerunLabel), old(passed), outcome)
      ensures outcome.Stop? ==> rerunLabel == old(rerunLabel)
      ensures outcome == Continue ==> rerunLabel.None?
      ensures outcome == Continue && DistinctScenarioNames(scs) ==>
                RerunEffect(snapshot, scs, old(ledger), ledger, old(runs), runs, old(passed), passed)
    {
      if b(ReadStatuses).Some? {
        return Requeue([b(ReadStatuses).value]);
      }
      ghost var s0 := RerunState(ledger, peers, runs, inProgress, 0);
      var skipped, stop, local := HandleScenarioReruns(scs, ledger, b);
      if stop.Some? {
        return stop.value;
      }
      var err := CleanupRerunLabelAndUpdateStatus(skipped, |scs|, local, b);
      if err.Some? {
        return Requeue([err.value]);
      }
      if DistinctScenarioNames(scs) {
        RerunWentThrough(snapshot, scs, s0, b, ledger, old(passed), passed);
      }
      return Continue;
    }

    /** Re-runs the scenarios the rerun label asks for. Without the label
        nothing happens. A re-run that goes through removes the label; when
        some requested scenario was not skipped, the ledger written back has
        every scenario that was not pending or in progress in progress with
        a new run, keeps the entries of the skipped ones, and the snapshot is
        no longer marked passed. A validation rejection stops with the label
        left in place. */
    method EnsureRerunPipelineRunsExist(all: Result<Option<seq<Scenario>>>, named: Result<Scenario>, b: Backend)
      returns (outcome: Outcome)
      requires Valid()
      modifies this`rerunLabel, this`ledger, this`runs, this`peers, this`inProgress, this`passed
      ensures Valid()
      ensures old(rerunLabel).None? ==> outcome == Continue && unchanged(this)
      ensures old(rerunLabel).Some? && RequestedScenarios(old(rerunLabel).value, all, named).None? ==>
                && outcome == LookupOutcome(old(rerunLabel).value, all, named, b)
                && rerunLabel == (if old(rerunLabel).value != RerunAll && named == Err(NotFound) && b(RemoveRerunLabel).None?
                                  then None else old(rerunLabel))
                && ledger == old(ledger) && runs == old(runs) && peers == old(peers)
                && inProgress == old(inProgress) && passed == old(passed)
      ensures old(rerunLabel).Some? && RequestedScenarios(old(rerunLabel).value, all, named).Some? ==>
                var scs := RequestedScenarios(old(rerunLabel).value, all, named).value;
                && (b(ReadStatuses).Some? ==> outcome == Requeue([b(ReadStatuses).value]) && unchanged(this))
                && (b(ReadStatuses).None? ==>
                      ReranAs(scs, b, RerunState(old(ledger), old(peers), old(runs), old(inProgress), 0),
                              old(rerunLabel), old(passed), outcome))
      ensures outcome.Stop? ==> rerunLabel == old(rerunLabel)
      ensures old(rerunLabel).Some? && outcome == Continue ==>
                rerunLabel.None? || (old(rerunLabel).value == RerunAll && all == Ok(None))
      ensures old(rerunLabel).Some? && outcome == Continue && RequestedScenarios(old(rerunLabel).value, all, named).Some? ==>
                var scs := RequestedScenarios(old(rerunLabel).value, all, named).value;
                DistinctScenarioNames(scs) ==> RerunEffect(snapshot, scs, old(ledger), ledger, old(runs), runs, old(passed), passed)
    {
      if rerunLabel.None? {
        return Continue;
      }
      var scs;
      scs, outcome := GetScenariosToRerun(rerunLabel.value, all, named, b);
      if scs.Some? {
        outcome := RerunRequestedScenarios(scs.value, b);
      }
    }

    // -------------------------------------------------------------------
    // The global candidate list

    /** Sets the last promoted image of component `i` to the entry's image;
        an image that is already the entry's is not written again. */
    method UpdateComponentLastPromotedImage(i: nat, entry: SnapshotComponent, b: Backend) returns (err: Option<ErrorKind>)
      requires i < |candidates.components|
      modifies this`candidates
      ensures PromoteProgress(candidates, err) == PromoteImage(old(candidates), i, entry, b)
    {
      var comp := candidates.components[i];
      if comp.lastPromotedImage == entry.containerImage {
        return None;
      }
      var call := PatchLastPromotedImage(comp.name);
      candidates := candidates.(writes := candidates.writes + [call]);
      if b(call).Some? {
        return b(call);
      }
      candidates := candidates.(components := candidates.components[i := comp.(lastPromotedImage := entry.containerImage)]);
      return None;
    }

    /** Sets the last built commit of component `i` to the entry's revision,
        when the entry has a git source with a revision. */
    method UpdateComponentSource(i: nat, entry: SnapshotComponent, b: Backend) returns (err: Option<ErrorKind>)
      requires i < |candidates.components|
      modifies this`candidates
      ensures PromoteProgress(candidates, err) == RecordCommit(old(candidates), i, entry, b)
    {
      if entry.source.Some? && entry.source.value.revision != "" {
        var comp := candidates.components[i];
        var call := PatchLastBuiltCommit(comp.name);
        candidates := candidates.(writes := candidates.writes + [call]);
        if b(call).Some? {
          return b(call);
        }
        candidates := candidates.(components := candidates.components[i := comp.(lastBuiltCommit := entry.source.value.revision)]);
      }
      return None;
    }

    /** A component push snapshot: the first entry for component `i` is
        promoted (image, then commit) and the loop ends there. */
    method PromoteComponentSnapshot(i: nat, b: Backend) returns (err: Option<ErrorKind>)
      requires i < |candidates.components|
      modifies this`candidates
      ensures PromoteProgress(candidates, err) == PromoteComponentEntry(old(candidates), i, snapshot.components, b)
    {
      var entries := snapshot.components;
      var name := candidates.components[i].name;
      var k := 0;
      while k < |entries|
        invariant 0 <= k <= |entries|
        invariant candidates == old(candidates)
        invariant forall m :: 0 <= m < k ==> entries[m].name != name
      {
        var entry := entries[k];
        if entry.name == name {
          assert FirstNamed(entries, EntryName, name) == Some(k);
          err := UpdateComponentLastPromotedImage(i, entry, b);
          if err.Some? {
            return;
          }
          err := UpdateComponentSource(i, entry, b);
          return;
        }
        k := k + 1;
      }
      return None;
    }

    /** An override snapshot: every entry whose component exists and whose
        image has a valid digest is promoted; a component that does not
        exist is skipped, any other failure ends the loop. */
    method PromoteOverrideSnapshot(b: Backend) returns (err: Option<ErrorKind>)
      modifies this`candidates
      ensures PromoteProgress(candidates, err) == OverrideUpTo(old(candidates), snapshot.components, b, |snapshot.components|)
    {
      var entries := snapshot.components;
      var j := 0;
      while j < |entries|
        invariant 0 <= j <= |entries|
        invariant OverrideUpTo(old(candidates), entries, b, j) == PromoteProgress(candidates, None)
      {
        var entry := entries[j];
        match FetchComponent(candidates.components, entry.name, b) {
          case Err(e) =>
            if e != NotFound {
              OverrideUpToStops(old(candidates), entries, b, j + 1, |entries|);
              return Some(e);
            }
          case Ok(i) =>
            if ValidImageDigest(entry.containerImage) {
              err := UpdateComponentLastPromotedImage(i, entry, b);
              if err.None? {
                err := UpdateComponentSource(i, entry, b);
              }
              if err.Some? {
                OverrideUpToStops(old(candidates), entries, b, j + 1, |entries|);
                return;
              }
            }
        }
        j := j + 1;
      }
      return None;
    }

    /** Promotes the images of a component push snapshot or an override
        snapshot to the global candidate list, once: a snapshot already
        marked as added, or of another kind, changes nothing. A component
        that cannot be found ends the operation quietly; any failure
        requeues; otherwise the snapshot is marked as added. */
    method EnsureGlobalCandidateImageUpdated(b: Backend) returns (outcome: Outcome)
      modifies this`candidates, this`addedToCandidates
      ensures outcome != Stop
      ensures (!(snapshot.kind == ComponentKind && snapshot.pushEvent) && snapshot.kind != OverrideKind) || old(addedToCandidates) ==>
                outcome == Continue && unchanged(this)
      ensures snapshot.kind == ComponentKind && snapshot.pushEvent && !old(addedToCandidates) ==>
                match FetchComponent(old(candidates).components, snapshot.componentName, b)
                case Err(e) => unchanged(this) && outcome == (if e == NotFound then Continue else Requeue([e]))
                case Ok(i) =>
                  var p := PromoteComponentEntry(old(candidates), i, snapshot.components, b);
                  candidates == p.c && MarkedAdded(p.error, outcome, old(addedToCandidates), addedToCandidates, b)
      ensures snapshot.kind == OverrideKind && !old(addedToCandidates) ==>
                var p := OverrideUpTo(old(candidates), snapshot.components, b, |snapshot.components|);
                candidates == p.c && MarkedAdded(p.error, outcome, old(addedToCandidates), addedToCandidates, b)
    {
      if !(snapshot.kind == ComponentKind && snapshot.pushEvent) && snapshot.kind != OverrideKind {
        return Continue;
      }
      if addedToCandidates {
        return Continue;
      }
      var err: Option<ErrorKind>;
      if snapshot.kind == ComponentKind {
        match FetchComponent(candidates.components, snapshot.componentName, b) {
          case Err(e) =>
            if e == NotFound {
              return Continue;
            }
            return Requeue([e]);
          case Ok(i) =>
            err := PromoteComponentSnapshot(i, b);
        }
      } else {
        err := PromoteOverrideSnapshot(b);
      }
      if err.Some? {
        return Requeue([err.value]);
      }
      if b(MarkAddedToCandidates).Some? {
        return Requeue([b(MarkAddedToCandidates).value]);
      }
      addedToCandidates := true;
      return Continue;
    }

    // -------------------------------------------------------------------
    // Releases

    /** Lists the snapshot's releases, then creates a release for every
        plan that has none, marking each new one automated. The first
        failure ends the loop. */
    method CreateMissingReleasesForReleasePlans(plans: seq<string>, b: Backend) returns (err: Option<ErrorKind>)
      modifies this`releases
      ensures ReleaseProgress(releases, err) == CreateMissingReleases(old(releases), plans, b)
    {
      if b(ListReleases).Some? {
        return b(ListReleases);
      }
      var j := 0;
      while j < |plans|
        invariant 0 <= j <= |plans|
        invariant ReleasesUpTo(old(releases), plans, b, j) == ReleaseProgress(releases, None)
      {
        var plan := plans[j];
        if plan !in releases {
          var e := b(CreateRelease(plan));
          if e.Some? {
            ReleasesUpToStops(old(releases), plans, b, j + 1, |plans|);
            return e;
          }
          releases := releases[plan := false];
          e := b(MarkAutomated(plan));
          if e.Some? {
            ReleasesUpToStops(old(releases), plans, b, j + 1, |plans|);
            return e;
          }
          releases := releases[plan := true];
        }
        j := j + 1;
      }
      return None;
    }

    /** Patches the snapshot's integration status as errored after a
        release failure, then requeues while the snapshot is young. */
    method ReportReleaseError(e: ErrorKind, young: bool, b: Backend) returns (outcome: Outcome)
      modifies this`integrationError
      ensures outcome == ReleaseErrorOutcome(e, young, b)
      ensures integrationError == (old(integrationError) || b(PatchIntegrationStatus).None?)
    {
      if b(PatchIntegrationStatus).Some? {
        return RequeueIfYoungerThanThreshold(young, [e, b(PatchIntegrationStatus).value]);
      }
      integrationError := true;
      return RequeueIfYoungerThanThreshold(young, [e]);
    }

    /** Releases a snapshot that can be promoted, once: a snapshot already
        marked auto-released, or one that cannot be promoted, changes
        nothing. The missing releases of the auto-release plans are created
        (see above); a failure marks the integration status as errored and
        requeues only while the snapshot is young. Otherwise the snapshot is
        marked auto-released, also when there is no plan. */
    method EnsureAllReleasesExist(promotable: bool, plans: Result<seq<string>>, young: bool, b: Backend)
      returns (outcome: Outcome)
      modifies this`releases, this`integrationError, this`autoReleased
      ensures outcome != Stop
      ensures !promotable || old(autoReleased) ==> outcome == Continue && unchanged(this)
      ensures promotable && !old(autoReleased) && plans.Err? ==>
                && outcome == ReleaseErrorOutcome(plans.error, young, b)
                && releases == old(releases) && !autoReleased
                && integrationError == (old(integrationError) || b(PatchIntegrationStatus).None?)
      ensures promotable && !old(autoReleased) && plans.Ok? ==>
                var p := if |plans.value| > 0 then CreateMissingReleases(old(releases), plans.value, b)
                         else ReleaseProgress(old(releases), None);
                && releases == p.releases
                && (p.error.Some? ==>
                      && outcome == ReleaseErrorOutcome(p.error.value, young, b) && !autoReleased
                      && integrationError == (old(integrationError) || b(PatchIntegrationStatus).None?))
                && (p.error.None? ==> integrationError == old(integrationError))
                && (p.error.None? ==>
                      if b(MarkAutoReleased).Some? then outcome == Requeue([b(MarkAutoReleased).value]) && !autoReleased
                      else outcome == Continue && autoReleased)
    {
      if !promotable || autoReleased {
        return Continue;
      }
      match plans {
        case Err(e) =>
          outcome := ReportReleaseError(e, young, b);
          return;
        case Ok(ps) =>
          if |ps| > 0 {
            var err := CreateMissingReleasesForReleasePlans(ps, b);
            if err.Some? {
              outcome := ReportReleaseError(err.value, young, b);
              return;
            }
          }
      }
      if b(MarkAutoReleased).Some? {
        return Requeue([b(MarkAutoReleased).value]);
      }
      autoReleased := true;
      return Continue;
    }

    // -------------------------------------------------------------------
    // Validation of an override snapshot

    /** Checks every entry of the snapshot, collecting what is wrong with
        each: a component that does not exist, an image without a valid
        digest, no git source. A failure other than NotFound while loading a
        component ends the loop. */
    method ValidateOverrideComponents(b: Backend) returns (r: Result<seq<Problem>>)
      ensures r == ValidateUpTo(candidates.components, snapshot.components, b, |snapshot.components|, false)
    {
      var entries := snapshot.components;
      ghost var cs := candidates.components;
      r := Ok([]);
      var j := 0;
      while j < |entries| && r.Ok?
        invariant 0 <= j <= |entries|
        invariant r == ValidateUpTo(cs, entries, b, j, false)
      {
        r := CheckNextEntry(entries, j, r.value, b);
        j := j + 1;
      }
      if r.Err? {
        ValidateUpToStops(cs, entries, b, j, |entries|, false);
      }
    }

    /** One iteration of the validation loop: the problems of entry `j`
        are added to those found so far, or its error ends the loop. */
    method CheckNextEntry(entries: seq<SnapshotComponent>, j: nat, ps: seq<Problem>, b: Backend) returns (r: Result<seq<Problem>>)
      requires j < |entries| && ValidateUpTo(candidates.components, entries, b, j, false) == Ok(ps)
      ensures r == ValidateUpTo(candidates.components, entries, b, j + 1, false)
    {
      var more := CheckOverrideEntry(entries[j], b);
      ValidateUpToNext(candidates.components, entries, b, j, ps, more);
      r := if more.Err? then Err(more.error) else Ok(ps + more.value);
    }

    /** What is wrong with one entry: a component that does not exist, an
        image without a valid digest, no git source; a failure other than
        NotFound while loading the component is returned as the error. */
    method CheckOverrideEntry(entry: SnapshotComponent, b: Backend) returns (r: Result<seq<Problem>>)
      ensures r == ComponentProblems(candidates.components, entry, b)
    {
      var missing: seq<Problem> := [];
      match FetchComponent(candidates.components, entry.name, b) {
        case Err(e) =>
          if e != NotFound {
            return Err(e);
          }
          missing := [MissingComponent];
        case Ok(_) =>
      }
      var more := missing;
      if !ValidImageDigest(entry.containerImage) {
        more := more + [InvalidDigest];
      }
      var digest := more;
      if !HaveGitSource(entry) {
        more := more + [NoGitSource];
      }
      assert digest == missing + (if ValidImageDigest(entry.containerImage) then [] else [InvalidDigest]);
      assert more == digest + (if HaveGitSource(entry) then [] else [NoGitSource]);
      return Ok(more);
    }

    /** An override snapshot not yet marked invalid is marked invalid when
        any of its entries has a problem; a loading failure or a failed mark
        requeues. When the operation goes on, the snapshot is marked invalid
        exactly when some entry's component cannot be loaded, its digest is
        invalid or it has no git source. */
    method EnsureOverrideSnapshotValid(b: Backend) returns (outcome: Outcome)
      modifies this`markedInvalid
      ensures outcome != Stop
      ensures snapshot.kind != OverrideKind || old(markedInvalid) ==> outcome == Continue && unchanged(this)
      ensures snapshot.kind == OverrideKind && !old(markedInvalid) ==>
                var r := ValidateUpTo(candidates.components, snapshot.components, b, |snapshot.components|, false);
                && (r.Err? ==> outcome == Requeue([r.error]) && !markedInvalid)
                && (r.Ok? && r.value == [] ==> outcome == Continue && !markedInvalid)
                && (r.Ok? && r.value != [] ==>
                      if b(MarkInvalid).Some? then outcome == Requeue([b(MarkInvalid).value]) && !markedInvalid
                      else outcome == Continue && markedInvalid)
      ensures snapshot.kind == OverrideKind && !old(markedInvalid) && outcome == Continue ==>
                (markedInvalid <==> exists e :: 0 <= e < |snapshot.components| && !EntryValid(candidates.components, snapshot.components[e], b))
    {
      if snapshot.kind != OverrideKind || markedInvalid {
        return Continue;
      }
      var r := ValidateOverrideComponents(b);
      if r.Err? {
        return Requeue([r.error]);
      }
      ValidateUpToNoProblemIff(candidates.components, snapshot.components, b, |snapshot.components|);
      if r.value != [] {
        if b(MarkInvalid).Some? {
          return Requeue([b(MarkInvalid).value]);
        }
        markedInvalid := true;
      }
      return Continue;
    }

    // -------------------------------------------------------------------
    // Group snapshots of a pull request group

    /** The application's components as loaded for the group. */
    function AppComponents(b: Backend): Result<seq<Component>>
      reads this
    {
      if b(ListAppComponents).Some? then Err(b(ListAppComponents).value) else Ok(candidates.components)
    }

    /** Records a note about the pull request group on this snapshot. */
    method AnnotateSnapshot(note: GroupNote, b: Backend) returns (outcome: Outcome)
      modifies this`notes
      ensures b(Annotate).Some? ==> outcome == Requeue([b(Annotate).value]) && notes == old(notes)
      ensures b(Annotate).None? ==> outcome == Continue && notes == old(notes)[snapshot.name := note]
    {
      if b(Annotate).Some? {
        return Requeue([b(Annotate).value]);
      }
      notes := notes[snapshot.name := note];
      return Continue;
    }

    /** Whether every build of the group has been processed, looking at the
        builds in order: the first build that is the latest of its
        component and still running or failed is noted on this snapshot; one
        that succeeded without a component snapshot holds the group back
        without a note. */
    method HaveAllPipelineRunProcessedForPrGroup(builds: Result<seq<BuildRun>>, b: Backend) returns (r: Result<bool>)
      modifies this`notes
      ensures builds.Err? ==> r == Err(builds.error) && notes == old(notes)
      ensures builds.Ok? ==>
                var blk := FirstBlocker(builds.value, snapshot.buildPipelineRun, |builds.value|);
                && (blk.None? ==> r == Ok(true) && notes == old(notes))
                && (blk.Some? && blk.value.NoComponentSnapshot? ==> r == Ok(false) && notes == old(notes))
                && (blk.Some? && !blk.value.NoComponentSnapshot? ==>
                      if b(Annotate).Some? then r == Err(b(Annotate).value) && notes == old(notes)
                      else r == Ok(false) && notes == old(notes)[snapshot.name := Held(blk.value)])
    {
      if builds.Err? {
        return Err(builds.error);
      }
      var bs := builds.value;
      var own := snapshot.buildPipelineRun;
      var i := 0;
      while i < |bs|
        invariant 0 <= i <= |bs|
        invariant FirstBlocker(bs, own, i).None?
      {
        var run := bs[i];
        assert FirstBlocker(bs, own, i + 1) == BlockerOf(run, bs, own);
        if IsLatestInComponent(run, bs) {
          if !run.finished || !run.succeeded {
            FirstBlockerStops(bs, own, i + 1, |bs|);
            var blocker := if !run.finished then StillRunning(run.name) else BuildFailed(run.name);
            var outcome := AnnotateSnapshot(Held(blocker), b);
            if outcome.Requeue? {
              return Err(b(Annotate).value);
            }
            return Ok(false);
          }
          if !run.snapshotAnnotated && own != Some(run.name) {
            FirstBlockerStops(bs, own, i + 1, |bs|);
            return Ok(false);
          }
        }
        i := i + 1;
      }
      return Ok(true);
    }

    /** The application's components in order: a component of the group
        with an open pull request contributes the entry of its open-PR
        snapshot and is recorded; any other contributes its global candidate
        entry when that has a git source and a valid promoted image. */
    method SelectGroupSources(cs: seq<Component>, toCheck: seq<string>, openPR: OpenPRLookup) returns (r: Result<Selection>)
      ensures r == SelectSources(cs, toCheck, openPR)
    {
      var components: seq<SnapshotComponent> := [];
      var infos: seq<ComponentSnapshotInfo> := [];
      var i := 0;
      while i < |cs|
        invariant 0 <= i <= |cs|
        invariant SelectSources(cs[..i], toCheck, openPR) == Ok(Selection(components, infos))
      {
        var c := cs[i];
        assert cs[..i + 1][..i] == cs[..i];
        var fallback := true;
        if c.name in toCheck {
          match openPR(c.name) {
            case Err(e) =>
              SelectSourcesStops(cs, toCheck, openPR, i + 1, |cs|);
              assert cs[..|cs|] == cs;
              return Err(e);
            case Ok(found) =>
              if found.Some? {
                infos := infos + [ComponentSnapshotInfo(c.name, found.value.snapshot, found.value.buildPipelineRun)];
                components := components + [MatchingEntry(found.value, c.name)];
                fallback := false;
              }
          }
        }
        if fallback {
          var source := CandidateSource(c);
          if source.Some? && c.lastPromotedImage != "" && ValidImageDigest(c.lastPromotedImage) {
            components := components + [SnapshotComponent(c.name, c.lastPromotedImage, source)];
          }
        }
        i := i + 1;
      }
      assert cs[..|cs|] == cs;
      return Ok(Selection(components, infos));
    }

    /** Prepares the group snapshot: the components of the group are
        listed; with fewer than two there is nothing to do; otherwise each
        application component's source is chosen (see above), and a group
        snapshot is built when at least two come from open pull requests. */
    method PrepareGroupSnapshot(toCheck: Result<seq<string>>, openPR: OpenPRLookup, b: Backend) returns (r: Result<Prepared>)
      ensures r == PreparedGroup(toCheck, AppComponents(b), openPR)
    {
      if toCheck.Err? {
        return Err(toCheck.error);
      }
      var names := toCheck.value;
      if |names| < 2 {
        return Ok(Prepared(None, []));
      }
      if b(ListAppComponents).Some? {
        return Err(b(ListAppComponents).value);
      }
      var sel := SelectGroupSources(candidates.components, names, openPR);
      if sel.Err? {
        return Err(sel.error);
      }
      if |sel.value.infos| < 2 {
        return Ok(Prepared(None, sel.value.infos));
      }
      return Ok(Prepared(Some(GroupSnapshot(sel.value.components, sel.value.infos)), sel.value.infos));
    }

    /** Creates the prepared group snapshot and notes the outcome on every
        component snapshot of the group: a forbidden creation is noted as a
        failure and stops; any other failure requeues. */
    method CreateGroupSnapshotAndNotify(g: GroupSnapshot, infos: seq<ComponentSnapshotInfo>, b: Backend) returns (outcome: Outcome)
      modifies this`notes, this`groupSnapshots
      ensures CreatedAndNotified(g, infos, old(notes), old(groupSnapshots), outcome, b)
    {
      match b(CreateGroupSnapshot) {
        case Some(e) =>
          if e != Forbidden {
            return Requeue([e]);
          }
          if b(Notify).Some? {
            return Requeue([b(Notify).value]);
          }
          notes := NotifyAll(notes, infos, GroupCreationFailed);
          return Stop;
        case None =>
          groupSnapshots := groupSnapshots + [g];
          if b(Notify).Some? {
            return Requeue([b(Notify).value]);
          }
          notes := NotifyAll(notes, infos, GroupCreated(|groupSnapshots| - 1));
          return Continue;
      }
    }

    /** Creates the group snapshot of a component snapshot's pull request
        group, once per component snapshot (any note on it means the group
        was processed). Snapshots from push events and snapshots of other
        kinds change nothing. A snapshot without group information is noted
        so. The group snapshot is created only when every build of the
        group has been processed and at least two components come from open
        pull requests; otherwise the reason is noted. */
    method EnsureGroupSnapshotExist(toCheck: Result<seq<string>>, openPR: OpenPRLookup, builds: Result<seq<BuildRun>>, b: Backend)
      returns (outcome: Outcome)
      modifies this`notes, this`groupSnapshots
      ensures snapshot.pushEvent || snapshot.kind != ComponentKind || snapshot.name in old(notes) ==>
                outcome == Continue && unchanged(this)
      ensures groupSnapshots == old(groupSnapshots) || GroupCreatedFor(toCheck, openPR, builds, b)
      ensures GroupCreatedFor(toCheck, openPR, builds, b) && b(CreateGroupSnapshot).None? && snapshot.name !in old(notes) ==>
                groupSnapshots == old(groupSnapshots) + [PreparedGroup(toCheck, AppComponents(b), openPR).value.group.value]
      ensures GroupCreatedFor(toCheck, openPR, builds, b) && snapshot.name !in old(notes) ==>
                var prep := PreparedGroup(toCheck, AppComponents(b), openPR).value;
                CreatedAndNotified(prep.group.value, prep.infos, old(notes), old(groupSnapshots), outcome, b)
      ensures outcome == Stop ==>
                && GroupCreatedFor(toCheck, openPR, builds, b) && b(CreateGroupSnapshot) == Some(Forbidden)
                && groupSnapshots == old(groupSnapshots)
                && notes == NotifyAll(old(notes), PreparedGroup(toCheck, AppComponents(b), openPR).value.infos, GroupCreationFailed)
      ensures outcome == Continue && groupSnapshots != old(groupSnapshots) ==>
                notes == NotifyAll(old(notes), PreparedGroup(toCheck, AppComponents(b), openPR).value.infos,
                                   GroupCreated(|old(groupSnapshots)|))
      ensures AwaitsGroup(old(notes)) && !HasGroupInfo() ==>
                groupSnapshots == old(groupSnapshots) && NotedAs(NoGroupInfo, old(notes), outcome, b)
      ensures AwaitsGroup(old(notes)) && HasGroupInfo() && builds.Err? ==>
                outcome == Requeue([builds.error]) && unchanged(this)
      ensures AwaitsGroup(old(notes)) && HasGroupInfo() && builds.Ok? ==>
                var blk := FirstBlocker(builds.value, snapshot.buildPipelineRun, |builds.value|);
                && (blk.Some? && blk.value.NoComponentSnapshot? ==> outcome == Continue && unchanged(this))
                && (blk.Some? && !blk.value.NoComponentSnapshot? ==>
                      groupSnapshots == old(groupSnapshots) && NotedAs(Held(blk.value), old(notes), outcome, b))
      ensures AwaitsGroup(old(notes)) && HasGroupInfo() && builds.Ok?
              && FirstBlocker(builds.value, snapshot.buildPipelineRun, |builds.value|).None? ==>
                var prep := PreparedGroup(toCheck, AppComponents(b), openPR);
                && (prep == Err(NotFound) ==>
                      groupSnapshots == old(groupSnapshots) && NotedAs(PrepareFailed, old(notes), outcome, b))
                && (prep.Err? && prep.error != NotFound ==> outcome == Requeue([prep.error]) && unchanged(this))
                && (prep.Ok? && prep.value.group.None? ==>
                      groupSnapshots == old(groupSnapshots)
                      && NotedAs(TooFewComponents(|prep.value.infos|), old(notes), outcome, b))
    {
      if snapshot.pushEvent || snapshot.kind != ComponentKind || snapshot.name in notes {
        return Continue;
      }
      if snapshot.prGroupHash == "" || snapshot.prGroup == "" {
        outcome := AnnotateSnapshot(NoGroupInfo, b);
        return;
      }
      var ready := HaveAllPipelineRunProcessedForPrGroup(builds, b);
      if ready.Err? {
        return Requeue([ready.error]);
      }
      if !ready.value {
        return Continue;
      }
      var prep := PrepareGroupSnapshot(toCheck, openPR, b);
      if prep.Err? {
        if prep.error == NotFound {
          outcome := AnnotateSnapshot(PrepareFailed, b);
          return;
        }
        return Requeue([prep.error]);
      }
      if prep.value.group.None? {
        outcome := AnnotateSnapshot(TooFewComponents(|prep.value.infos|), b);
        return;
      }
      outcome := CreateGroupSnapshotAndNotify(prep.value.group.value, prep.value.infos, b);
    }

    /** Where the re-run of `scs` from state `s0` ends: the runs, the
        competing snapshots and the in-progress mark are the loop's. A loop
        halted by a failed creation ends as the error handler says, with the
        label and the passed mark kept. A loop that went through is cleaned
        up: the label is removed unless that fails; unless every scenario was
        skipped the ledger is written back and the passed mark cleared; the
        first failure requeues, and without one the operation goes on. */
    ghost predicate ReranAs(scs: seq<Scenario>, b: Backend, s0: RerunState, label0: Option<string>, passed0: bool, outcome: Outcome)
      reads this
    {
      var p := RerunUpTo(s0, scs, snapshot, b, |scs|);
      && runs == p.s.runs && peers == p.s.peers && inProgress == p.s.inProgress
      && (p.Halted? ==>
            rerunLabel == label0 && passed == passed0 && HaltedAs(p, Some(outcome), s0.statuses, ledger, p.s.statuses, b))
      && (p.Going? ==>
            var err := CleanupError(p.s.skipped, |scs|, b);
            && outcome == (if err.Some? then Requeue([err.value]) else Continue)
            && rerunLabel == (if b(RemoveRerunLabel).Some? then label0 else None)
            && ledger == (if b(RemoveRerunLabel).Some? || p.s.skipped == |scs| || b(WriteStatuses(RerunWrite)).Some?
                          then s0.statuses else p.s.statuses)
            && passed == (if err.None? && p.s.skipped != |scs| then false else passed0))
    }

    /** A component snapshot of a pull request (not a push) whose group has
        not been noted on it yet. */
    predicate AwaitsGroup(notes0: map<string, GroupNote>) {
      !snapshot.pushEvent && snapshot.kind == ComponentKind && snapshot.name !in notes0
    }

    /** The snapshot carries the pull request group and its hash. */
    predicate HasGroupInfo() {
      snapshot.prGroupHash != "" && snapshot.prGroup != ""
    }

    /** The note was recorded on this snapshot and the operation goes on,
        or recording it failed and the operation requeues with no note
        added. */
    ghost predicate NotedAs(note: GroupNote, notes0: map<string, GroupNote>, outcome: Outcome, b: Backend)
      reads this
    {
      if b(Annotate).Some? then outcome == Requeue([b(Annotate).value]) && notes == notes0
      else outcome == Continue && notes == notes0[snapshot.name := note]
    }

    /** The group snapshot `g` was created and its constituents notified:
        creation appends it (a failure appends nothing); a forbidden
        creation is noted on the constituents as a failure and stops, a
        successful one is noted with the group's index and goes on, any
        other failure, and a failure to notify, requeues with no note
        added. */
    ghost predicate CreatedAndNotified(g: GroupSnapshot, infos: seq<ComponentSnapshotInfo>, notes0: map<string, GroupNote>,
                                       groups0: seq<GroupSnapshot>, outcome: Outcome, b: Backend)
      reads this
    {
      && groupSnapshots == (if b(CreateGroupSnapshot).None? then groups0 + [g] else groups0)
      && (b(Notify).Some? && b(CreateGroupSnapshot) in {None, Some(Forbidden)} ==>
            outcome == Requeue([b(Notify).value]) && notes == notes0)
      && (b(CreateGroupSnapshot).Some? && b(CreateGroupSnapshot) != Some(Forbidden) ==>
            outcome == Requeue([b(CreateGroupSnapshot).value]) && notes == notes0)
      && (b(Notify).None? && b(CreateGroupSnapshot) == Some(Forbidden) ==>
            outcome == Stop && notes == NotifyAll(notes0, infos, GroupCreationFailed))
      && (b(Notify).None? && b(CreateGroupSnapshot).None? ==>
            outcome == Continue && notes == NotifyAll(notes0, infos, GroupCreated(|groups0|)))
    }

    /** The conditions under which a group snapshot is created: a component
        snapshot of a pull request (not a push) with group information,
        every build of the group processed, and a group snapshot prepared. */
    ghost predicate GroupCreatedFor(toCheck: Result<seq<string>>, openPR: OpenPRLookup, builds: Result<seq<BuildRun>>, b: Backend)
      reads this
    {
      && !snapshot.pushEvent && snapshot.kind == ComponentKind
      && snapshot.prGroupHash != "" && snapshot.prGroup != ""
      && builds.Ok? && FirstBlocker(builds.value, snapshot.buildPipelineRun, |builds.value|).None?
      && PreparedGroup(toCheck, AppComponents(b), openPR).Ok?
      && PreparedGroup(toCheck, AppComponents(b), openPR).value.group.Some?
    }
  }
}
