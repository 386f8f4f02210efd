/** Supersession: of the snapshots competing for the same pull request (or
    the same pull request group), sorted newest first, every one but the
    first is marked canceled and its unfinished integration pipeline runs are
    gracefully cancelled. The loops of the reconciler are given as folds here,
    together with a reference definition of their combined effect. */
module Supersession {
  import opened Types

  /** The annotation that tags a run cancelled because its snapshot was
      superseded. Its value is defined outside this model; only its role as a
      key matters here. */
  const PRGroupCancelledAnnotation := "pr-group-cancelled"

  /** A run after graceful cancellation: the finalizer is gone, the run is
      told to cancel but let its finally tasks run, and it is tagged. */
  function CancelRun(r: PipelineRun): (c: PipelineRun)
    ensures !c.hasFinalizer && c.specStatus == CancelledRunFinally
    ensures Lookup(c.annotations, PRGroupCancelledAnnotation) == "true"
    ensures c.name == r.name && c.snapshot == r.snapshot && c.scenario == r.scenario
    ensures c.finished == r.finished && c.resolverUpdate == r.resolverUpdate
    ensures c.annotations.Keys == r.annotations.Keys + {PRGroupCancelledAnnotation}
    ensures forall k :: k in r.annotations && k != PRGroupCancelledAnnotation ==> c.annotations[k] == r.annotations[k]
  {
    r.(hasFinalizer := false, specStatus := CancelledRunFinally,
       annotations := r.annotations[PRGroupCancelledAnnotation := "true"])
  }

  lemma CancelRunIdempotent(r: PipelineRun)
    ensures CancelRun(CancelRun(r)) == CancelRun(r)
  {
  }

  /** Whether cancelling the runs of snapshot `target` affects run `r`. */
  predicate Cancellable(r: PipelineRun, targets: set<string>) {
    r.snapshot in targets && !r.finished
  }

  /** Reference definition: every unfinished run of a snapshot in `targets`
      is cancelled, every other run is left as it is. */
  function CancelRunsOf(runs: seq<PipelineRun>, targets: set<string>): (r: seq<PipelineRun>)
    ensures |r| == |runs|
    ensures forall k :: 0 <= k < |runs| ==>
              r[k] == if Cancellable(runs[k], targets) then CancelRun(runs[k]) else runs[k]
  {
    seq(|runs|, k requires 0 <= k < |runs| =>
      if Cancellable(runs[k], targets) then CancelRun(runs[k]) else runs[k])
  }

  /** Cancelling the runs of one more snapshot composes with earlier ones. */
  lemma CancelRunsOfCompose(runs: seq<PipelineRun>, targets: set<string>, name: string)
    ensures CancelRunsOf(CancelRunsOf(runs, targets), {name}) == CancelRunsOf(runs, targets + {name})
  {
    var lhs := CancelRunsOf(CancelRunsOf(runs, targets), {name});
    var rhs := CancelRunsOf(runs, targets + {name});
    forall k | 0 <= k < |runs| ensures lhs[k] == rhs[k] {
      CancelRunIdempotent(runs[k]);
    }
  }

  // ---------------------------------------------------------------------
  // The loop over the runs of one snapshot

  /** `runs'` holds the same runs as `runs`, in the same order: each has
      the same name, snapshot and scenario (cancelling changes only a run's
      finalizer, status and annotations). */
  predicate SameRunIds(runs: seq<PipelineRun>, runs': seq<PipelineRun>) {
    && |runs'| == |runs|
    && forall k :: 0 <= k < |runs| ==>
         runs'[k].name == runs[k].name && runs'[k].snapshot == runs[k].snapshot && runs'[k].scenario == runs[k].scenario
  }

  /** How far a loop got, and the error that stopped it, if one did. */
  datatype RunsProgress = RunsProgress(runs: seq<PipelineRun>, error: Option<ErrorKind>)

  /** Run `k`: an unfinished run of `target` first loses its finalizer (one
      call) and is then patched to its cancelled form (a second call); a
      failure of either call stops the loop, the first leaving the run as it
      was, the second leaving it without its finalizer only. */
  function CancelAt(runs: seq<PipelineRun>, k: nat, target: string, b: Backend): (p: RunsProgress)
    requires k < |runs|
    ensures |p.runs| == |runs|
  {
    var r := runs[k];
    if r.snapshot != target || r.finished then RunsProgress(runs, None)
    else
      match b(RemoveFinalizer(r.name))
      case Some(e) => RunsProgress(runs, Some(e))
      case None =>
        match b(PatchCancel(r.name))
        case Some(e) => RunsProgress(runs[k := r.(hasFinalizer := false)], Some(e))
        case None => RunsProgress(runs[k := CancelRun(r)], None)
  }

  /** The first `j` runs processed, in order, stopping at the first error. */
  function CancelRunsUpTo(runs: seq<PipelineRun>, target: string, b: Backend, j: nat): (p: RunsProgress)
    requires j <= |runs|
    ensures |p.runs| == |runs|
    decreases j
  {
    if j == 0 then RunsProgress(runs, None)
    else
      var p := CancelRunsUpTo(runs, target, b, j - 1);
      if p.error.Some? then p else CancelAt(p.runs, j - 1, target, b)
  }

  /** Whatever the backend answers, only unfinished runs of `target` change,
      and each of them only towards its cancelled form. */
  lemma {:induction false} CancelRunsUpToFrame(runs: seq<PipelineRun>, target: string, b: Backend, j: nat)
    requires j <= |runs|
    ensures var p := CancelRunsUpTo(runs, target, b, j);
      forall k :: 0 <= k < |runs| ==>
        || p.runs[k] == runs[k]
        || (&& Cancellable(runs[k], {target})
            && (p.runs[k] == CancelRun(runs[k]) || p.runs[k] == runs[k].(hasFinalizer := false)))
    decreases j
  {
    if j > 0 {
      CancelRunsUpToFrame(runs, target, b, j - 1);
      var p := CancelRunsUpTo(runs, target, b, j - 1);
      if p.error.None? {
        var k := j - 1;
        if p.runs[k] != runs[k] {
          assert p.runs[k] == CancelRun(runs[k]) || p.runs[k] == runs[k].(hasFinalizer := false);
        }
      }
    }
  }

  /** A loop that meets no error cancels exactly the unfinished runs of
      `target` among the first `j`. */
  lemma {:induction false} CancelRunsUpToOk(runs: seq<PipelineRun>, target: string, b: Backend, j: nat)
    requires j <= |runs|
    requires CancelRunsUpTo(runs, target, b, j).error.None?
    ensures CancelRunsUpTo(runs, target, b, j).runs == CancelRunsOf(runs[..j], {target}) + runs[j..]
    decreases j
  {
    if j > 0 {
      var p := CancelRunsUpTo(runs, target, b, j - 1);
      CancelRunsUpToOk(runs, target, b, j - 1);
      var lhs := CancelRunsUpTo(runs, target, b, j).runs;
      var rhs := CancelRunsOf(runs[..j], {target}) + runs[j..];
      assert |lhs| == |rhs|;
      forall k | 0 <= k < |runs| ensures lhs[k] == rhs[k] {
        if k < j - 1 {
          assert p.runs[k] == CancelRunsOf(runs[..j - 1], {target})[k];
        }
      }
    }
  }

  /** The whole loop, as the reconciler runs it for one superseded snapshot:
      listing its runs may fail, then every run is processed. */
  function CancelAllRuns(runs: seq<PipelineRun>, target: string, b: Backend): (p: RunsProgress)
    ensures |p.runs| == |runs|
  {
    if b(ListRuns(target)).Some? then RunsProgress(runs, b(ListRuns(target)))
    else CancelRunsUpTo(runs, target, b, |runs|)
  }

  lemma CancelAllRunsOk(runs: seq<PipelineRun>, target: string, b: Backend)
    requires CancelAllRuns(runs, target, b).error.None?
    ensures CancelAllRuns(runs, target, b).runs == CancelRunsOf(runs, {target})
  {
    CancelRunsUpToOk(runs, target, b, |runs|);
    assert runs[..|runs|] == runs;
  }

  /** Cancelling keeps every run, with its name, snapshot and scenario. */
  lemma CancelAllRunsKeepsIds(runs: seq<PipelineRun>, target: string, b: Backend)
    ensures SameRunIds(runs, CancelAllRuns(runs, target, b).runs)
  {
    if b(ListRuns(target)).None? {
      CancelRunsUpToFrame(runs, target, b, |runs|);
    }
  }

  lemma CancelAllRunsFrame(runs: seq<PipelineRun>, target: string, b: Backend)
    ensures var p := CancelAllRuns(runs, target, b);
      forall k :: 0 <= k < |runs| && !Cancellable(runs[k], {target}) ==> p.runs[k] == runs[k]
  {
    if b(ListRuns(target)).None? {
      CancelRunsUpToFrame(runs, target, b, |runs|);
    }
  }

  // ---------------------------------------------------------------------
  // The loop over the competing snapshots

  datatype Progress = Progress(peers: seq<Peer>, runs: seq<PipelineRun>, error: Option<ErrorKind>)

  /** Peer `k`: skipped when already canceled; otherwise marked canceled
      (one call) and its runs cancelled. */
  function SupersedeAt(p: Progress, k: nat, b: Backend): (q: Progress)
    requires k < |p.peers|
    ensures |q.peers| == |p.peers| && |q.runs| == |p.runs|
  {
    var peer := p.peers[k];
    if peer.canceled then p
    else
      match b(MarkCanceled(peer.name))
      case Some(e) => p.(error := Some(e))
      case None =>
        var c := CancelAllRuns(p.runs, peer.name, b);
        Progress(p.peers[k := peer.(canceled := true)], c.runs, c.error)
  }

  /** One peer processed without error: it is marked canceled and its
      unfinished runs are cancelled, unless it was canceled already. */
  lemma SupersedeAtOk(p: Progress, k: nat, b: Backend)
    requires k < |p.peers| && SupersedeAt(p, k, b).error.None?
    ensures var q := SupersedeAt(p, k, b);
      && q.peers == (if p.peers[k].canceled then p.peers else p.peers[k := p.peers[k].(canceled := true)])
      && q.runs == (if p.peers[k].canceled then p.runs else CancelRunsOf(p.runs, {p.peers[k].name}))
  {
    if !p.peers[k].canceled {
      CancelAllRunsOk(p.runs, p.peers[k].name, b);
    }
  }

  /** Peers 1 to `i - 1` processed in order, stopping at the first error. */
  function SupersedeUpTo(peers: seq<Peer>, runs: seq<PipelineRun>, b: Backend, i: nat): (p: Progress)
    requires 1 <= i <= |peers|
    ensures |p.peers| == |peers| && |p.runs| == |runs|
    decreases i
  {
    if i == 1 then Progress(peers, runs, None)
    else
      var p := SupersedeUpTo(peers, runs, b, i - 1);
      if p.error.Some? then p else SupersedeAt(p, i - 1, b)
  }

  /** The loop of the reconciler: nothing happens with fewer than two peers;
      otherwise every peer after the first is processed. */
  function Supersede(peers: seq<Peer>, runs: seq<PipelineRun>, b: Backend): (p: Progress)
    ensures |p.peers| == |peers| && |p.runs| == |runs|
  {
    if |peers| < 2 then Progress(peers, runs, None) else SupersedeUpTo(peers, runs, b, |peers|)
  }

  /** The snapshots to cancel: every peer after the first that is not yet
      marked canceled. */
  function CancelTargets(peers: seq<Peer>): set<string> {
    set k | 1 <= k < |peers| && !peers[k].canceled :: peers[k].name
  }

  /** Every peer after the first marked canceled, nothing else changed. */
  function MarkSuperseded(peers: seq<Peer>): (r: seq<Peer>)
    ensures |r| == |peers|
    ensures forall k :: 0 <= k < |peers| ==> r[k] == if k == 0 then peers[0] else peers[k].(canceled := true)
  {
    seq(|peers|, k requires 0 <= k < |peers| => if k == 0 then peers[0] else peers[k].(canceled := true))
  }

  function TargetsUpTo(peers: seq<Peer>, i: nat): set<string>
    requires i <= |peers|
  {
    set k | 1 <= k < i && !peers[k].canceled :: peers[k].name
  }

  function MarkedUpTo(peers: seq<Peer>, i: nat): (r: seq<Peer>)
    requires i <= |peers|
    ensures |r| == |peers|
  {
    seq(|peers|, k requires 0 <= k < |peers| => if 1 <= k < i then peers[k].(canceled := true) else peers[k])
  }

  lemma MarkedUpToSnoc(peers: seq<Peer>, i: nat)
    requires 1 <= i < |peers|
    ensures MarkedUpTo(peers, i + 1) == MarkedUpTo(peers, i)[i := peers[i].(canceled := true)]
    ensures peers[i].canceled ==> MarkedUpTo(peers, i + 1) == MarkedUpTo(peers, i)
  {
    assert MarkedUpTo(peers, i)[i] == peers[i];
  }

  lemma TargetsUpToSnoc(peers: seq<Peer>, i: nat)
    requires 1 <= i < |peers|
    ensures TargetsUpTo(peers, i + 1) ==
            TargetsUpTo(peers, i) + (if peers[i].canceled then {} else {peers[i].name})
  {
    var lhs := TargetsUpTo(peers, i + 1);
    var rhs := TargetsUpTo(peers, i) + (if peers[i].canceled then {} else {peers[i].name});
    forall n | n in lhs ensures n in rhs {
      var k :| 1 <= k < i + 1 && !peers[k].canceled && peers[k].name == n;
      if k < i { assert n in TargetsUpTo(peers, i); }
    }
  }

  /** A loop that meets no error marks peers 1 to `i - 1` canceled and
      cancels the unfinished runs of those that were not canceled before. */
  lemma {:induction false} SupersedeUpToOk(peers: seq<Peer>, runs: seq<PipelineRun>, b: Backend, i: nat)
    requires 1 <= i <= |peers|
    requires SupersedeUpTo(peers, runs, b, i).error.None?
    ensures var p := SupersedeUpTo(peers, runs, b, i);
      p.peers == MarkedUpTo(peers, i) && p.runs == CancelRunsOf(runs, TargetsUpTo(peers, i))
    decreases i
  {
    if i == 1 {
      assert MarkedUpTo(peers, 1) == peers;
      assert TargetsUpTo(peers, 1) == {};
      assert CancelRunsOf(runs, {}) == runs;
    } else {
      var p := SupersedeUpTo(peers, runs, b, i - 1);
      SupersedeUpToOk(peers, runs, b, i - 1);
      TargetsUpToSnoc(peers, i - 1);
      MarkedUpToSnoc(peers, i - 1);
      assert p.peers[i - 1] == peers[i - 1];
      SupersedeAtOk(p, i - 1, b);
      if !peers[i - 1].canceled {
        CancelRunsOfCompose(runs, TargetsUpTo(peers, i - 1), peers[i - 1].name);
      }
    }
  }

  /** Reference result of a supersession that meets no error: the peers are
      marked, and exactly the unfinished runs of the peers that were not yet
      canceled are cancelled. */
  lemma SupersedeOk(peers: seq<Peer>, runs: seq<PipelineRun>, b: Backend)
    requires Supersede(peers, runs, b).error.None?
    ensures var p := Supersede(peers, runs, b);
      && p.peers == (if |peers| < 2 then peers else MarkSuperseded(peers))
      && p.runs == CancelRunsOf(runs, CancelTargets(peers))
  {
    if |peers| < 2 {
      assert CancelTargets(peers) == {};
      assert CancelRunsOf(runs, {}) == runs;
    } else {
      SupersedeUpToOk(peers, runs, b, |peers|);
      assert TargetsUpTo(peers, |peers|) == CancelTargets(peers);
      assert MarkedUpTo(peers, |peers|) == MarkSuperseded(peers);
    }
  }

  /** The newest snapshot is never touched: peer 0 stays as it was and, when
      the peer names are distinct, so does every run of it. The same holds
      for every finished run, whatever the backend answers. */
  lemma {:induction false} SupersedeUpToKeepsNewest(peers: seq<Peer>, runs: seq<PipelineRun>, b: Backend, i: nat)
    requires 1 <= i <= |peers| && DistinctPeerNames(peers)
    ensures var p := SupersedeUpTo(peers, runs, b, i);
      && p.peers[0] == peers[0]
      && (forall k :: 1 <= k < |peers| ==> p.peers[k].name == peers[k].name && p.peers[k].created == peers[k].created)
      && (forall k :: 0 <= k < |runs| && (runs[k].finished || runs[k].snapshot == peers[0].name) ==> p.runs[k] == runs[k])
    decreases i
  {
    if i > 1 {
      SupersedeUpToKeepsNewest(peers, runs, b, i - 1);
      var p := SupersedeUpTo(peers, runs, b, i - 1);
      if p.error.None? && !p.peers[i - 1].canceled && b(MarkCanceled(p.peers[i - 1].name)).None? {
        var target := p.peers[i - 1].name;
        assert target == peers[i - 1].name;
        assert target != peers[0].name;
        CancelAllRunsFrame(p.runs, target, b);
      }
    }
  }

  lemma SupersedeKeepsNewest(peers: seq<Peer>, runs: seq<PipelineRun>, b: Backend)
    requires DistinctPeerNames(peers)
    ensures var p := Supersede(peers, runs, b);
      && (|peers| > 0 ==> p.peers[0] == peers[0])
      && (forall k :: 0 <= k < |runs| && (runs[k].finished || (|peers| > 0 && runs[k].snapshot == peers[0].name)) ==> p.runs[k] == runs[k])
  {
    if |peers| >= 2 {
      SupersedeUpToKeepsNewest(peers, runs, b, |peers|);
    }
  }

  /** With fewer than two peers nothing changes. */
  lemma SupersedeFewPeers(peers: seq<Peer>, runs: seq<PipelineRun>, b: Backend)
    requires |peers| < 2
    ensures Supersede(peers, runs, b) == Progress(peers, runs, None)
  {
  }

  /** Already canceled peers are skipped: when every peer after the first is
      canceled, supersession makes no call and changes nothing. */
  lemma {:induction false} SupersedeUpToAllCanceled(peers: seq<Peer>, runs: seq<PipelineRun>, b: Backend, i: nat)
    requires 1 <= i <= |peers|
    requires forall k :: 1 <= k < |peers| ==> peers[k].canceled
    ensures SupersedeUpTo(peers, runs, b, i) == Progress(peers, runs, None)
    decreases i
  {
    if i > 1 {
      SupersedeUpToAllCanceled(peers, runs, b, i - 1);
    }
  }

  /** Supersession converges: after one that met no error, a second one
      with the new state makes no call and changes nothing. */
  lemma SupersedeIdempotent(peers: seq<Peer>, runs: seq<PipelineRun>, b: Backend, b2: Backend)
    requires Supersede(peers, runs, b).error.None?
    ensures var p := Supersede(peers, runs, b);
      Supersede(p.peers, p.runs, b2) == Progress(p.peers, p.runs, None)
  {
    SupersedeOk(peers, runs, b);
    var p := Supersede(peers, runs, b);
    if |peers| >= 2 {
      SupersedeUpToAllCanceled(p.peers, p.runs, b2, |peers|);
    }
  }

  // ---------------------------------------------------------------------
  // The peers of the reconciled snapshot

  /** The whole check-and-cancel step for the reconciled snapshot: its peers
      are listed only for a component snapshot (same pull request) or a group
      snapshot (same pull request group, which it must name); any other
      snapshot has no peers. */
  function SupersedeFor(snapshot: SnapshotInfo, peers: seq<Peer>, runs: seq<PipelineRun>, b: Backend): (p: Progress)
    ensures |p.peers| == |peers| && |p.runs| == |runs|
    ensures snapshot.kind != ComponentKind && snapshot.kind != GroupKind ==> p.peers == peers && p.runs == runs
  {
    if snapshot.kind == GroupKind && (snapshot.prGroupHash == "" || snapshot.prGroup == "") then
      Progress(peers, runs, Some(Other))
    else if snapshot.kind == ComponentKind || snapshot.kind == GroupKind then
      match b(ListPeers)
      case Some(e) => Progress(peers, runs, Some(e))
      case None => Supersede(peers, runs, b)
    else Progress(peers, runs, None)
  }

  /** Whatever happens, finished runs and the runs of the newest peer are
      left as they were, and so is the newest peer itself. */
  lemma SupersedeForKeepsNewest(snapshot: SnapshotInfo, peers: seq<Peer>, runs: seq<PipelineRun>, b: Backend)
    requires DistinctPeerNames(peers)
    ensures var p := SupersedeFor(snapshot, peers, runs, b);
      && (|peers| > 0 ==> p.peers[0] == peers[0])
      && (forall k :: 0 <= k < |runs| && (runs[k].finished || (|peers| > 0 && runs[k].snapshot == peers[0].name)) ==> p.runs[k] == runs[k])
  {
    SupersedeKeepsNewest(peers, runs, b);
  }

  /** Once a run loop stopped on an error, later runs are not looked at. */
  lemma {:induction false} CancelRunsUpToStops(runs: seq<PipelineRun>, target: string, b: Backend, i: nat, j: nat)
    requires i <= j <= |runs| && CancelRunsUpTo(runs, target, b, i).error.Some?
    ensures CancelRunsUpTo(runs, target, b, j) == CancelRunsUpTo(runs, target, b, i)
    decreases j
  {
    if j > i {
      CancelRunsUpToStops(runs, target, b, i, j - 1);
    }
  }

  /** Once the peer loop stopped on an error, later peers are not looked at. */
  lemma {:induction false} SupersedeUpToStops(peers: seq<Peer>, runs: seq<PipelineRun>, b: Backend, i: nat, j: nat)
    requires 1 <= i <= j <= |peers| && SupersedeUpTo(peers, runs, b, i).error.Some?
    ensures SupersedeUpTo(peers, runs, b, j) == SupersedeUpTo(peers, runs, b, i)
    decreases j
  {
    if j > i {
      SupersedeUpToStops(peers, runs, b, i, j - 1);
    }
  }

  /** Supersession only ever flips the canceled mark of peers: their names
      and creation stamps, and so their order, stay. */
  lemma {:induction false} SupersedeUpToKeepsOrder(peers: seq<Peer>, runs: seq<PipelineRun>, b: Backend, i: nat)
    requires 1 <= i <= |peers|
    ensures var p := SupersedeUpTo(peers, runs, b, i);
      forall k :: 0 <= k < |peers| ==> p.peers[k].name == peers[k].name && p.peers[k].created == peers[k].created
    decreases i
  {
    if i > 1 {
      SupersedeUpToKeepsOrder(peers, runs, b, i - 1);
    }
  }

  lemma SupersedeForKeepsOrder(snapshot: SnapshotInfo, peers: seq<Peer>, runs: seq<PipelineRun>, b: Backend)
    ensures var p := SupersedeFor(snapshot, peers, runs, b);
      && (SortedNewestFirst(peers) ==> SortedNewestFirst(p.peers))
      && (DistinctPeerNames(peers) ==> DistinctPeerNames(p.peers))
  {
    if |peers| >= 2 {
      SupersedeUpToKeepsOrder(peers, runs, b, |peers|);
    }
  }

  /** Superseding the competing snapshots only cancels runs: every run is
      kept, in order, with its name, snapshot and scenario. */
  lemma {:induction false} SupersedeUpToKeepsIds(peers: seq<Peer>, runs: seq<PipelineRun>, b: Backend, i: nat)
    requires 1 <= i <= |peers|
    ensures SameRunIds(runs, SupersedeUpTo(peers, runs, b, i).runs)
    decreases i
  {
    if i > 1 {
      SupersedeUpToKeepsIds(peers, runs, b, i - 1);
      var p := SupersedeUpTo(peers, runs, b, i - 1);
      if p.error.None? && !p.peers[i - 1].canceled && b(MarkCanceled(p.peers[i - 1].name)).None? {
        CancelAllRunsKeepsIds(p.runs, p.peers[i - 1].name, b);
      }
    }
  }

  lemma SupersedeForKeepsIds(snapshot: SnapshotInfo, peers: seq<Peer>, runs: seq<PipelineRun>, b: Backend)
    ensures SameRunIds(runs, SupersedeFor(snapshot, peers, runs, b).runs)
  {
    if |peers| >= 2 {
      SupersedeUpToKeepsIds(peers, runs, b, |peers|);
    }
  }
}
