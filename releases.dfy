/** Automatic releases of a snapshot: one release per auto-release plan,
    created only when none exists for that plan, and marked automated right
    after its creation. */
module Releases {
  import opened Types

  /** The releases of the snapshot under reconciliation, by release plan;
      the value says whether the release is marked automated. */
  type ReleaseSet = map<string, bool>

  datatype ReleaseProgress = ReleaseProgress(releases: ReleaseSet, error: Option<ErrorKind>)

  /** One plan: nothing happens when a release for it exists; otherwise it
      is created (one call) and then marked automated (a second call). A
      failure of either call stops the loop; a release whose marking failed
      stays, unmarked. */
  function ReleaseStep(rel: ReleaseSet, plan: string, b: Backend): ReleaseProgress {
    if plan in rel then ReleaseProgress(rel, None)
    else
      match b(CreateRelease(plan))
      case Some(e) => ReleaseProgress(rel, Some(e))
      case None =>
        match b(MarkAutomated(plan))
        case Some(e) => ReleaseProgress(rel[plan := false], Some(e))
        case None => ReleaseProgress(rel[plan := true], None)
  }

  /** The first `j` plans in order, stopping at the first error. */
  function ReleasesUpTo(rel: ReleaseSet, plans: seq<string>, b: Backend, j: nat): ReleaseProgress
    requires j <= |plans|
    decreases j
  {
    if j == 0 then ReleaseProgress(rel, None)
    else
      var p := ReleasesUpTo(rel, plans, b, j - 1);
      if p.error.Some? then p else ReleaseStep(p.releases, plans[j - 1], b)
  }

  /** The loop of the reconciler: listing the existing releases may fail,
      then every plan is processed. */
  function CreateMissingReleases(rel: ReleaseSet, plans: seq<string>, b: Backend): ReleaseProgress {
    if b(ListReleases).Some? then ReleaseProgress(rel, b(ListReleases))
    else ReleasesUpTo(rel, plans, b, |plans|)
  }

  /** Whatever the backend answers, an existing release is never touched and
      a new one is only ever for one of the plans. */
  lemma {:induction false} ReleasesUpToFrame(rel: ReleaseSet, plans: seq<string>, b: Backend, j: nat)
    requires j <= |plans|
    ensures var p := ReleasesUpTo(rel, plans, b, j);
      && rel.Keys <= p.releases.Keys
      && (forall plan :: plan in rel ==> p.releases[plan] == rel[plan])
      && (forall plan :: plan in p.releases && plan !in rel ==> exists i :: 0 <= i < j && plans[i] == plan)
    decreases j
  {
    if j > 0 {
      ReleasesUpToFrame(rel, plans, b, j - 1);
      var p := ReleasesUpTo(rel, plans, b, j - 1);
      var q := ReleasesUpTo(rel, plans, b, j);
      forall plan | plan in q.releases && plan !in rel ensures exists i :: 0 <= i < j && plans[i] == plan {
        if plan in p.releases {
          var i :| 0 <= i < j - 1 && plans[i] == plan;
        } else {
          assert plans[j - 1] == plan;
        }
      }
    }
  }

  /** A loop that meets no error leaves a release marked automated for every
      plan that had none, and the existing ones as they were. */
  lemma {:induction false} ReleasesUpToOk(rel: ReleaseSet, plans: seq<string>, b: Backend, j: nat)
    requires j <= |plans| && ReleasesUpTo(rel, plans, b, j).error.None?
    ensures var p := ReleasesUpTo(rel, plans, b, j);
      forall i :: 0 <= i < j ==> plans[i] in p.releases && (plans[i] !in rel ==> p.releases[plans[i]])
    decreases j
  {
    if j > 0 {
      ReleasesUpToOk(rel, plans, b, j - 1);
      ReleasesUpToFrame(rel, plans, b, j - 1);
      var p := ReleasesUpTo(rel, plans, b, j - 1);
      var q := ReleasesUpTo(rel, plans, b, j);
      forall i | 0 <= i < j ensures plans[i] in q.releases && (plans[i] !in rel ==> q.releases[plans[i]]) {
        if i < j - 1 && plans[i] != plans[j - 1] {
          assert q.releases[plans[i]] == p.releases[plans[i]];
        }
        if plans[j - 1] in p.releases && plans[j - 1] !in rel {
          var i0 :| 0 <= i0 < j - 1 && plans[i0] == plans[j - 1];
          assert p.releases[plans[i0]];
        }
      }
    }
  }

  lemma CreateMissingReleasesOk(rel: ReleaseSet, plans: seq<string>, b: Backend)
    requires CreateMissingReleases(rel, plans, b).error.None?
    ensures var p := CreateMissingReleases(rel, plans, b);
      && p.releases.Keys == rel.Keys + (set i | 0 <= i < |plans| :: plans[i])
      && (forall plan :: plan in rel ==> p.releases[plan] == rel[plan])
      && (forall plan :: plan in p.releases && plan !in rel ==> p.releases[plan])
  {
    ReleasesUpToOk(rel, plans, b, |plans|);
    ReleasesUpToFrame(rel, plans, b, |plans|);
    var p := CreateMissingReleases(rel, plans, b);
    forall plan | plan in p.releases && plan !in rel ensures p.releases[plan] {
      var i :| 0 <= i < |plans| && plans[i] == plan;
    }
  }

  /** When every plan has a release, the loop makes no call that creates
      or marks anything and changes nothing. */
  lemma {:induction false} ReleasesUpToAllExist(rel: ReleaseSet, plans: seq<string>, b: Backend, j: nat)
    requires j <= |plans| && forall i :: 0 <= i < |plans| ==> plans[i] in rel
    ensures ReleasesUpTo(rel, plans, b, j) == ReleaseProgress(rel, None)
    decreases j
  {
    if j > 0 {
      ReleasesUpToAllExist(rel, plans, b, j - 1);
    }
  }

  /** Running the loop again after a successful run creates nothing. */
  lemma CreateMissingReleasesIdempotent(rel: ReleaseSet, plans: seq<string>, b: Backend, b2: Backend)
    requires CreateMissingReleases(rel, plans, b).error.None? && b2(ListReleases).None?
    ensures var p := CreateMissingReleases(rel, plans, b);
      CreateMissingReleases(p.releases, plans, b2) == ReleaseProgress(p.releases, None)
  {
    CreateMissingReleasesOk(rel, plans, b);
    var p := CreateMissingReleases(rel, plans, b);
    ReleasesUpToAllExist(p.releases, plans, b2, |plans|);
  }

  /** Once the loop stopped on an error, later plans are not looked at. */
  lemma {:induction false} ReleasesUpToStops(rel: ReleaseSet, plans: seq<string>, b: Backend, i: nat, j: nat)
    requires i <= j <= |plans| && ReleasesUpTo(rel, plans, b, i).error.Some?
    ensures ReleasesUpTo(rel, plans, b, j) == ReleasesUpTo(rel, plans, b, i)
    decreases j
  {
    if j > i {
      ReleasesUpToStops(rel, plans, b, i, j - 1);
    }
  }
}
