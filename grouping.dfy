/** Pull request groups: whether every build of the group has been processed,
    and which source each application component contributes to a group
    snapshot. */
module Grouping {
  import opened Types

  // ---------------------------------------------------------------------
  // Readiness of the group's builds

  /** No other build of the same component was created later. */
  predicate IsLatestInComponent(r: BuildRun, builds: seq<BuildRun>) {
    forall k :: 0 <= k < |builds| && builds[k].component == r.component ==> builds[k].created <= r.created
  }

  /** Why a build holds the group snapshot back. */
  datatype Blocker = StillRunning(run: string) | BuildFailed(run: string) | NoComponentSnapshot(run: string)

  /** The group is held back by build `r` unless it is superseded by a later
      build of its component, or it has finished, succeeded, and either
      produced its component snapshot already or is the build this snapshot
      itself comes from. */
  function BlockerOf(r: BuildRun, builds: seq<BuildRun>, own: Option<string>): Option<Blocker> {
    if !IsLatestInComponent(r, builds) then None
    else if !r.finished then Some(StillRunning(r.name))
    else if !r.succeeded then Some(BuildFailed(r.name))
    else if !r.snapshotAnnotated && own != Some(r.name) then Some(NoComponentSnapshot(r.name))
    else None
  }

  /** The first blocker among the first `j` builds, in order. */
  function FirstBlocker(builds: seq<BuildRun>, own: Option<string>, j: nat): Option<Blocker>
    requires j <= |builds|
    decreases j
  {
    if j == 0 then None
    else
      var b := FirstBlocker(builds, own, j - 1);
      if b.Some? then b else BlockerOf(builds[j - 1], builds, own)
  }

  predicate Processed(r: BuildRun, builds: seq<BuildRun>, own: Option<string>) {
    IsLatestInComponent(r, builds) ==> r.finished && r.succeeded && (r.snapshotAnnotated || own == Some(r.name))
  }

  /** Readiness: no blocker exactly when every build that is the latest of its
      component has finished, succeeded and has a component snapshot (or is
      this snapshot's own build). */
  lemma {:induction false} FirstBlockerNoneIff(builds: seq<BuildRun>, own: Option<string>, j: nat)
    requires j <= |builds|
    ensures FirstBlocker(builds, own, j).None? <==> forall k :: 0 <= k < j ==> Processed(builds[k], builds, own)
    decreases j
  {
    if j > 0 {
      FirstBlockerNoneIff(builds, own, j - 1);
    }
  }

  /** A blocker names a build of the group that is not processed. */
  lemma {:induction false} FirstBlockerSound(builds: seq<BuildRun>, own: Option<string>, j: nat)
    requires j <= |builds| && FirstBlocker(builds, own, j).Some?
    ensures exists k :: 0 <= k < j && builds[k].name == FirstBlocker(builds, own, j).value.run
                        && !Processed(builds[k], builds, own)
    decreases j
  {
    if FirstBlocker(builds, own, j - 1).Some? {
      FirstBlockerSound(builds, own, j - 1);
    } else {
      assert builds[j - 1].name == FirstBlocker(builds, own, j).value.run;
    }
  }

  /** A build older than another build of its component has no say:
      appending it changes nothing. */
  lemma ReadyIgnoresSuperseded(builds: seq<BuildRun>, own: Option<string>, old_: BuildRun, k: nat)
    requires k < |builds| && builds[k].component == old_.component && builds[k].created > old_.created
    requires forall i :: 0 <= i < |builds| ==> Processed(builds[i], builds, own)
    ensures forall i :: 0 <= i < |builds| + 1 ==> Processed((builds + [old_])[i], builds + [old_], own)
  {
    var all := builds + [old_];
    forall i | 0 <= i < |all| ensures Processed(all[i], all, own) {
      if i < |builds| {
        assert all[i] == builds[i];
        if IsLatestInComponent(all[i], all) {
          assert IsLatestInComponent(builds[i], builds) by {
            forall m | 0 <= m < |builds| && builds[m].component == builds[i].component
              ensures builds[m].created <= builds[i].created
            {
              assert all[m] == builds[m];
            }
          }
        }
      } else {
        assert all[k] == builds[k];
        assert !IsLatestInComponent(all[i], all);
      }
    }
  }

  // ---------------------------------------------------------------------
  // Choosing each component's source

  /** A component snapshot of the group, as recorded in the group snapshot. */
  datatype ComponentSnapshotInfo = ComponentSnapshotInfo(component: string, snapshot: string, buildPipelineRun: string)

  /** The newest snapshot of a component whose pull request is still open,
      as found for the group, with its entries. */
  datatype OpenPR = OpenPR(snapshot: string, buildPipelineRun: string, components: seq<SnapshotComponent>)

  /** The entry an open-PR snapshot contributes for a component: its first
      entry with the component's name, or an empty entry when it has none. */
  function MatchingEntry(o: OpenPR, name: string): (e: SnapshotComponent)
    ensures (exists k :: 0 <= k < |o.components| && o.components[k].name == name) ==>
              e.name == name && e in o.components
    ensures (forall k :: 0 <= k < |o.components| ==> o.components[k].name != name) ==>
              e == SnapshotComponent("", "", None)
  {
    match FirstNamed(o.components, EntryName, name)
    case Some(k) => o.components[k]
    case None => SnapshotComponent("", "", None)
  }

  /** Looks up the open-pull-request snapshot of a component of the group;
      fails when the snapshots cannot be listed or the git provider cannot be
      asked. */
  type OpenPRLookup = string -> Result<Option<OpenPR>>

  predicate HasOpenPR(name: string, openPR: OpenPRLookup) {
    openPR(name).Ok? && openPR(name).value.Some?
  }

  datatype Selection = Selection(components: seq<SnapshotComponent>, infos: seq<ComponentSnapshotInfo>)

  /** The source a component contributes from the global candidate list:
      its git source, with the revision replaced by the component's last
      built commit when it has one; none without a git source. */
  function CandidateSource(c: Component): Option<GitSource> {
    match c.source
    case None => None
    case Some(g) => Some(if c.lastBuiltCommit != "" then g.(revision := c.lastBuiltCommit) else g)
  }

  /** The entry taken from the global candidate list for a component, if it
      has a git source and a last promoted image with a valid digest: its
      last promoted image, from its repository at its last built commit (or
      at the revision of its git source before any commit was recorded). */
  function Fallback(c: Component): (r: Option<SnapshotComponent>)
    ensures r.Some? <==> c.source.Some? && c.lastPromotedImage != "" && ValidImageDigest(c.lastPromotedImage)
    ensures r.Some? ==>
              && r.value.name == c.name && r.value.containerImage == c.lastPromotedImage
              && r.value.source.Some? && r.value.source.value.url == c.source.value.url
              && r.value.source.value.revision ==
                   (if c.lastBuiltCommit != "" then c.lastBuiltCommit else c.source.value.revision)
  {
    var source := CandidateSource(c);
    if source.None? then None
    else if c.lastPromotedImage == "" then None
    else if !ValidImageDigest(c.lastPromotedImage) then None
    else Some(SnapshotComponent(c.name, c.lastPromotedImage, source))
  }

  function AddFallback(sel: Selection, c: Component): Selection {
    match Fallback(c)
    case None => sel
    case Some(e) => sel.(components := sel.components + [e])
  }

  /** One application component: a component of the group with an open pull
      request contributes its open-PR snapshot (and is recorded as part of
      the group); any other falls back to its global candidate entry. */
  function SelectStep(sel: Selection, c: Component, toCheck: seq<string>, openPR: OpenPRLookup): Result<Selection> {
    if c.name in toCheck then
      match openPR(c.name)
      case Err(e) => Err(e)
      case Ok(Some(o)) =>
        Ok(Selection(sel.components + [MatchingEntry(o, c.name)],
                     sel.infos + [ComponentSnapshotInfo(c.name, o.snapshot, o.buildPipelineRun)]))
      case Ok(None) => Ok(AddFallback(sel, c))
    else Ok(AddFallback(sel, c))
  }

  /** All application components in order, stopping at the first error. */
  function SelectSources(cs: seq<Component>, toCheck: seq<string>, openPR: OpenPRLookup): Result<Selection>
    decreases |cs|
  {
    if cs == [] then Ok(Selection([], []))
    else
      match SelectSources(cs[..|cs| - 1], toCheck, openPR)
      case Err(e) => Err(e)
      case Ok(sel) => SelectStep(sel, cs[|cs| - 1], toCheck, openPR)
  }

  /** An entry is justified when it comes from the open-PR snapshot of a
      component of the group or is a valid global candidate entry. */
  predicate Justified(e: SnapshotComponent, cs: seq<Component>, toCheck: seq<string>, openPR: OpenPRLookup) {
    exists i :: 0 <= i < |cs| &&
      (|| (cs[i].name in toCheck && HasOpenPR(cs[i].name, openPR)
           && e == MatchingEntry(openPR(cs[i].name).value.value, cs[i].name))
       || Fallback(cs[i]) == Some(e))
  }

  /** A recorded component snapshot comes from a component of the group
      that has an open pull request. */
  predicate InfoJustified(info: ComponentSnapshotInfo, cs: seq<Component>, toCheck: seq<string>, openPR: OpenPRLookup) {
    exists i :: 0 <= i < |cs| && cs[i].name == info.component && info.component in toCheck
      && openPR(info.component).Ok? && openPR(info.component).value.Some?
      && info.snapshot == openPR(info.component).value.value.snapshot
  }

  /** Soundness of the selection: every entry is justified, in particular a
      fallback entry always has a git source and a valid digest, and every
      recorded component snapshot had an open pull request. */
  lemma {:induction false} SelectSourcesSound(cs: seq<Component>, toCheck: seq<string>, openPR: OpenPRLookup)
    requires SelectSources(cs, toCheck, openPR).Ok?
    ensures var sel := SelectSources(cs, toCheck, openPR).value;
      && (forall k :: 0 <= k < |sel.components| ==> Justified(sel.components[k], cs, toCheck, openPR))
      && (forall k :: 0 <= k < |sel.infos| ==> InfoJustified(sel.infos[k], cs, toCheck, openPR))
    decreases |cs|
  {
    if cs != [] {
      var init := cs[..|cs| - 1];
      var c := cs[|cs| - 1];
      SelectSourcesSound(init, toCheck, openPR);
      var sel0 := SelectSources(init, toCheck, openPR).value;
      var sel := SelectSources(cs, toCheck, openPR).value;
      forall k | 0 <= k < |sel.components| ensures Justified(sel.components[k], cs, toCheck, openPR) {
        if k < |sel0.components| {
          assert Justified(sel0.components[k], init, toCheck, openPR);
          var i :| 0 <= i < |init| &&
            (|| (init[i].name in toCheck && openPR(init[i].name).Ok? && openPR(init[i].name).value.Some?
                 && sel0.components[k] == MatchingEntry(openPR(init[i].name).value.value, init[i].name))
             || Fallback(init[i]) == Some(sel0.components[k]));
          assert cs[i] == init[i];
        } else {
          assert cs[|cs| - 1] == c;
        }
      }
      forall k | 0 <= k < |sel.infos| ensures InfoJustified(sel.infos[k], cs, toCheck, openPR) {
        if k < |sel0.infos| {
          assert InfoJustified(sel0.infos[k], init, toCheck, openPR);
          var i :| 0 <= i < |init| && init[i].name == sel0.infos[k].component;
          assert cs[i] == init[i];
        } else {
          assert cs[|cs| - 1] == c;
        }
      }
    }
  }

  /** Completeness: a component of the group with an open pull request is
      recorded, and a component that has no open-PR snapshot to contribute
      but a valid global candidate entry is included with that entry. */
  lemma {:induction false} SelectSourcesComplete(cs: seq<Component>, toCheck: seq<string>, openPR: OpenPRLookup)
    requires SelectSources(cs, toCheck, openPR).Ok?
    ensures var sel := SelectSources(cs, toCheck, openPR).value;
      forall i :: 0 <= i < |cs| ==>
        if cs[i].name in toCheck && HasOpenPR(cs[i].name, openPR) then
          exists k :: 0 <= k < |sel.infos| && sel.infos[k].component == cs[i].name
        else
          Fallback(cs[i]).Some? ==> Fallback(cs[i]).value in sel.components
    decreases |cs|
  {
    if cs != [] {
      var init := cs[..|cs| - 1];
      var c := cs[|cs| - 1];
      SelectSourcesComplete(init, toCheck, openPR);
      var sel0 := SelectSources(init, toCheck, openPR).value;
      var sel := SelectSources(cs, toCheck, openPR).value;
      assert |sel0.infos| <= |sel.infos| && sel.infos[..|sel0.infos|] == sel0.infos;
      assert |sel0.components| <= |sel.components| && sel.components[..|sel0.components|] == sel0.components;
      forall i | 0 <= i < |cs|
        ensures if cs[i].name in toCheck && HasOpenPR(cs[i].name, openPR) then
                  exists k :: 0 <= k < |sel.infos| && sel.infos[k].component == cs[i].name
                else
                  Fallback(cs[i]).Some? ==> Fallback(cs[i]).value in sel.components
      {
        if i < |init| {
          assert cs[i] == init[i];
          if cs[i].name in toCheck && HasOpenPR(cs[i].name, openPR) {
            var k :| 0 <= k < |sel0.infos| && sel0.infos[k].component == cs[i].name;
            assert sel.infos[k] == sel0.infos[k];
          } else if Fallback(cs[i]).Some? {
            assert Fallback(cs[i]).value in sel0.components;
          }
        } else if cs[i].name in toCheck && HasOpenPR(cs[i].name, openPR) {
          assert sel.infos[|sel.infos| - 1].component == cs[i].name;
        }
      }
    }
  }

  /** Every component contributes at most one entry and at most one record. */
  lemma {:induction false} SelectSourcesBound(cs: seq<Component>, toCheck: seq<string>, openPR: OpenPRLookup)
    requires SelectSources(cs, toCheck, openPR).Ok?
    ensures var sel := SelectSources(cs, toCheck, openPR).value;
      |sel.infos| <= |sel.components| <= |cs|
    decreases |cs|
  {
    if cs != [] {
      SelectSourcesBound(cs[..|cs| - 1], toCheck, openPR);
    }
  }

  /** An entry is named after a component of `cs`, or is the empty entry
      of an open-PR snapshot that has none for its component. */
  predicate NamedAfter(e: SnapshotComponent, cs: seq<Component>) {
    e.name == "" || exists i :: 0 <= i < |cs| && cs[i].name == e.name
  }

  /** Each entry of the selection is named after an application component
      (or is empty), and each record names one. */
  lemma {:induction false} SelectSourcesNames(cs: seq<Component>, toCheck: seq<string>, openPR: OpenPRLookup)
    requires SelectSources(cs, toCheck, openPR).Ok?
    ensures var sel := SelectSources(cs, toCheck, openPR).value;
      && (forall k :: 0 <= k < |sel.components| ==> NamedAfter(sel.components[k], cs))
      && (forall k :: 0 <= k < |sel.infos| ==> exists i :: 0 <= i < |cs| && cs[i].name == sel.infos[k].component)
    decreases |cs|
  {
    if cs != [] {
      var init := cs[..|cs| - 1];
      var c := cs[|cs| - 1];
      SelectSourcesNames(init, toCheck, openPR);
      var sel0 := SelectSources(init, toCheck, openPR).value;
      var sel := SelectSources(cs, toCheck, openPR).value;
      assert |sel0.components| <= |sel.components| && sel.components[..|sel0.components|] == sel0.components;
      assert |sel0.infos| <= |sel.infos| && sel.infos[..|sel0.infos|] == sel0.infos;
      forall k | 0 <= k < |sel.components| ensures NamedAfter(sel.components[k], cs) {
        if k < |sel0.components| {
          assert sel.components[k] == sel0.components[k];
          if sel0.components[k].name != "" {
            var i :| 0 <= i < |init| && init[i].name == sel0.components[k].name;
            assert cs[i] == init[i];
          }
        } else {
          assert sel.components[k].name == c.name || sel.components[k].name == "";
        }
      }
      forall k | 0 <= k < |sel.infos| ensures exists i :: 0 <= i < |cs| && cs[i].name == sel.infos[k].component {
        if k < |sel0.infos| {
          assert sel.infos[k] == sel0.infos[k];
          var i :| 0 <= i < |init| && init[i].name == sel0.infos[k].component;
          assert cs[i] == init[i];
        } else {
          assert sel.infos[k].component == cs[|cs| - 1].name;
        }
      }
    }
  }

  /** With distinct component names, no two named entries of the selection
      share a name and no two records name the same component. */
  lemma {:induction false} SelectSourcesDistinct(cs: seq<Component>, toCheck: seq<string>, openPR: OpenPRLookup)
    requires SelectSources(cs, toCheck, openPR).Ok? && DistinctComponentNames(cs)
    ensures var sel := SelectSources(cs, toCheck, openPR).value;
      && (forall k, k' :: 0 <= k < k' < |sel.components| && sel.components[k].name != "" ==>
            sel.components[k].name != sel.components[k'].name)
      && (forall k, k' :: 0 <= k < k' < |sel.infos| ==> sel.infos[k].component != sel.infos[k'].component)
    decreases |cs|
  {
    if cs != [] {
      var init := cs[..|cs| - 1];
      var c := cs[|cs| - 1];
      assert DistinctComponentNames(init) by {
        forall i, j | 0 <= i < j < |init| ensures init[i].name != init[j].name {
          assert init[i] == cs[i] && init[j] == cs[j];
        }
      }
      SelectSourcesDistinct(init, toCheck, openPR);
      SelectSourcesNames(init, toCheck, openPR);
      var sel0 := SelectSources(init, toCheck, openPR).value;
      var sel := SelectSources(cs, toCheck, openPR).value;
      assert |sel0.components| <= |sel.components| && sel.components[..|sel0.components|] == sel0.components;
      assert |sel0.infos| <= |sel.infos| && sel.infos[..|sel0.infos|] == sel0.infos;
      forall k, k' | 0 <= k < k' < |sel.components| && sel.components[k].name != ""
        ensures sel.components[k].name != sel.components[k'].name
      {
        if k' >= |sel0.components| {
          assert sel.components[k] == sel0.components[k];
          var i :| 0 <= i < |init| && init[i].name == sel0.components[k].name;
          assert cs[i] == init[i];
          assert sel.components[k'].name == c.name || sel.components[k'].name == "";
        } else {
          assert sel.components[k] == sel0.components[k] && sel.components[k'] == sel0.components[k'];
        }
      }
      forall k, k' | 0 <= k < k' < |sel.infos| ensures sel.infos[k].component != sel.infos[k'].component {
        if k' >= |sel0.infos| {
          assert sel.infos[k] == sel0.infos[k];
          var i :| 0 <= i < |init| && init[i].name == sel0.infos[k].component;
          assert cs[i] == init[i];
          assert sel.infos[k'].component == c.name;
        } else {
          assert sel.infos[k] == sel0.infos[k] && sel.infos[k'] == sel0.infos[k'];
        }
      }
    }
  }

  // ---------------------------------------------------------------------
  // Preparing the group snapshot

  datatype GroupSnapshot = GroupSnapshot(components: seq<SnapshotComponent>, members: seq<ComponentSnapshotInfo>)

  /** A group snapshot, when there is one to create, and the component
      snapshots that were found. */
  datatype Prepared = Prepared(group: Option<GroupSnapshot>, infos: seq<ComponentSnapshotInfo>)

  /** Fewer than two components in the group, or fewer than two of them with
      an open pull request, yields no group snapshot and no error. */
  function PreparedGroup(toCheck: Result<seq<string>>, appComponents: Result<seq<Component>>,
                                openPR: OpenPRLookup): (r: Result<Prepared>)
    ensures r.Ok? && r.value.group.Some? ==>
              && |r.value.infos| >= 2
              && r.value.group.value.members == r.value.infos
    ensures r.Ok? && toCheck.Ok? && |toCheck.value| < 2 ==> r.value == Prepared(None, [])
  {
    match toCheck
    case Err(e) => Err(e)
    case Ok(names) =>
      if |names| < 2 then Ok(Prepared(None, []))
      else
        match appComponents
        case Err(e) => Err(e)
        case Ok(cs) =>
          match SelectSources(cs, names, openPR)
          case Err(e) => Err(e)
          case Ok(sel) =>
            if |sel.infos| < 2 then Ok(Prepared(None, sel.infos))
            else Ok(Prepared(Some(GroupSnapshot(sel.components, sel.infos)), sel.infos))
  }

  /** A group snapshot is produced exactly when at least two components come
      from open-PR snapshots; its entries are all justified and, with
      distinct component names, no two named entries share a name. */
  lemma PreparedGroupIff(names: seq<string>, cs: seq<Component>, openPR: OpenPRLookup)
    requires |names| >= 2 && SelectSources(cs, names, openPR).Ok?
    ensures var r := PreparedGroup(Ok(names), Ok(cs), openPR);
      var sel := SelectSources(cs, names, openPR).value;
      && r.Ok?
      && (r.value.group.Some? <==> |sel.infos| >= 2)
      && (r.value.group.Some? ==>
            forall k :: 0 <= k < |r.value.group.value.components| ==>
              Justified(r.value.group.value.components[k], cs, names, openPR))
      && (r.value.group.Some? && DistinctComponentNames(cs) ==>
            forall k, k' :: 0 <= k < k' < |r.value.group.value.components| && r.value.group.value.components[k].name != "" ==>
              r.value.group.value.components[k].name != r.value.group.value.components[k'].name)
  {
    SelectSourcesSound(cs, names, openPR);
    if DistinctComponentNames(cs) {
      SelectSourcesDistinct(cs, names, openPR);
    }
  }

  /** The first blocker stays the first one when more builds are looked at. */
  lemma {:induction false} FirstBlockerStops(builds: seq<BuildRun>, own: Option<string>, i: nat, j: nat)
    requires i <= j <= |builds| && FirstBlocker(builds, own, i).Some?
    ensures FirstBlocker(builds, own, j) == FirstBlocker(builds, own, i)
    decreases j
  {
    if j > i {
      FirstBlockerStops(builds, own, i, j - 1);
    }
  }

  /** Once selection failed on a prefix of the components, it fails with
      the same error on every longer prefix. */
  lemma {:induction false} SelectSourcesStops(cs: seq<Component>, toCheck: seq<string>, openPR: OpenPRLookup, i: nat, j: nat)
    requires i <= j <= |cs| && SelectSources(cs[..i], toCheck, openPR).Err?
    ensures SelectSources(cs[..j], toCheck, openPR) == SelectSources(cs[..i], toCheck, openPR)
    decreases j
  {
    if j > i {
      SelectSourcesStops(cs, toCheck, openPR, i, j - 1);
      assert cs[..j][..j - 1] == cs[..j - 1];
    }
  }
}
