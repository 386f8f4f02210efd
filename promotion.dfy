/** The global candidate list (each component's last promoted image and last
    built commit), updated from a component push snapshot or an override
    snapshot, and the validation of an override snapshot's entries. */
module Promotion {
  import opened Types

  /** Loading a component by name: the backend may fail, and a component
      that does not exist is NotFound. */
  function FetchComponent(cs: seq<Component>, name: string, b: Backend): (r: Result<nat>)
    ensures r.Ok? ==> r.value < |cs| && cs[r.value].name == name
    ensures r.Ok? <==> b(GetComponent(name)).None? && exists k :: 0 <= k < |cs| && cs[k].name == name
  {
    match b(GetComponent(name))
    case Some(e) => Err(e)
    case None =>
      match FirstNamed(cs, ComponentName, name)
      case None => Err(NotFound)
      case Some(i) => Ok(i)
  }

  /** The global candidate records and every patch issued against them, in
      order, whether it succeeded or not. */
  datatype Candidates = Candidates(components: seq<Component>, writes: seq<Call>)

  datatype PromoteProgress = PromoteProgress(c: Candidates, error: Option<ErrorKind>)

  /** Sets the last promoted image of component `i`; no call at all when it
      is already that image. */
  function PromoteImage(c: Candidates, i: nat, entry: SnapshotComponent, b: Backend): (p: PromoteProgress)
    requires i < |c.components|
    ensures |p.c.components| == |c.components|
  {
    var comp := c.components[i];
    if comp.lastPromotedImage == entry.containerImage then PromoteProgress(c, None)
    else
      var call := PatchLastPromotedImage(comp.name);
      match b(call)
      case Some(e) => PromoteProgress(c.(writes := c.writes + [call]), Some(e))
      case None =>
        PromoteProgress(Candidates(c.components[i := comp.(lastPromotedImage := entry.containerImage)], c.writes + [call]), None)
  }

  /** Sets the last built commit of component `i` when the entry has a git
      source with a revision. */
  function RecordCommit(c: Candidates, i: nat, entry: SnapshotComponent, b: Backend): (p: PromoteProgress)
    requires i < |c.components|
    ensures |p.c.components| == |c.components|
  {
    var comp := c.components[i];
    if entry.source.Some? && entry.source.value.revision != "" then
      var call := PatchLastBuiltCommit(comp.name);
      match b(call)
      case Some(e) => PromoteProgress(c.(writes := c.writes + [call]), Some(e))
      case None =>
        PromoteProgress(Candidates(c.components[i := comp.(lastBuiltCommit := entry.source.value.revision)], c.writes + [call]), None)
    else PromoteProgress(c, None)
  }

  /** Image first, then commit; an error stops. */
  function PromoteEntry(c: Candidates, i: nat, entry: SnapshotComponent, b: Backend): (p: PromoteProgress)
    requires i < |c.components|
    ensures |p.c.components| == |c.components|
  {
    var p := PromoteImage(c, i, entry, b);
    if p.error.Some? then p else RecordCommit(p.c, i, entry, b)
  }

  /** What promoting an entry does: only component `i` changes, the image
      is written only when it differs and the commit only when the entry has
      a revision; on success both hold the entry's values. */
  lemma PromoteEntryEffect(c: Candidates, i: nat, entry: SnapshotComponent, b: Backend)
    requires i < |c.components|
    ensures var p := PromoteEntry(c, i, entry, b);
      var comp := c.components[i];
      && (forall k :: 0 <= k < |c.components| && k != i ==> p.c.components[k] == c.components[k])
      && p.c.components[i].name == comp.name && p.c.components[i].source == comp.source
      && (comp.lastPromotedImage == entry.containerImage ==> PatchLastPromotedImage(comp.name) !in p.c.writes[|c.writes|..])
      && (entry.source.None? || entry.source.value.revision == "" ==> p.c.writes[|c.writes|..] <= [PatchLastPromotedImage(comp.name)])
      && |c.writes| <= |p.c.writes| && p.c.writes[..|c.writes|] == c.writes
      && (p.error.None? ==>
            && p.c.components[i].lastPromotedImage == entry.containerImage
            && p.c.components[i].lastBuiltCommit ==
                 (if entry.source.Some? && entry.source.value.revision != "" then entry.source.value.revision
                  else comp.lastBuiltCommit))
  {
  }

  /** A component push snapshot promotes its first entry for its component
      `i`; a snapshot without such an entry changes nothing. */
  function PromoteComponentEntry(c: Candidates, i: nat, entries: seq<SnapshotComponent>, b: Backend): (p: PromoteProgress)
    requires i < |c.components|
    ensures |p.c.components| == |c.components|
  {
    match FirstNamed(entries, EntryName, c.components[i].name)
    case None => PromoteProgress(c, None)
    case Some(k) => PromoteEntry(c, i, entries[k], b)
  }

  /** Promoting from a component snapshot touches only that component's
      record; on success it holds the image (and the revision, when there
      is one) of the snapshot's entry for it. */
  lemma PromoteComponentEntryEffect(c: Candidates, i: nat, entries: seq<SnapshotComponent>, b: Backend)
    requires i < |c.components|
    ensures var p := PromoteComponentEntry(c, i, entries, b);
      && (forall k :: 0 <= k < |c.components| && k != i ==> p.c.components[k] == c.components[k])
      && p.c.components[i].name == c.components[i].name
      && (FirstNamed(entries, EntryName, c.components[i].name).None? ==> p == PromoteProgress(c, None))
      && (p.error.None? && FirstNamed(entries, EntryName, c.components[i].name).Some? ==>
            var entry := entries[FirstNamed(entries, EntryName, c.components[i].name).value];
            && p.c.components[i].lastPromotedImage == entry.containerImage
            && (entry.source.Some? && entry.source.value.revision != "" ==>
                  p.c.components[i].lastBuiltCommit == entry.source.value.revision))
  {
    match FirstNamed(entries, EntryName, c.components[i].name) {
      case None =>
      case Some(k) => PromoteEntryEffect(c, i, entries[k], b);
    }
  }

  /** The override snapshot loop: each entry's component is loaded (a
      missing one is skipped, any other failure stops), an entry with an
      invalid digest is skipped, the others are promoted. */
  function OverrideStep(c: Candidates, entry: SnapshotComponent, b: Backend): (p: PromoteProgress)
    ensures |p.c.components| == |c.components|
  {
    match FetchComponent(c.components, entry.name, b)
    case Err(NotFound) => PromoteProgress(c, None)
    case Err(e) => PromoteProgress(c, Some(e))
    case Ok(i) =>
      if !ValidImageDigest(entry.containerImage) then PromoteProgress(c, None)
      else PromoteEntry(c, i, entry, b)
  }

  function OverrideUpTo(c: Candidates, entries: seq<SnapshotComponent>, b: Backend, j: nat): (p: PromoteProgress)
    requires j <= |entries|
    ensures |p.c.components| == |c.components|
    decreases j
  {
    if j == 0 then PromoteProgress(c, None)
    else
      var p := OverrideUpTo(c, entries, b, j - 1);
      if p.error.Some? then p else OverrideStep(p.c, entries[j - 1], b)
  }

  /** The entries whose promotion is attempted: a valid digest. */
  predicate Promotable(entry: SnapshotComponent) {
    ValidImageDigest(entry.containerImage)
  }

  /** Whatever the backend answers, a component record changes only when an
      entry with its name and a valid digest is promoted: names and git
      sources stay, and records that no promotable entry names stay as they
      are. */
  lemma {:induction false} OverrideUpToFrame(c: Candidates, entries: seq<SnapshotComponent>, b: Backend, j: nat)
    requires j <= |entries|
    ensures var p := OverrideUpTo(c, entries, b, j);
      && (forall k :: 0 <= k < |c.components| ==>
            p.c.components[k].name == c.components[k].name && p.c.components[k].source == c.components[k].source)
      && (forall k :: 0 <= k < |c.components| &&
            (forall e :: 0 <= e < j && Promotable(entries[e]) ==> entries[e].name != c.components[k].name)
            ==> p.c.components[k] == c.components[k])
    decreases j
  {
    if j > 0 {
      OverrideUpToFrame(c, entries, b, j - 1);
      var p := OverrideUpTo(c, entries, b, j - 1);
      if p.error.None? {
        var entry := entries[j - 1];
        var f := FetchComponent(p.c.components, entry.name, b);
        if f.Ok? && ValidImageDigest(entry.containerImage) {
          PromoteEntryEffect(p.c, f.value, entry, b);
        }
      }
    }
  }

  /** Loading a component depends only on the names of the records. */
  lemma FetchSameNames(cs: seq<Component>, cs': seq<Component>, name: string, b: Backend)
    requires |cs| == |cs'| && forall k :: 0 <= k < |cs| ==> cs'[k].name == cs[k].name
    ensures FetchComponent(cs', name, b) == FetchComponent(cs, name, b)
  {
    var r, r' := FirstNamed(cs, ComponentName, name), FirstNamed(cs', ComponentName, name);
    if r.Some? && r'.Some? {
      assert !(r.value < r'.value) && !(r'.value < r.value);
    }
  }

  /** What the override loop achieves when no call fails: the component
      record each promotable entry loads holds that entry's image (and its
      revision, when it has one), unless a later promotable entry names the
      same component and so takes its place. */
  lemma OverrideUpToOk(c: Candidates, entries: seq<SnapshotComponent>, b: Backend, j: nat)
    requires j <= |entries|
    ensures var p := OverrideUpTo(c, entries, b, j);
      p.error.None? ==>
        forall e, k :: 0 <= e < j && Promotable(entries[e]) && FetchComponent(c.components, entries[e].name, b) == Ok(k)
                       && (forall e' :: e < e' < j && Promotable(entries[e']) ==> entries[e'].name != entries[e].name) ==>
          && p.c.components[k].lastPromotedImage == entries[e].containerImage
          && (entries[e].source.Some? && entries[e].source.value.revision != "" ==>
                p.c.components[k].lastBuiltCommit == entries[e].source.value.revision)
  {
    forall e, k | 0 <= e < j && Promotable(entries[e]) && FetchComponent(c.components, entries[e].name, b) == Ok(k)
                  && (forall e' :: e < e' < j && Promotable(entries[e']) ==> entries[e'].name != entries[e].name)
      ensures var p := OverrideUpTo(c, entries, b, j);
        p.error.None? ==>
          && p.c.components[k].lastPromotedImage == entries[e].containerImage
          && (entries[e].source.Some? && entries[e].source.value.revision != "" ==>
                p.c.components[k].lastBuiltCommit == entries[e].source.value.revision)
    {
      OverrideUpToOkAt(c, entries, b, j, e, k);
    }
  }

  /** One entry of the override loop, seen from record `k`: without an
      error, an entry with another name leaves the record alone, and a
      promotable entry that loads it sets its image and revision. */
  lemma OverrideStepAt(c: Candidates, entry: SnapshotComponent, b: Backend, k: nat)
    requires k < |c.components|
    ensures var p := OverrideStep(c, entry, b);
      p.error.None? ==>
        && (entry.name != c.components[k].name ==> p.c.components[k] == c.components[k])
        && (Promotable(entry) && FetchComponent(c.components, entry.name, b) == Ok(k) ==>
              && p.c.components[k].lastPromotedImage == entry.containerImage
              && (entry.source.Some? && entry.source.value.revision != "" ==>
                    p.c.components[k].lastBuiltCommit == entry.source.value.revision))
  {
    var f := FetchComponent(c.components, entry.name, b);
    if f.Ok? && ValidImageDigest(entry.containerImage) {
      PromoteEntryEffect(c, f.value, entry, b);
    }
  }

  /** `OverrideUpToOk` for one entry `e` and the record `k` it loads, by
      induction on the number of entries processed. */
  lemma {:induction false} OverrideUpToOkAt(c: Candidates, entries: seq<SnapshotComponent>, b: Backend, j: nat, e: nat, k: nat)
    requires e < j <= |entries| && Promotable(entries[e])
    requires FetchComponent(c.components, entries[e].name, b) == Ok(k)
    requires forall e' :: e < e' < j && Promotable(entries[e']) ==> entries[e'].name != entries[e].name
    ensures var p := OverrideUpTo(c, entries, b, j);
      p.error.None? ==>
        && p.c.components[k].lastPromotedImage == entries[e].containerImage
        && (entries[e].source.Some? && entries[e].source.value.revision != "" ==>
              p.c.components[k].lastBuiltCommit == entries[e].source.value.revision)
    decreases j
  {
    var p0 := OverrideUpTo(c, entries, b, j - 1);
    if p0.error.None? {
      var entry := entries[j - 1];
      OverrideUpToFrame(c, entries, b, j - 1);
      assert p0.c.components[k].name == entries[e].name;
      OverrideStepAt(p0.c, entry, b, k);
      if e < j - 1 {
        OverrideUpToOkAt(c, entries, b, j - 1, e, k);
        if Promotable(entry) {
          assert entry.name != p0.c.components[k].name;
        }
      } else {
        FetchSameNames(c.components, p0.c.components, entry.name, b);
      }
    }
  }

  // ---------------------------------------------------------------------
  // Validation of an override snapshot

  datatype Problem = MissingComponent | InvalidDigest | NoGitSource

  /** An entry names its git repository and revision. */
  predicate HaveGitSource(entry: SnapshotComponent) {
    entry.source.Some? && entry.source.value.url != "" && entry.source.value.revision != ""
  }

  /** What is wrong with one entry: its component does not exist, its image
      has no valid digest, it has no git source. A failure other than
      NotFound while loading the component is an error. */
  function ComponentProblems(cs: seq<Component>, entry: SnapshotComponent, b: Backend): (r: Result<seq<Problem>>)
    ensures r.Err? <==> b(GetComponent(entry.name)).Some? && b(GetComponent(entry.name)) != Some(NotFound)
    ensures r.Ok? ==>
      && (MissingComponent in r.value <==>
            b(GetComponent(entry.name)) == Some(NotFound) || !exists k :: 0 <= k < |cs| && cs[k].name == entry.name)
      && (InvalidDigest in r.value <==> !ValidImageDigest(entry.containerImage))
      && (NoGitSource in r.value <==> !HaveGitSource(entry))
  {
    var missing := match FetchComponent(cs, entry.name, b)
      case Err(NotFound) => Ok([MissingComponent])
      case Err(e) => Err(e)
      case Ok(_) => Ok([]);
    match missing
    case Err(e) => Err(e)
    case Ok(m) =>
      Ok(m + (if ValidImageDigest(entry.containerImage) then [] else [InvalidDigest])
           + (if HaveGitSource(entry) then [] else [NoGitSource]))
  }

  /** The same, as the reconciler is written: for an entry without a git
      source it joins the error of the digest check, which is nothing when
      the digest is valid. */
  function ComponentProblemsAsWritten(cs: seq<Component>, entry: SnapshotComponent, b: Backend): Result<seq<Problem>> {
    var missing := match FetchComponent(cs, entry.name, b)
      case Err(NotFound) => Ok([MissingComponent])
      case Err(e) => Err(e)
      case Ok(_) => Ok([]);
    match missing
    case Err(e) => Err(e)
    case Ok(m) =>
      var digestErr := if ValidImageDigest(entry.containerImage) then [] else [InvalidDigest];
      Ok(m + digestErr + (if HaveGitSource(entry) then [] else digestErr))
  }

  /** All entries in order, problems collected, stopping at an error. */
  function ValidateUpTo(cs: seq<Component>, entries: seq<SnapshotComponent>, b: Backend, j: nat,
                        asWritten: bool): Result<seq<Problem>>
    requires j <= |entries|
    decreases j
  {
    if j == 0 then Ok([])
    else
      match ValidateUpTo(cs, entries, b, j - 1, asWritten)
      case Err(e) => Err(e)
      case Ok(ps) =>
        var r := if asWritten then ComponentProblemsAsWritten(cs, entries[j - 1], b)
                 else ComponentProblems(cs, entries[j - 1], b);
        match r
        case Err(e) => Err(e)
        case Ok(more) => Ok(ps + more)
  }

  /** An entry that is acceptable in an override snapshot: its component
      can be loaded. */
  predicate EntryValid(cs: seq<Component>, entry: SnapshotComponent, b: Backend) {
    && FetchComponent(cs, entry.name, b).Ok?
    && ValidImageDigest(entry.containerImage)
    && HaveGitSource(entry)
  }

  /** The snapshot is found to have no problem exactly when every entry
      checked has an existing component, a valid digest and a git source. */
  lemma {:induction false} ValidateUpToNoProblemIff(cs: seq<Component>, entries: seq<SnapshotComponent>, b: Backend, j: nat)
    requires j <= |entries| && ValidateUpTo(cs, entries, b, j, false).Ok?
    ensures ValidateUpTo(cs, entries, b, j, false).value == [] <==>
              forall e :: 0 <= e < j ==> EntryValid(cs, entries[e], b)
    decreases j
  {
    if j > 0 {
      ValidateUpToNoProblemIff(cs, entries, b, j - 1);
      var prev := ValidateUpTo(cs, entries, b, j - 1, false);
      var r := ComponentProblems(cs, entries[j - 1], b);
      assert prev.Ok? && r.Ok?;
      assert ValidateUpTo(cs, entries, b, j, false).value == prev.value + r.value;
      assert r.value == [] <==> EntryValid(cs, entries[j - 1], b) by {
        if r.value != [] {
          assert r.value[0] in r.value;
        }
      }
    }
  }

  /** The discrepancy: an entry whose component exists and whose digest is
      valid but that has no git source is accepted as written, while it is
      reported when checked as intended. */
  lemma MissingGitSourceAccepted(cs: seq<Component>, entry: SnapshotComponent, b: Backend)
    requires FetchComponent(cs, entry.name, b).Ok?
    requires ValidImageDigest(entry.containerImage) && entry.source.None?
    ensures ValidateUpTo(cs, [entry], b, 1, true).Ok? && ValidateUpTo(cs, [entry], b, 1, true).value == []
    ensures ValidateUpTo(cs, [entry], b, 1, false).Ok? && ValidateUpTo(cs, [entry], b, 1, false).value == [NoGitSource]
  {
    assert ValidateUpTo(cs, [entry], b, 0, true) == Ok([]);
    assert ValidateUpTo(cs, [entry], b, 0, false) == Ok([]);
  }

  /** Once the override loop stopped on an error, later entries are not
      looked at. */
  lemma {:induction false} OverrideUpToStops(c: Candidates, entries: seq<SnapshotComponent>, b: Backend, i: nat, j: nat)
    requires i <= j <= |entries| && OverrideUpTo(c, entries, b, i).error.Some?
    ensures OverrideUpTo(c, entries, b, j) == OverrideUpTo(c, entries, b, i)
    decreases j
  {
    if j > i {
      OverrideUpToStops(c, entries, b, i, j - 1);
    }
  }

  /** Once validation stopped on an error, later entries are not looked at. */
  /** One more entry of the documented validation, whose check gave `more`. */
  lemma ValidateUpToNext(cs: seq<Component>, entries: seq<SnapshotComponent>, b: Backend, j: nat,
                         ps: seq<Problem>, more: Result<seq<Problem>>)
    requires j < |entries| && ValidateUpTo(cs, entries, b, j, false) == Ok(ps)
    requires more == ComponentProblems(cs, entries[j], b)
    ensures ValidateUpTo(cs, entries, b, j + 1, false) == if more.Err? then Err(more.error) else Ok(ps + more.value)
  {
  }

  lemma {:induction false} ValidateUpToStops(cs: seq<Component>, entries: seq<SnapshotComponent>, b: Backend, i: nat, j: nat, asWritten: bool)
    requires i <= j <= |entries| && ValidateUpTo(cs, entries, b, i, asWritten).Err?
    ensures ValidateUpTo(cs, entries, b, j, asWritten) == ValidateUpTo(cs, entries, b, i, asWritten)
    decreases j
  {
    if j > i {
      ValidateUpToStops(cs, entries, b, i, j - 1, asWritten);
    }
  }
}
