/** Values shared by every part of the snapshot reconciler model: the snapshot
    under reconciliation, the resources it is related to, the errors the
    backing store can answer with and the operation results handed back to
    the scheduling framework. */
module Types {

  datatype Option<T> = None | Some(value: T)

  /** The kinds of error the reconciler distinguishes. `Invalid` also covers a
      validation rejection by an admission webhook; conflicts and transient
      failures are `Other`. */
  datatype ErrorKind = Invalid | NotFound | Forbidden | Other

  datatype Result<T> = Ok(value: T) | Err(error: ErrorKind)

  /** What an operation tells the scheduling framework: go on with the next
      operation, requeue (with the errors that caused it), or stop
      processing this snapshot. */
  datatype Outcome = Continue | Requeue(errors: seq<ErrorKind>) | Stop

  // ---------------------------------------------------------------------
  // Strings

  predicate HasSuffix(s: string, suffix: string) {
    |suffix| <= |s| && s[|s| - |suffix|..] == suffix
  }

  /** Removes one occurrence of `suffix` from the end of `s`, if present. */
  function TrimSuffix(s: string, suffix: string): string {
    if HasSuffix(s, suffix) then s[..|s| - |suffix|] else s
  }

  /** Lookup in a string map that yields "" for a missing key, as a Go map does. */
  function Lookup(m: map<string, string>, key: string): string {
    if key in m then m[key] else ""
  }

  function DigitString(n: nat): string
    decreases n
  {
    var d := ['0', '1', '2', '3', '4', '5', '6', '7', '8', '9'][n % 10];
    if n < 10 then [d] else DigitString(n / 10) + [d]
  }

  // ---------------------------------------------------------------------
  // Integration test scenarios and their Tekton resolver reference

  datatype ResolverParameter = ResolverParameter(name: string, value: string)
  datatype ResolverRef = ResolverRef(resolver: string, params: seq<ResolverParameter>)
  datatype Scenario = Scenario(name: string, resolverRef: ResolverRef)

  predicate DistinctScenarioNames(scenarios: seq<Scenario>) {
    forall i, j :: 0 <= i < j < |scenarios| ==> scenarios[i].name != scenarios[j].name
  }

  // ---------------------------------------------------------------------
  // Snapshots

  datatype GitSource = GitSource(url: string, revision: string)
  datatype SnapshotComponent = SnapshotComponent(name: string, containerImage: string, source: Option<GitSource>)

  /** The value of the snapshot-type label. */
  datatype SnapshotKind = ComponentKind | GroupKind | OverrideKind | Untyped

  /** The parts of the snapshot under reconciliation that the reconciler only
      reads: identity, kind, trigger, Pipelines-as-Code annotations, pull
      request group and its component list. */
  datatype SnapshotInfo = SnapshotInfo(
    name: string,
    kind: SnapshotKind,
    pushEvent: bool,                    // created by a Pipelines-as-Code push event
    annotations: map<string, string>,
    prGroup: string,
    prGroupHash: string,
    buildPipelineRun: Option<string>,   // label naming the build run the snapshot was created from
    componentName: string,              // the component label of a component snapshot
    components: seq<SnapshotComponent>)

  /** A snapshot that competes with the reconciled one for the same pull
      request (component snapshots) or the same pull request group (group
      snapshots). `created` is its creation timestamp. */
  datatype Peer = Peer(name: string, created: nat, canceled: bool)

  predicate SortedNewestFirst(peers: seq<Peer>) {
    forall i, j :: 0 <= i < j < |peers| ==> peers[i].created >= peers[j].created
  }

  predicate DistinctPeerNames(peers: seq<Peer>) {
    forall i, j :: 0 <= i < j < |peers| ==> peers[i].name != peers[j].name
  }

  // ---------------------------------------------------------------------
  // Pipeline runs

  datatype SpecStatus = Unset | CancelledRunFinally

  /** An integration test pipeline run, with what the reconciler sets on it. */
  datatype PipelineRun = PipelineRun(
    name: string,
    snapshot: string,
    scenario: string,
    finished: bool,
    hasFinalizer: bool,
    specStatus: SpecStatus,
    annotations: map<string, string>,
    resolverUpdate: Option<map<string, string>>)   // git resolver parameters pinned to the commit under test

  /** A build pipeline run of a pull request group. */
  datatype BuildRun = BuildRun(
    name: string,
    component: string,
    created: nat,
    finished: bool,
    succeeded: bool,
    snapshotAnnotated: bool)   // carries the annotation naming the component snapshot it produced

  // ---------------------------------------------------------------------
  // Components and their global candidate record

  datatype Component = Component(
    name: string,
    source: Option<GitSource>,
    lastPromotedImage: string,
    lastBuiltCommit: string)

  predicate DistinctComponentNames(components: seq<Component>) {
    forall i, j :: 0 <= i < j < |components| ==> components[i].name != components[j].name
  }

  function ComponentName(c: Component): string { c.name }
  function EntryName(e: SnapshotComponent): string { e.name }

  /** The index of the first element of `xs` whose name, as `nameOf` reads
      it, is `name`. */
  function FirstNamed<T>(xs: seq<T>, nameOf: T -> string, name: string): (r: Option<nat>)
    ensures r.Some? ==> r.value < |xs| && nameOf(xs[r.value]) == name
                        && forall k :: 0 <= k < r.value ==> nameOf(xs[k]) != name
    ensures r.None? ==> forall k :: 0 <= k < |xs| ==> nameOf(xs[k]) != name
    decreases |xs|
  {
    if xs == [] then None
    else if nameOf(xs[0]) == name then Some(0)
    else match FirstNamed(xs[1..], nameOf, name)
      case None => None
      case Some(i) => Some(i + 1)
  }

  // ---------------------------------------------------------------------
  // The backing store

  /** Which write of the test-status ledger into the snapshot is meant. */
  datatype WriteSite = InitialWrite | FinalWrite | ErrorWrite | RerunWrite

  /** Every call the reconciler makes against the cluster whose failure it
      handles. */
  datatype Call =
    | ReadStatuses
    | WriteStatuses(site: WriteSite)
    | CreateRun(scenario: string)
    | MarkInProgress
    | RemoveRerunLabel
    | ResetConditions
    | PatchIntegrationStatus
    | MarkPassed
    | ListPeers
    | MarkCanceled(snapshot: string)
    | ListRuns(snapshot: string)
    | RemoveFinalizer(run: string)
    | PatchCancel(run: string)
    | Annotate
    | ListAppComponents
    | CreateGroupSnapshot
    | Notify
    | ListReleases
    | CreateRelease(plan: string)
    | MarkAutomated(plan: string)
    | MarkAutoReleased
    | GetComponent(name: string)
    | PatchLastPromotedImage(component: string)
    | PatchLastBuiltCommit(component: string)
    | MarkAddedToCandidates
    | MarkInvalid

  /** The answer of the backing store to each call: `None` for success. */
  type Backend = Call -> Option<ErrorKind>

  // ---------------------------------------------------------------------
  // Image references

  predicate IsLowerHex(c: char) {
    ('0' <= c <= '9') || ('a' <= c <= 'f')
  }

  /** An image reference pinned by a sha256 digest: `<name>@sha256:<64 hex>`. */
  predicate ValidImageDigest(image: string) {
    |image| > 72
    && image[|image| - 72] == '@'
    && image[|image| - 71..|image| - 64] == "sha256:"
    && forall k :: |image| - 64 <= k < |image| ==> IsLowerHex(image[k])
  }
}
