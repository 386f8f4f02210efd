/** Pinning an integration test's Tekton git resolver to the commit under
    test: URL normalisation, the resolver parameter map, the decision whether
    to pin and the replacement parameters. */
module GitResolver {
  import opened Types

  const GitSuffix := ".git"
  const TektonResolverGit := "git"
  const ParamUrl := "url"
  const ParamRevision := "revision"

  // Pipelines-as-Code annotations of a snapshot
  const TargetBranchAnnotation := "pac.test.appstudio.openshift.io/target-branch"
  const RepoUrlAnnotation := "pac.test.appstudio.openshift.io/repo-url"
  const SourceRepoUrlAnnotation := "pac.test.appstudio.openshift.io/source-repo-url"
  const ShaAnnotation := "pac.test.appstudio.openshift.io/sha"

  /** Normalises a repository URL so that it ends in ".git": a URL that
      already does is returned as it is; otherwise one trailing "/" is dropped
      before ".git" is appended. */
  function UrlToGitUrl(url: string): (r: string)
    ensures HasSuffix(r, GitSuffix)
    ensures HasSuffix(url, GitSuffix) ==> r == url
    ensures !HasSuffix(url, GitSuffix) ==>
              r == (if HasSuffix(url, "/") then url[..|url| - 1] else url) + GitSuffix
  {
    if HasSuffix(url, GitSuffix) then url
    else
      var trimmed := TrimSuffix(url, "/");
      assert (trimmed + GitSuffix)[|trimmed|..] == GitSuffix;
      trimmed + GitSuffix
  }

  lemma UrlToGitUrlIdempotent(url: string)
    ensures UrlToGitUrl(UrlToGitUrl(url)) == UrlToGitUrl(url)
  {
  }

  // ---------------------------------------------------------------------
  // Resolver parameters

  /** The parameter list as a map, a later parameter overriding an earlier
      one of the same name. */
  function ParamsMap(params: seq<ResolverParameter>): map<string, string>
    decreases |params|
  {
    if params == [] then map[]
    else
      var last := params[|params| - 1];
      ParamsMap(params[..|params| - 1])[last.name := last.value]
  }

  /** `params[i]` is the last parameter named `name`. */
  predicate IsLastParam(params: seq<ResolverParameter>, i: int, name: string) {
    0 <= i < |params| && params[i].name == name
    && forall j :: i < j < |params| ==> params[j].name != name
  }

  /** The map has a key for every parameter name and no other, and the value
      of each key is that of the last parameter with that name. */
  lemma {:induction false} ParamsMapLastWins(params: seq<ResolverParameter>)
    ensures forall k :: k in ParamsMap(params) <==> exists i :: 0 <= i < |params| && params[i].name == k
    ensures forall i :: 0 <= i < |params| && IsLastParam(params, i, params[i].name) ==>
              ParamsMap(params)[params[i].name] == params[i].value
    decreases |params|
  {
    if params != [] {
      var init := params[..|params| - 1];
      var last := params[|params| - 1];
      ParamsMapLastWins(init);
      forall k ensures k in ParamsMap(params) <==> exists i :: 0 <= i < |params| && params[i].name == k {
        if k in ParamsMap(init) {
          var i :| 0 <= i < |init| && init[i].name == k;
          assert params[i].name == k;
        }
        if exists i :: 0 <= i < |params| && params[i].name == k {
          var i :| 0 <= i < |params| && params[i].name == k;
          if i < |init| { assert init[i].name == k; }
        }
      }
      forall i | 0 <= i < |params| && IsLastParam(params, i, params[i].name)
        ensures ParamsMap(params)[params[i].name] == params[i].value
      {
        if i < |init| {
          assert params[|params| - 1].name != params[i].name;
          assert IsLastParam(init, i, init[i].name);
        }
      }
    }
  }

  /** A parameter with `name` has a last occurrence, whose value lives in the map. */
  lemma LastParamOf(params: seq<ResolverParameter>, name: string) returns (i: int)
    requires name in ParamsMap(params)
    ensures IsLastParam(params, i, name) && ParamsMap(params)[name] == params[i].value
  {
    ParamsMapLastWins(params);
    var i0 :| 0 <= i0 < |params| && params[i0].name == name;
    i := i0;
    while exists j :: i < j < |params| && params[j].name == name
      invariant 0 <= i < |params| && params[i].name == name
      decreases |params| - i
    {
      var j :| i < j < |params| && params[j].name == name;
      i := j;
    }
  }

  /** The resolver parameter as the Go map lookup sees it: the last value
      given, or "" when there is none. */
  ghost predicate ParamIs(params: seq<ResolverParameter>, name: string, value: string) {
    (exists i :: IsLastParam(params, i, name) && params[i].value == value)
    || (value == "" && forall i :: 0 <= i < |params| ==> params[i].name != name)
  }

  lemma LastParamUnique(params: seq<ResolverParameter>, i: int, i': int, name: string)
    requires IsLastParam(params, i, name) && IsLastParam(params, i', name)
    ensures i == i'
  {
  }

  lemma LookupParamIs(params: seq<ResolverParameter>, name: string)
    ensures ParamIs(params, name, Lookup(ParamsMap(params), name))
    ensures forall v :: ParamIs(params, name, v) ==> v == Lookup(ParamsMap(params), name)
  {
    ParamsMapLastWins(params);
    if name in ParamsMap(params) {
      var i := LastParamOf(params, name);
      forall v | ParamIs(params, name, v) ensures v == Lookup(ParamsMap(params), name) {
        if exists i' :: IsLastParam(params, i', name) && params[i'].value == v {
          var i' :| IsLastParam(params, i', name) && params[i'].value == v;
          LastParamUnique(params, i, i', name);
        }
      }
    }
  }

  /** Builds the parameter map in a loop, as the reconciler does. */
  method ResolverParamsToMap(params: seq<ResolverParameter>) returns (result: map<string, string>)
    ensures result == ParamsMap(params)
  {
    result := map[];
    var i := 0;
    while i < |params|
      invariant 0 <= i <= |params|
      invariant result == ParamsMap(params[..i])
    {
      assert params[..i + 1][..i] == params[..i];
      result := result[params[i].name := params[i].value];
      i := i + 1;
    }
    assert params[..|params|] == params;
  }

  // ---------------------------------------------------------------------
  // Pinning the test definition to the commit under test

  /** Whether the scenario's git resolver is to be pointed at the snapshot's
      own source: only for snapshots that do not come from a push event, only
      for the git resolver, only when the resolver's revision is the target
      branch, and only when its URL is the repository's URL (compared after
      normalising both). */
  function ShouldUpdateIntegrationTestGitResolver(scenario: Scenario, snapshot: SnapshotInfo): bool {
    if snapshot.pushEvent then false
    else if scenario.resolverRef.resolver != TektonResolverGit then false
    else
      var annotations := snapshot.annotations;
      var params := ParamsMap(scenario.resolverRef.params);
      if Lookup(annotations, TargetBranchAnnotation) != Lookup(params, ParamRevision) then false
      else if ParamUrl in params then
        UrlToGitUrl(params[ParamUrl]) == UrlToGitUrl(Lookup(annotations, RepoUrlAnnotation))
      else false
  }

  /** The pinning decision in terms of the parameter list itself: true
      exactly when all four conditions hold, the last `url` and `revision`
      parameters being the ones that count. */
  lemma ShouldUpdateIff(scenario: Scenario, snapshot: SnapshotInfo)
    ensures ShouldUpdateIntegrationTestGitResolver(scenario, snapshot) <==>
      && !snapshot.pushEvent
      && scenario.resolverRef.resolver == TektonResolverGit
      && ParamIs(scenario.resolverRef.params, ParamRevision, Lookup(snapshot.annotations, TargetBranchAnnotation))
      && exists i :: IsLastParam(scenario.resolverRef.params, i, ParamUrl)
           && UrlToGitUrl(scenario.resolverRef.params[i].value)
              == UrlToGitUrl(Lookup(snapshot.annotations, RepoUrlAnnotation))
  {
    var params := scenario.resolverRef.params;
    var m := ParamsMap(params);
    LookupParamIs(params, ParamRevision);
    ParamsMapLastWins(params);
    if ParamUrl in m {
      var i := LastParamOf(params, ParamUrl);
      forall i' | IsLastParam(params, i', ParamUrl) ensures i' == i {
        LastParamUnique(params, i, i', ParamUrl);
      }
    }
  }

  /** The replacement parameters: exactly `url` and `revision`, the URL being
      the snapshot's source repository (normalised) and the revision its
      commit. */
  function GetGitResolverUpdateMap(snapshot: SnapshotInfo): (r: map<string, string>)
    ensures r.Keys == {ParamUrl, ParamRevision}
    ensures HasSuffix(r[ParamUrl], GitSuffix)
    ensures r[ParamUrl] == UrlToGitUrl(Lookup(snapshot.annotations, SourceRepoUrlAnnotation))
    ensures r[ParamRevision] == Lookup(snapshot.annotations, ShaAnnotation)
  {
    map[ParamUrl := UrlToGitUrl(Lookup(snapshot.annotations, SourceRepoUrlAnnotation)),
        ParamRevision := Lookup(snapshot.annotations, ShaAnnotation)]
  }
}
