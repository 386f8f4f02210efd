/** The per-scenario test-status ledger that the reconciler keeps in an
    annotation of the snapshot: scenario name to status, message and the
    name of the integration pipeline run created for the scenario. */
module TestLedger {
  import opened Types

  datatype TestState = Pending | InProgress | Passed | Failed | TestInvalid

  datatype TestStatus = TestStatus(state: TestState, message: string, pipelineRunName: string)

  type Ledger = map<string, TestStatus>

  const PendingMessage := "Pending"

  /** The entry of a scenario that has not run yet. */
  const InitialStatus := TestStatus(Pending, PendingMessage, "")

  /** The ledger records a pipeline run for the scenario: the reconciler's
      only evidence that a run was already created, since the run object
      itself may have been pruned. */
  predicate Registered(ledger: Ledger, name: string) {
    name in ledger && ledger[name].pipelineRunName != ""
  }

  function NameSet(names: seq<string>): set<string> {
    set i | 0 <= i < |names| :: names[i]
  }

  /** Adds a pending entry for every name that has none; entries that exist
      are kept as they are and none is removed. */
  function InitStatuses(ledger: Ledger, names: seq<string>): (r: Ledger)
    ensures r.Keys == ledger.Keys + NameSet(names)
    ensures forall k :: k in ledger ==> r[k] == ledger[k]
    ensures forall k :: k in r && k !in ledger ==> r[k] == InitialStatus
  {
    map k | k in ledger.Keys + NameSet(names) :: if k in ledger then ledger[k] else InitialStatus
  }

  /** Initialising twice with the same names changes nothing the second time. */
  lemma InitStatusesIdempotent(ledger: Ledger, names: seq<string>)
    ensures InitStatuses(InitStatuses(ledger, names), names) == InitStatuses(ledger, names)
  {
  }

  /** Sets the state (and message) of a scenario, creating the entry when
      there is none. An entry already in that state is not rewritten. */
  function UpdateTestStatusIfChanged(ledger: Ledger, name: string, state: TestState, message: string): (r: Ledger)
    ensures r.Keys == ledger.Keys + {name}
    ensures forall k :: k in ledger && k != name ==> r[k] == ledger[k]
    ensures r[name].state == state
    ensures name in ledger ==> r[name].pipelineRunName == ledger[name].pipelineRunName
    ensures name !in ledger ==> r[name].pipelineRunName == ""
    ensures name in ledger && ledger[name].state == state ==> r == ledger
  {
    if name in ledger && ledger[name].state == state then ledger
    else if name in ledger then ledger[name := ledger[name].(state := state, message := message)]
    else ledger[name := TestStatus(state, message, "")]
  }

  /** Puts a scenario back to pending with no pipeline run, before a rerun. */
  function ResetStatus(ledger: Ledger, name: string): (r: Ledger)
    ensures r.Keys == ledger.Keys + {name}
    ensures forall k :: k in ledger && k != name ==> r[k] == ledger[k]
    ensures r[name] == InitialStatus && !Registered(r, name)
  {
    ledger[name := InitialStatus]
  }

  /** Records the pipeline run of a scenario; fails with NotFound when the
      scenario has no entry. */
  function UpdateTestPipelineRunName(ledger: Ledger, name: string, run: string): (r: Result<Ledger>)
    ensures r.Err? <==> name !in ledger
    ensures r.Err? ==> r.error == NotFound
    ensures r.Ok? ==> r.value.Keys == ledger.Keys && r.value[name].pipelineRunName == run
    ensures r.Ok? ==> r.value[name].state == ledger[name].state
    ensures r.Ok? ==> forall k :: k in ledger && k != name ==> r.value[k] == ledger[k]
  {
    if name in ledger then Ok(ledger[name := ledger[name].(pipelineRunName := run)]) else Err(NotFound)
  }

  /** The reconciler logs a failure to record the run name and goes on with
      the ledger it had. */
  function RecordRunName(ledger: Ledger, name: string, run: string): Ledger {
    match UpdateTestPipelineRunName(ledger, name, run)
    case Ok(l) => l
    case Err(_) => ledger
  }
}
