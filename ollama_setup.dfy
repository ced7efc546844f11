/**
 * The desktop setup screen: which of the install / start / pull steps is
 * current, when the parent is told that the service is ready, and the three
 * step indicators.
 */
module OllamaSetup {
  import TauriCommands

  const RequiredModel: string := "llama3.2"

  datatype SetupStep = Install | Start | Pull | Ready

  /** `hasModel(REQUIRED_MODEL)` on the hook's status. */
  predicate HasRequiredModel(status: TauriCommands.OllamaStatus)
  {
    TauriCommands.AnyStartsWith(status.models, RequiredModel)
  }

  /** `getSetupStep`: the first unmet requirement, checked in the order
      installed, running, model present. */
  function GetSetupStep(status: TauriCommands.OllamaStatus): (s: SetupStep)
    ensures s == Install <==> !status.installed
    ensures s == Start <==> status.installed && !status.running
    ensures s == Pull <==> status.installed && status.running && !HasRequiredModel(status)
    ensures s == Ready <==> (status.installed && status.running &&
      exists k :: 0 <= k < |status.models| && RequiredModel <= status.models[k])
  {
    if !status.installed then Install
    else if !status.running then Start
    else if !HasRequiredModel(status) then Pull
    else Ready
  }

  /** The parent's `onReady` is scheduled exactly when the step is ready and
      no check is in flight. */
  predicate ShouldNotifyReady(status: TauriCommands.OllamaStatus, isLoading: bool)
  {
    GetSetupStep(status) == Ready && !isLoading
  }

  lemma ShouldNotifyReadySpec(status: TauriCommands.OllamaStatus, isLoading: bool)
    ensures ShouldNotifyReady(status, isLoading) <==>
      status.installed && status.running && HasRequiredModel(status) && !isLoading
  {
  }

  /** One of the three step indicators: its number, whether it is the current
      step and whether its requirement is met. */
  datatype Indicator = Indicator(number: nat, title: string, active: bool, complete: bool)

  function Indicators(status: TauriCommands.OllamaStatus): (r: seq<Indicator>)
    ensures |r| == 3
    ensures r[0].complete == status.installed && r[1].complete == status.running &&
            r[2].complete == HasRequiredModel(status)
  {
    var step := GetSetupStep(status);
    [ Indicator(1, "Install", step == Install, status.installed),
      Indicator(2, "Start", step == Start, status.running),
      Indicator(3, "Model", step == Pull, HasRequiredModel(status)) ]
  }

  /** What an indicator's circle shows: a check mark when complete, else its
      number. */
  function Badge(ind: Indicator): (b: string)
    requires 1 <= ind.number <= 9
    ensures ind.complete ==> b == "✓"
    ensures !ind.complete ==> |b| == 1 && b[0] == '0' + ind.number as char
  {
    if ind.complete then "✓" else ['0' + ind.number as char]
  }

  /** The active indicator is the first incomplete one; none is active
      exactly when the step is ready, and an active one is never complete. */
  lemma IndicatorsSpec(status: TauriCommands.OllamaStatus)
    ensures forall k :: 0 <= k < 3 ==>
      (Indicators(status)[k].active <==>
        !Indicators(status)[k].complete && forall j :: 0 <= j < k ==> Indicators(status)[j].complete)
    ensures (forall k :: 0 <= k < 3 ==> !Indicators(status)[k].active) <==> GetSetupStep(status) == Ready
  {
    var r := Indicators(status);
    assert r[0].active == (GetSetupStep(status) == Install);
    assert r[1].active == (GetSetupStep(status) == Start);
    assert r[2].active == (GetSetupStep(status) == Pull);
  }
}
