/** The progress bar of the web client: which of the three displayed stages
    (download, transcription, sheet generation) is done, active or pending
    for the step a job reports. */
module ProgressBar {
  import opened Util

  /** `STEP_ORDER`: the steps of a run, in order. */
  const StepOrder: seq<string> := ["queued", "downloading", "downloaded", "transcribing", "transcribed", "generating", "complete"]

  /** The keys of `STEPS`, the three stages shown. */
  const StageKeys: seq<string> := ["downloading", "transcribing", "generating"]

  /** `Array.prototype.indexOf`: the first index of `x` in `s`, or -1. */
  function IndexOf(s: seq<string>, x: string): int {
    IndexFrom(s, x, 0)
  }

  function IndexFrom(s: seq<string>, x: string, i: nat): int
    requires i <= |s|
    decreases |s| - i
  {
    if i == |s| then -1
    else if s[i] == x then i
    else IndexFrom(s, x, i + 1)
  }

  lemma {:induction false} IndexFromFinds(s: seq<string>, x: string, i: nat)
    requires i <= |s|
    ensures var r := IndexFrom(s, x, i);
      && (r == -1 || i <= r < |s|)
      && (r == -1 <==> forall k | i <= k < |s| :: s[k] != x)
      && (r >= 0 ==> s[r] == x && forall k | i <= k < r :: s[k] != x)
    decreases |s| - i
  {
    if i < |s| && s[i] != x {
      IndexFromFinds(s, x, i + 1);
    }
  }

  /** `IndexOf` finds the first occurrence, and -1 exactly when there is
      none. */
  lemma IndexOfFinds(s: seq<string>, x: string)
    ensures -1 <= IndexOf(s, x) < |s|
    ensures IndexOf(s, x) == -1 <==> x !in s
    ensures IndexOf(s, x) >= 0 ==> s[IndexOf(s, x)] == x && forall k | 0 <= k < IndexOf(s, x) :: s[k] != x
  {
    IndexFromFinds(s, x, 0);
  }

  /** `status?.step || 'queued'`: a missing or empty step reads as queued. */
  function CurrentStep(step: Option<string>): string {
    if Truthy(step) then step.value else "queued"
  }

  datatype StageState = Done | Active | Pending

  /** Whether `currentStep` is one of the two steps that make `stageKey`
      active. */
  predicate ActivatesStage(stageKey: string, currentStep: string) {
    || (stageKey == "downloading" && currentStep in ["downloading", "downloaded"])
    || (stageKey == "transcribing" && currentStep in ["transcribing", "transcribed"])
    || (stageKey == "generating" && currentStep in ["generating", "complete"])
  }

  /** `getStepState`. */
  function GetStepState(currentStep: string, stageKey: string): StageState {
    var currentIndex := IndexOf(StepOrder, currentStep);
    var stageIndex := IndexOf(StepOrder, stageKey);
    if currentIndex > stageIndex + 1 then Done
    else if ActivatesStage(stageKey, currentStep) then Active
    else if currentIndex > stageIndex then Done
    else Pending
  }

  /** The states of the three stages, in display order. */
  function StageStates(currentStep: string): (r: seq<StageState>)
    ensures |r| == |StageKeys|
  {
    [GetStepState(currentStep, StageKeys[0]), GetStepState(currentStep, StageKeys[1]), GetStepState(currentStep, StageKeys[2])]
  }

  /** The stage keys sit at positions 1, 3 and 5 of `StepOrder`. */
  lemma StageIndices()
    ensures IndexOf(StepOrder, "downloading") == 1
    ensures IndexOf(StepOrder, "transcribing") == 3
    ensures IndexOf(StepOrder, "generating") == 5
  {
    assert StepOrder[1] == "downloading";
    assert StepOrder[3] == "transcribing";
    assert StepOrder[5] == "generating";
  }

  /** What the bar shows for the step at position `i` of `StepOrder`. */
  function Expected(i: int): seq<StageState> {
    if i <= 0 then [Pending, Pending, Pending]
    else if i <= 2 then [Active, Pending, Pending]
    else if i <= 4 then [Done, Active, Pending]
    else [Done, Done, Active]
  }

  lemma StatesOfListedStep(i: nat)
    requires i < |StepOrder|
    ensures StageStates(StepOrder[i]) == Expected(i)
  {
    match i
    case 0 => assert StageStates("queued") == Expected(0);
    case 1 => assert StageStates("downloading") == Expected(1);
    case 2 => assert StageStates("downloaded") == Expected(2);
    case 3 => assert StageStates("transcribing") == Expected(3);
    case 4 => assert StageStates("transcribed") == Expected(4);
    case 5 => assert StageStates("generating") == Expected(5);
    case 6 => assert StageStates("complete") == Expected(6);
  }

  /** A step that `StepOrder` does not list activates no stage and is behind
      every stage. */
  lemma StatesOfUnlistedStep(currentStep: string)
    requires currentStep !in StepOrder
    ensures StageStates(currentStep) == [Pending, Pending, Pending]
  {
    StageIndices();
    assert forall k | 0 <= k < 3 :: !ActivatesStage(StageKeys[k], currentStep) by {
      assert "downloaded" == StepOrder[2] && "transcribed" == StepOrder[4] && "complete" == StepOrder[6];
    }
  }

  /** The stage states a reported step gives, by the position of the step in
      `StepOrder`; a step that is not listed there (an error, or an unknown
      value) counts as not started. */
  lemma StageStatesByIndex(currentStep: string)
    ensures StageStates(currentStep) == Expected(IndexOf(StepOrder, currentStep))
  {
    var i := IndexOf(StepOrder, currentStep);
    IndexOfFinds(StepOrder, currentStep);
    if i >= 0 {
      StatesOfListedStep(i);
    } else {
      StatesOfUnlistedStep(currentStep);
    }
  }

  /** The table the bar shows: nothing started while queued, after an error
      or for a missing or unknown step; each stage active over its two steps;
      and `complete` still showing generation as active. */
  lemma StageTable(step: Option<string>)
    ensures CurrentStep(step) in ["queued", "error"] || CurrentStep(step) !in StepOrder
      ==> StageStates(CurrentStep(step)) == [Pending, Pending, Pending]
    ensures CurrentStep(step) in ["downloading", "downloaded"] ==> StageStates(CurrentStep(step)) == [Active, Pending, Pending]
    ensures CurrentStep(step) in ["transcribing", "transcribed"] ==> StageStates(CurrentStep(step)) == [Done, Active, Pending]
    ensures CurrentStep(step) in ["generating", "complete"] ==> StageStates(CurrentStep(step)) == [Done, Done, Active]
    ensures !Truthy(step) ==> StageStates(CurrentStep(step)) == [Pending, Pending, Pending]
  {
    var c := CurrentStep(step);
    StageStatesByIndex(c);
    assert IndexOf(StepOrder, "queued") == 0;
    assert IndexOf(StepOrder, "downloaded") == 2;
    assert IndexOf(StepOrder, "transcribed") == 4;
    assert IndexOf(StepOrder, "complete") == 6;
    assert "error" !in StepOrder;
  }

  function Rank(s: StageState): nat {
    match s
    case Done => 2
    case Active => 1
    case Pending => 0
  }

  /** Stage states read as some done, then at most one active, then the
      pending ones. */
  ghost predicate WellShaped(states: seq<StageState>) {
    && (forall a, b | 0 <= a < b < |states| :: Rank(states[a]) >= Rank(states[b]))
    && (forall a, b | 0 <= a < b < |states| :: !(states[a] == Active && states[b] == Active))
  }

  /** For every step the stages are well shaped. */
  lemma StageStatesShape(currentStep: string)
    ensures WellShaped(StageStates(currentStep))
  {
    var i := IndexOf(StepOrder, currentStep);
    StageStatesByIndex(currentStep);
    var e := Expected(i);
    assert WellShaped(e);
  }

  /** Whether `getStepState` would reach its second "done" test and take
      it. */
  predicate TakesFallback(currentStep: string, stageKey: string) {
    var currentIndex := IndexOf(StepOrder, currentStep);
    var stageIndex := IndexOf(StepOrder, stageKey);
    && !(currentIndex > stageIndex + 1)
    && !ActivatesStage(stageKey, currentStep)
    && currentIndex > stageIndex
  }

  /** For the three stages the second "done" test never decides: every step
      past a stage either is two or more steps past it or activates it. */
  lemma FallbackUnreachable(currentStep: string, k: nat)
    requires k < |StageKeys|
    ensures !TakesFallback(currentStep, StageKeys[k])
  {
    assert IndexOf(StepOrder, "downloading") == 1;
    assert IndexOf(StepOrder, "transcribing") == 3;
    assert IndexOf(StepOrder, "generating") == 5;
    var i := IndexOf(StepOrder, currentStep);
    if i >= 0 {
      assert StepOrder[i] == currentStep;
    }
  }
}
