/** The wizard's progress list: which steps are done, which one is current,
    and what each step's circle and connector show. */
module Stepper {
  datatype Step = Step(title: string, description: string)

  /** What a step's circle holds. */
  datatype Marker = CheckMark | Number(n: nat)

  /** The circle's colour: done, current or still to come. */
  datatype Circle = Done | Current | Upcoming

  datatype StepView = StepView(
    title: string, description: string, isActive: bool, isCompleted: bool,
    connector: bool, marker: Marker, circle: Circle)

  /** One entry of the `steps.map`: the step numbered `index + 1`. */
  function ViewOf(steps: seq<Step>, index: nat, currentStep: int): StepView
    requires index < |steps|
  {
    var stepNumber := index + 1;
    var isActive := stepNumber == currentStep;
    var isCompleted := stepNumber < currentStep;
    StepView(steps[index].title, steps[index].description, isActive, isCompleted,
             index != |steps| - 1,
             if isCompleted then CheckMark else Number(stepNumber),
             if isCompleted then Done else if isActive then Current else Upcoming)
  }

  /** The rendered list, one view per step and in the steps' order. */
  function Views(steps: seq<Step>, currentStep: int): (r: seq<StepView>)
    ensures |r| == |steps|
    ensures forall k :: 0 <= k < |r| ==> r[k].title == steps[k].title && r[k].description == steps[k].description
    ensures forall k :: 0 <= k < |r| ==> (r[k].isCompleted <==> k + 1 < currentStep)
    ensures forall k :: 0 <= k < |r| ==> (r[k].isActive <==> k + 1 == currentStep)
    ensures forall k :: 0 <= k < |r| ==> (r[k].connector <==> k < |steps| - 1)
    ensures forall k :: 0 <= k < |r| ==> r[k].marker == (if r[k].isCompleted then CheckMark else Number(k + 1))
  {
    seq(|steps|, k requires 0 <= k < |steps| => ViewOf(steps, k, currentStep))
  }

  /** No step is both done and current; the circle says which of the three a step is. */
  lemma NeverBoth(steps: seq<Step>, currentStep: int, k: nat)
    requires k < |steps|
    ensures !(Views(steps, currentStep)[k].isActive && Views(steps, currentStep)[k].isCompleted)
    ensures Views(steps, currentStep)[k].circle == Done <==> Views(steps, currentStep)[k].isCompleted
    ensures Views(steps, currentStep)[k].circle == Current <==> Views(steps, currentStep)[k].isActive
  {
    assert Views(steps, currentStep)[k] == ViewOf(steps, k, currentStep);
  }

  /** In range, exactly one step is current and the ones before it are done;
      out of range no step is current. */
  lemma ExactlyOneActive(steps: seq<Step>, currentStep: int)
    ensures 1 <= currentStep <= |steps| ==>
              && Views(steps, currentStep)[currentStep - 1].isActive
              && forall k :: 0 <= k < |steps| && Views(steps, currentStep)[k].isActive ==> k == currentStep - 1
    ensures 1 <= currentStep <= |steps| ==>
              forall k :: 0 <= k < |steps| ==> (Views(steps, currentStep)[k].isCompleted <==> k < currentStep - 1)
    ensures !(1 <= currentStep <= |steps|) ==>
              forall k :: 0 <= k < |steps| ==> !Views(steps, currentStep)[k].isActive
  {
  }
}
