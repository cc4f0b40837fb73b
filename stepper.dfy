/** The chevron progress bar on a project page: seven production steps,
    each drawn as completed, current or still to come relative to the
    project's current phase. */
module Stepper {

  datatype StepDef = StepDef(id: int, name: string)

  const STEPS: seq<StepDef> := [
    StepDef(1, "開始"), StepDef(2, "ヒアリング"), StepDef(3, "シナリオ"),
    StepDef(4, "字コンテ"), StepDef(5, "絵コンテ"), StepDef(6, "動画編集"),
    StepDef(7, "納品")
  ]

  /** The clip-path chosen for a chevron: pointed only on the right for
      the first, notched only on the left for the last, both for the others. */
  datatype Shape = FirstShape | MiddleShape | LastShape

  /** What one chevron shows. */
  datatype StepView = StepView(
    id: int,
    name: string,
    isCompleted: bool,
    isCurrent: bool,
    isFuture: bool,
    showsCheck: bool,
    shape: Shape,
    overlapsPrevious: bool)

  function ShapeAt(index: nat, count: nat): Shape
  {
    if index == 0 then FirstShape
    else if index == count - 1 then LastShape
    else MiddleShape
  }

  function ViewOf(step: StepDef, index: nat, currentPhase: int): StepView
  {
    StepView(
      step.id,
      step.name,
      step.id < currentPhase,
      step.id == currentPhase,
      step.id > currentPhase,
      step.id < currentPhase,
      ShapeAt(index, |STEPS|),
      index != 0)
  }

  /** The bar as drawn: one chevron per step, in step order. */
  function Render(currentPhase: int): (r: seq<StepView>)
    ensures |r| == |STEPS|
    ensures forall i :: 0 <= i < |r| ==> r[i] == ViewOf(STEPS[i], i, currentPhase)
  {
    seq(|STEPS|, i requires 0 <= i < |STEPS| => ViewOf(STEPS[i], i, currentPhase))
  }

  /** The steps are numbered 1 to 7 in display order. */
  lemma StepIds(i: nat)
    requires i < |STEPS|
    ensures |STEPS| == 7 && STEPS[i].id == i + 1
  {
  }

  /** Each step is in exactly one state, decided by its position against the
      current phase, and carries the check mark exactly when completed. */
  lemma ExactlyOneState(currentPhase: int, i: nat)
    requires i < |STEPS|
    ensures var v := Render(currentPhase)[i];
      && (v.isCompleted <==> i + 1 < currentPhase)
      && (v.isCurrent <==> i + 1 == currentPhase)
      && (v.isFuture <==> i + 1 > currentPhase)
      && (v.isCompleted || v.isCurrent || v.isFuture)
      && !(v.isCompleted && v.isCurrent) && !(v.isCurrent && v.isFuture) && !(v.isCompleted && v.isFuture)
      && v.showsCheck == v.isCompleted
  {
    StepIds(i);
  }

  /** At most one step is current, and one is exactly when the phase is
      between 1 and 7. */
  lemma OneCurrentStep(currentPhase: int)
    ensures forall i, j :: 0 <= i < j < |STEPS| ==> !(Render(currentPhase)[i].isCurrent && Render(currentPhase)[j].isCurrent)
    ensures (exists i :: 0 <= i < |STEPS| && Render(currentPhase)[i].isCurrent) <==> 1 <= currentPhase <= 7
  {
    var r := Render(currentPhase);
    forall i | 0 <= i < |STEPS| ensures r[i].isCurrent <==> i + 1 == currentPhase {
      StepIds(i);
    }
    if 1 <= currentPhase <= 7 {
      assert r[currentPhase - 1].isCurrent;
    }
  }

  /** Completed steps come first and future steps last: if a step is
      completed so is every step before it, and if a step is still to come
      so is every step after it. */
  lemma StatesOrdered(currentPhase: int, i: nat, j: nat)
    requires i < j < |STEPS|
    ensures Render(currentPhase)[j].isCompleted ==> Render(currentPhase)[i].isCompleted
    ensures Render(currentPhase)[i].isFuture ==> Render(currentPhase)[j].isFuture
  {
    StepIds(i);
    StepIds(j);
  }

  /** The first chevron has the first shape, the last the last shape, the
      others the middle shape; all but the first overlap their left
      neighbour. */
  lemma ShapesByPosition(currentPhase: int, i: nat)
    requires i < |STEPS|
    ensures var v := Render(currentPhase)[i];
      && (v.shape == FirstShape <==> i == 0)
      && (v.shape == LastShape <==> i == |STEPS| - 1)
      && (v.shape == MiddleShape <==> 0 < i < |STEPS| - 1)
      && (v.overlapsPrevious <==> i != 0)
  {
  }
}
