/**
 * The procedure editor shown when work on a task starts: an editable,
 * never-empty list of step strings, and the save handler that keeps the
 * non-blank steps, trimmed and in order.
 */
module Procedure {
  import Text

  /** What saving ends in: `onSave(steps)` or `onSkip()`. */
  datatype Outcome = Saved(steps: seq<string>) | Skipped

  /** `steps.map(s => s.trim()).filter(Boolean)` */
  function CleanSteps(steps: seq<string>): (r: seq<string>)
    ensures |r| <= |steps|
  {
    if |steps| == 0 then []
    else if |Text.Trim(steps[0])| == 0 then CleanSteps(steps[1..])
    else [Text.Trim(steps[0])] + CleanSteps(steps[1..])
  }

  /** Every kept step is non-empty and trimmed, and nothing is added. */
  lemma {:induction false} CleanStepsNormalised(steps: seq<string>)
    ensures |CleanSteps(steps)| <= |steps|
    ensures forall j :: 0 <= j < |CleanSteps(steps)| ==>
      CleanSteps(steps)[j] != "" && Text.IsTrimmed(CleanSteps(steps)[j])
  {
    if |steps| > 0 {
      CleanStepsNormalised(steps[1..]);
    }
  }

  /**
   * Nothing is kept exactly when every step is blank, and every non-blank
   * step is kept in its trimmed form.
   */
  lemma {:induction false} CleanStepsKeeps(steps: seq<string>)
    ensures CleanSteps(steps) == [] <==> forall j :: 0 <= j < |steps| ==> Text.IsBlank(steps[j])
    ensures forall j :: 0 <= j < |steps| && !Text.IsBlank(steps[j]) ==> Text.Trim(steps[j]) in CleanSteps(steps)
  {
    if |steps| > 0 {
      var rest := CleanSteps(steps[1..]);
      CleanStepsKeeps(steps[1..]);
      forall j | 0 <= j < |steps| && !Text.IsBlank(steps[j]) ensures Text.Trim(steps[j]) in CleanSteps(steps) {
        if j == 0 {
          assert CleanSteps(steps)[0] == Text.Trim(steps[0]);
        } else {
          assert steps[j] == steps[1..][j - 1];
        }
      }
      assert forall j :: 1 <= j < |steps| ==> steps[j] == steps[1..][j - 1];
    }
  }

  /** Cleaning works step by step: the steps of a concatenation are cleaned in place, in order. */
  lemma {:induction false} CleanStepsAppend(a: seq<string>, b: seq<string>)
    ensures CleanSteps(a + b) == CleanSteps(a) + CleanSteps(b)
  {
    if |a| == 0 {
      assert a + b == b;
    } else {
      assert (a + b)[0] == a[0];
      assert (a + b)[1..] == a[1..] + b;
      CleanStepsAppend(a[1..], b);
    }
  }

  /** Cleaning a cleaned list changes nothing. */
  lemma {:induction false} CleanStepsIdempotent(steps: seq<string>)
    ensures CleanSteps(CleanSteps(steps)) == CleanSteps(steps)
  {
    if |steps| > 0 {
      CleanStepsIdempotent(steps[1..]);
      var rest := CleanSteps(steps[1..]);
      if |Text.Trim(steps[0])| != 0 {
        Text.TrimIdempotent(steps[0]);
        assert ([Text.Trim(steps[0])] + rest)[1..] == rest;
      }
    }
  }

  /** A blank step keeps nothing. */
  lemma CleanBlankStep(x: string)
    requires Text.IsBlank(x)
    ensures CleanSteps([x]) == []
  {
    assert |Text.Trim(x)| == 0;
  }

  /** A blank step, wherever it sits, never changes what is saved. */
  lemma BlankStepIgnored(before: seq<string>, x: string, after: seq<string>)
    requires Text.IsBlank(x)
    ensures CleanSteps(before + [x] + after) == CleanSteps(before + after)
  {
    CleanBlankStep(x);
    CleanStepsAppend(before, [x]);
    CleanStepsAppend(before + [x], after);
    CleanStepsAppend(before, after);
  }

  /** `steps.filter((_, i) => i !== index)`: drops entry `index`, keeping the others in order. */
  function RemoveAt(steps: seq<string>, index: int): (r: seq<string>)
    ensures 0 <= index < |steps| ==> |r| == |steps| - 1
    ensures 0 <= index < |steps| ==>
      forall j :: 0 <= j < |r| ==> r[j] == (if j < index then steps[j] else steps[j + 1])
    ensures !(0 <= index < |steps|) ==> r == steps
  {
    if 0 <= index < |steps| then steps[..index] + steps[index + 1..] else steps
  }

  /** Removing the step just added gives the list back. */
  lemma RemoveAddedStep(steps: seq<string>)
    ensures RemoveAt(steps + [""], |steps|) == steps
  {
  }

  /** The editor's state: the `steps` hook. */
  class StepEditor {
    var steps: seq<string>

    /** There is always at least one input. */
    ghost predicate Valid()
      reads this
    {
      |steps| >= 1
    }

    /** The editor opens with one empty step. */
    constructor ()
      ensures steps == [""] && Valid()
    {
      steps := [""];
    }

    /** `addStep`: appends an empty step. */
    method AddStep()
      modifies this
      ensures steps == old(steps) + [""] && Valid()
    {
      steps := steps + [""];
    }

    /** `updateStep(index, value)`: rewrites one step. */
    method UpdateStep(index: nat, value: string)
      requires index < |steps|
      modifies this
      ensures |steps| == |old(steps)| && steps[index] == value
      ensures forall j :: 0 <= j < |steps| && j != index ==> steps[j] == old(steps)[j]
      ensures old(Valid()) ==> Valid()
    {
      steps := steps[index := value];
    }

    /** `removeStep(index)`: drops a step, unless it is the only one. */
    method RemoveStep(index: int)
      modifies this
      ensures |old(steps)| == 1 ==> steps == old(steps)
      ensures |old(steps)| != 1 ==> steps == RemoveAt(old(steps), index)
      ensures old(Valid()) ==> Valid()
    {
      if |steps| == 1 {
        return;
      }
      steps := RemoveAt(steps, index);
    }

    /** The `Enter` branch of `handleKeyDown`: on the last step it adds another. */
    method HandleKeyDown(key: string, index: int)
      modifies this
      ensures key == "Enter" && index == |old(steps)| - 1 ==> steps == old(steps) + [""]
      ensures !(key == "Enter" && index == |old(steps)| - 1) ==> steps == old(steps)
      ensures old(Valid()) ==> Valid()
    {
      if key == "Enter" && index == |steps| - 1 {
        AddStep();
      }
    }

    /** `handleSave`: saves the cleaned steps, or skips when every step is blank. */
    method HandleSave() returns (o: Outcome)
      ensures o.Skipped? <==> forall j :: 0 <= j < |steps| ==> Text.IsBlank(steps[j])
      ensures o.Saved? ==> o.steps == CleanSteps(steps) && o.steps != []
      ensures o.Saved? ==> forall j :: 0 <= j < |o.steps| ==> o.steps[j] != "" && Text.IsTrimmed(o.steps[j])
    {
      var valid := CleanSteps(steps);
      CleanStepsNormalised(steps);
      CleanStepsKeeps(steps);
      if |valid| > 0 {
        o := Saved(valid);
      } else {
        o := Skipped;
      }
    }
  }
}
