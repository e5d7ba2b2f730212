/**
 * Task form: title, description, status and priority, filled with
 * defaults or from a task being edited, and the submit handler that
 * validates and normalises them into the data handed to `onSave`.
 */
module TaskForm {
  import opened Options
  import opened Types
  import Text

  /** The values of the four inputs. */
  datatype FormState = FormState(title: string, description: string, status: TaskStatus, priority: TaskPriority)

  /** What `onSave` receives; the `description` key is always present, possibly `undefined`. */
  datatype TaskData = TaskData(title: string, description: Option<string>, status: TaskStatus, priority: TaskPriority)

  /** The initial state: the `defaultStatus` prop, "todo" when it is not given, and medium priority. */
  function Defaults(defaultStatus: Option<TaskStatus>): (f: FormState)
    ensures f.title == "" && f.description == "" && f.priority == Medium
    ensures defaultStatus.Some? ==> f.status == defaultStatus.value
    ensures defaultStatus.None? ==> f.status == Todo
  {
    FormState("", "", if defaultStatus.Some? then defaultStatus.value else Todo, Medium)
  }

  /** What the prefill effect writes for an existing task: a missing description becomes "". */
  function Prefill(t: Task): (f: FormState)
    ensures f.title == t.title && f.status == t.status && f.priority == t.priority
    ensures f.description == "" <==> t.description.None? || t.description == Some("")
    ensures t.description.Some? ==> f.description == t.description.value
  {
    FormState(t.title, Text.OrEmpty(t.description), t.status, t.priority)
  }

  /**
   * `handleSubmit`: nothing is saved when the title is blank; otherwise
   * title and description are trimmed and a blank description becomes
   * `undefined`.
   */
  function Submit(f: FormState): (r: Option<TaskData>)
    ensures r.None? <==> Text.IsBlank(f.title)
    ensures r.Some? ==> r.value.title == Text.Trim(f.title) && r.value.title != ""
    ensures r.Some? ==> (r.value.description.None? <==> Text.IsBlank(f.description))
    ensures r.Some? && r.value.description.Some? ==> r.value.description.value == Text.Trim(f.description)
    ensures r.Some? ==> r.value.status == f.status && r.value.priority == f.priority
  {
    if Text.Trim(f.title) == "" then None
    else Some(TaskData(Text.Trim(f.title), Text.OrUndefined(Text.Trim(f.description)), f.status, f.priority))
  }

  /** Data the form could have produced: a non-blank trimmed title, a non-empty trimmed description. */
  predicate IsNormalised(d: TaskData)
  {
    && d.title != "" && Text.IsTrimmed(d.title)
    && (d.description.Some? ==> d.description.value != "" && Text.IsTrimmed(d.description.value))
  }

  /** Every submission is normalised. */
  lemma SubmitNormalises(f: FormState)
    requires Submit(f).Some?
    ensures IsNormalised(Submit(f).value)
  {
  }

  /** The form's view of a task. */
  function DataOf(t: Task): TaskData
  {
    TaskData(t.title, t.description, t.status, t.priority)
  }

  /** Opening a task in the form and submitting it unchanged reproduces its four fields. */
  lemma PrefillSubmitRoundTrip(t: Task)
    requires IsNormalised(DataOf(t))
    ensures Submit(Prefill(t)) == Some(DataOf(t))
  {
    Text.TrimOfTrimmed(t.title);
    if t.description.Some? {
      Text.TrimOfTrimmed(t.description.value);
    } else {
      Text.TrimOfTrimmed("");
    }
    assert Text.Trim(Prefill(t).title) != "";
  }

  /** Submitting a task's data, reopening that task and submitting again changes nothing. */
  lemma SubmitIsStable(f: FormState, t: Task)
    requires Submit(f).Some? && DataOf(t) == Submit(f).value
    ensures Submit(Prefill(t)) == Submit(f)
  {
    SubmitNormalises(f);
    PrefillSubmitRoundTrip(t);
  }

  /** The form's state: `useState` hooks written by the inputs and the prefill effect. */
  class Editor {
    var title: string
    var description: string
    var status: TaskStatus
    var priority: TaskPriority

    function State(): FormState
      reads this
    {
      FormState(title, description, status, priority)
    }

    /** The form as it mounts with the given `defaultStatus` prop. */
    constructor (defaultStatus: Option<TaskStatus>)
      ensures State() == Defaults(defaultStatus)
    {
      title, description := "", "";
      status := if defaultStatus.Some? then defaultStatus.value else Todo;
      priority := Medium;
    }

    /** The effect that runs when the `task` prop changes. */
    method OnTaskChange(task: Option<Task>)
      modifies this
      ensures task.Some? ==> State() == Prefill(task.value)
      ensures task.None? ==> State() == old(State())
    {
      if task.Some? {
        title := task.value.title;
        description := Text.OrEmpty(task.value.description);
        status := task.value.status;
        priority := task.value.priority;
      }
    }

    /** `handleSubmit`: the data for `onSave`, or `None` when submission is blocked. */
    method HandleSubmit() returns (r: Option<TaskData>)
      ensures r == Submit(State())
      ensures r.None? <==> Text.IsBlank(title)
    {
      r := Submit(State());
    }
  }
}
