/**
 * The group form: a name and a colour, filled from the group being edited,
 * the submit handler, and the delete button shown for an existing group.
 */
module GroupForm {
  import opened Options
  import opened Types
  import Text

  /** `GROUP_COLORS`, the colour choices offered by the form. */
  const Palette: seq<string> :=
    ["#6366f1", "#8b5cf6", "#a855f7", "#ec4899", "#f43f5e", "#f59e0b", "#10b981", "#06b6d4"]

  datatype FormState = FormState(name: string, color: string)

  /** The initial state: no name and the first palette colour. */
  const Defaults := FormState("", Palette[0])

  function Prefill(g: Group): (f: FormState)
    ensures f.name == g.name && f.color == g.color
  {
    FormState(g.name, g.color)
  }

  /** `handleSubmit`: nothing is saved when the name is blank; otherwise the name is trimmed. */
  function Submit(f: FormState): (r: Option<GroupDraft>)
    ensures r.None? <==> Text.IsBlank(f.name)
    ensures r.Some? ==> r.value.name == Text.Trim(f.name) && r.value.name != "" && Text.IsTrimmed(r.value.name)
    ensures r.Some? ==> r.value.color == f.color
  {
    if Text.Trim(f.name) == "" then None else Some(GroupDraft(Text.Trim(f.name), f.color))
  }

  /** Opening a group whose name is non-blank and trimmed and submitting it unchanged reproduces it. */
  lemma PrefillSubmitRoundTrip(g: Group)
    requires g.name != "" && Text.IsTrimmed(g.name)
    ensures Submit(Prefill(g)) == Some(GroupDraft(g.name, g.color))
  {
    Text.TrimOfTrimmed(g.name);
  }

  /** Submitting is idempotent: resubmitting the saved name gives the same draft. */
  lemma SubmitIsStable(f: FormState)
    requires Submit(f).Some?
    ensures Submit(FormState(Submit(f).value.name, Submit(f).value.color)) == Submit(f)
  {
    Text.TrimIdempotent(f.name);
  }

  /** A callback the delete button invokes, in order. */
  datatype Effect = CallDelete(id: string) | CallClose

  /**
   * The delete button: present only for an existing group when an
   * `onDelete` handler was given; clicking it deletes that group, then
   * closes the form.
   */
  function DeleteButton(group: Option<Group>, hasOnDelete: bool): (r: Option<seq<Effect>>)
    ensures r.Some? <==> group.Some? && hasOnDelete
    ensures r.Some? ==> r.value == [CallDelete(group.value.id), CallClose]
  {
    if group.Some? && hasOnDelete then Some([CallDelete(group.value.id), CallClose]) else None
  }

  /** The form's state: `useState` hooks written by the inputs and the prefill effect. */
  class Editor {
    var name: string
    var color: string

    function State(): FormState
      reads this
    {
      FormState(name, color)
    }

    constructor ()
      ensures State() == Defaults
    {
      name, color := "", Palette[0];
    }

    /** The effect that runs when the `group` prop changes. */
    method OnGroupChange(group: Option<Group>)
      modifies this
      ensures group.Some? ==> State() == Prefill(group.value)
      ensures group.None? ==> State() == old(State())
    {
      if group.Some? {
        name, color := group.value.name, group.value.color;
      }
    }

    /** Picking a swatch. */
    method PickColor(c: string)
      modifies this
      ensures color == c && name == old(name)
    {
      color := c;
    }

    /** `handleSubmit`: the draft for `onSave`, or `None` when submission is blocked. */
    method HandleSubmit() returns (r: Option<GroupDraft>)
      ensures r == Submit(State())
      ensures r.None? <==> Text.IsBlank(name)
    {
      r := Submit(State());
    }
  }
}
