/**
 * The project form: seven field states, filled with defaults or from the
 * project being edited, and the submit handler that validates and
 * normalises them into the record handed to `onSave`.
 */
module ProjectForm {
  import opened Options
  import opened Types
  import Text
  import Storage

  /** `PROJECT_COLORS`, the colour choices offered by the form. */
  const Palette: seq<string> :=
    ["#6366f1", "#8b5cf6", "#a855f7", "#ec4899", "#f43f5e", "#f59e0b", "#10b981", "#06b6d4"]

  /** The values of the seven inputs; "no group" is the empty option value. */
  datatype FormState = FormState(
    name: string,
    description: string,
    url: string,
    githubUrl: string,
    status: ProjectStatus,
    color: string,
    groupId: string)

  /** The initial state of a new project's form. */
  const Defaults := FormState("", "", "", "", Planned, Palette[0], "")

  /** What the prefill effect writes for an existing project: missing optionals become "". */
  function Prefill(p: Project): (f: FormState)
    ensures f.name == p.name && f.description == p.description
    ensures f.status == p.status && f.color == p.color
    ensures f.url == "" <==> p.url.None? || p.url == Some("")
    ensures f.githubUrl == "" <==> p.githubUrl.None? || p.githubUrl == Some("")
    ensures f.groupId == "" <==> p.groupId.None? || p.groupId == Some("")
    ensures p.url.Some? ==> f.url == p.url.value
    ensures p.githubUrl.Some? ==> f.githubUrl == p.githubUrl.value
    ensures p.groupId.Some? ==> f.groupId == p.groupId.value
  {
    FormState(p.name, p.description, Text.OrEmpty(p.url), Text.OrEmpty(p.githubUrl),
              p.status, p.color, Text.OrEmpty(p.groupId))
  }

  /**
   * `handleSubmit`: nothing is saved when the name is blank; otherwise the
   * strings are trimmed, blank links and "no group" become `undefined`, and
   * status and colour pass through.
   */
  function Submit(f: FormState): (r: Option<ProjectDraft>)
    ensures r.None? <==> Text.IsBlank(f.name)
    ensures r.Some? ==> r.value.name == Text.Trim(f.name) && r.value.name != ""
    ensures r.Some? ==> r.value.description == Text.Trim(f.description)
    ensures r.Some? ==> (r.value.url.None? <==> Text.IsBlank(f.url))
    ensures r.Some? && r.value.url.Some? ==> r.value.url.value == Text.Trim(f.url)
    ensures r.Some? ==> (r.value.githubUrl.None? <==> Text.IsBlank(f.githubUrl))
    ensures r.Some? && r.value.githubUrl.Some? ==> r.value.githubUrl.value == Text.Trim(f.githubUrl)
    ensures r.Some? ==> r.value.status == f.status && r.value.color == f.color
    ensures r.Some? ==> (r.value.groupId.None? <==> f.groupId == "")
    ensures r.Some? && r.value.groupId.Some? ==> r.value.groupId.value == f.groupId
  {
    if Text.Trim(f.name) == "" then None
    else Some(ProjectDraft(
      Text.Trim(f.name),
      Text.Trim(f.description),
      Text.OrUndefined(Text.Trim(f.url)),
      Text.OrUndefined(Text.Trim(f.githubUrl)),
      f.status,
      f.color,
      Text.OrUndefined(f.groupId)))
  }

  /** Every string a submission saves is trimmed, and no saved optional is empty. */
  lemma SubmitNormalises(f: FormState)
    requires Submit(f).Some?
    ensures var d := Submit(f).value;
      && Text.IsTrimmed(d.name) && Text.IsTrimmed(d.description)
      && (d.url.Some? ==> d.url.value != "" && Text.IsTrimmed(d.url.value))
      && (d.githubUrl.Some? ==> d.githubUrl.value != "" && Text.IsTrimmed(d.githubUrl.value))
      && (d.groupId.Some? ==> d.groupId.value != "")
  {
  }

  /** A draft the form could have produced: its name is non-blank and its strings are normalised. */
  predicate IsNormalised(d: ProjectDraft)
  {
    && d.name != "" && Text.IsTrimmed(d.name) && Text.IsTrimmed(d.description)
    && (d.url.Some? ==> d.url.value != "" && Text.IsTrimmed(d.url.value))
    && (d.githubUrl.Some? ==> d.githubUrl.value != "" && Text.IsTrimmed(d.githubUrl.value))
    && (d.groupId.Some? ==> d.groupId.value != "")
  }

  /** An optional link survives being shown in an input and submitted again. */
  lemma LinkRoundTrip(o: Option<string>)
    requires o.Some? ==> o.value != "" && Text.IsTrimmed(o.value)
    ensures Text.OrUndefined(Text.Trim(Text.OrEmpty(o))) == o
  {
    if o.Some? {
      Text.TrimOfTrimmed(o.value);
    } else {
      Text.TrimOfTrimmed("");
    }
  }

  /** Opening a project in the form and submitting it unchanged reproduces its fields. */
  lemma PrefillSubmitRoundTrip(p: Project)
    requires IsNormalised(Storage.ProjectDraftOf(p))
    ensures Submit(Prefill(p)) == Some(Storage.ProjectDraftOf(p))
  {
    var f := Prefill(p);
    Text.TrimOfTrimmed(p.name);
    Text.TrimOfTrimmed(p.description);
    LinkRoundTrip(p.url);
    LinkRoundTrip(p.githubUrl);
    Text.OrUndefinedOrEmpty(p.groupId);
    assert Text.Trim(f.name) != "";
  }

  /** Whatever the form saves, saving it again through the form gives the same record. */
  lemma SubmitIsStable(f: FormState, id: string, createdAt: string)
    requires Submit(f).Some?
    ensures Submit(Prefill(Storage.NewProject(Submit(f).value, id, createdAt))) == Submit(f)
  {
    var d := Submit(f).value;
    SubmitNormalises(f);
    assert IsNormalised(d);
    PrefillSubmitRoundTrip(Storage.NewProject(d, id, createdAt));
  }

  /** The form's state: `useState` hooks written by the inputs and the prefill effect. */
  class Editor {
    var name: string
    var description: string
    var url: string
    var githubUrl: string
    var status: ProjectStatus
    var color: string
    var groupId: string

    function State(): FormState
      reads this
    {
      FormState(name, description, url, githubUrl, status, color, groupId)
    }

    /** A fresh form: status "planned", the first palette colour, no group. */
    constructor ()
      ensures State() == Defaults
    {
      name, description, url, githubUrl := "", "", "", "";
      status, color, groupId := Planned, Palette[0], "";
    }

    /** The effect that runs when the `project` prop changes. */
    method OnProjectChange(project: Option<Project>)
      modifies this
      ensures project.Some? ==> State() == Prefill(project.value)
      ensures project.None? ==> State() == old(State())
    {
      if project.Some? {
        var p := project.value;
        name := p.name;
        description := p.description;
        url := Text.OrEmpty(p.url);
        githubUrl := Text.OrEmpty(p.githubUrl);
        status := p.status;
        color := p.color;
        groupId := Text.OrEmpty(p.groupId);
      }
    }

    /** `handleSubmit`: the record for `onSave`, or `None` when submission is blocked. */
    method HandleSubmit() returns (r: Option<ProjectDraft>)
      ensures r == Submit(State())
      ensures r.None? <==> Text.IsBlank(name)
    {
      r := Submit(State());
    }
  }
}
