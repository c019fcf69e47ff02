/**
 * TaskForm.tsx: the create/edit form. Its `form` state starts from
 * `initialData` (or the default task), is changed one field at a time, and is
 * handed unchanged to `onSubmit`.
 */
module TaskForm {
  import opened Wrappers

  datatype Mode = CreateMode | EditMode

  /** The form state; `id` is present only when it was copied from `initialData`. */
  datatype FormData = FormData(id: Option<int>, title: string, description: string, status: string)

  const DefaultTask := FormData(None, "", "", "todo")

  /** The `name` attributes of the three inputs. */
  datatype Field = Title | Description | Status

  function FieldValue(f: FormData, field: Field): string {
    match field
    case Title => f.title
    case Description => f.description
    case Status => f.status
  }

  /** The texts and `disabled` flags that depend on the props alone. */
  datatype Chrome = Chrome(heading: string, submitLabel: string, submitDisabled: bool, cancelDisabled: bool)

  function ChromeFor(mode: Mode, loading: bool): (c: Chrome)
    ensures c.heading == (if mode == CreateMode then "Add Task" else "Edit Task")
    ensures c.submitLabel == (if mode == CreateMode then "Create" else "Update")
    ensures c.submitDisabled == loading && c.cancelDisabled == loading
  {
    match mode
    case CreateMode => Chrome("Add Task", "Create", loading, loading)
    case EditMode => Chrome("Edit Task", "Update", loading, loading)
  }

  /** The heading alone tells which mode the form is in. */
  lemma HeadingIdentifiesMode(m1: Mode, m2: Mode, l1: bool, l2: bool)
    requires ChromeFor(m1, l1).heading == ChromeFor(m2, l2).heading
    ensures m1 == m2
  {
  }

  class TaskFormState {
    const mode: Mode
    var loading: bool
    var form: FormData

    /** Mounting runs the effect on `initialData` once. */
    constructor (mode: Mode, initialData: Option<FormData>, loading: bool)
      ensures this.mode == mode && this.loading == loading
      ensures initialData.None? ==> form == DefaultTask
      ensures initialData.Some? ==> form == initialData.value
    {
      this.mode := mode;
      this.loading := loading;
      form := if initialData.Some? then initialData.value else DefaultTask;
    }

    /** The effect re-run when the `initialData` prop changes: it replaces the whole form. */
    method InitialDataChanged(initialData: Option<FormData>)
      modifies this`form
      ensures form == if initialData.Some? then initialData.value else DefaultTask
    {
      if initialData.Some? {
        form := initialData.value;
      } else {
        form := DefaultTask;
      }
    }

    /** `handleChange`: only the named field changes; the id is kept. */
    method HandleChange(field: Field, value: string)
      modifies this`form
      ensures FieldValue(form, field) == value
      ensures forall other :: other != field ==> FieldValue(form, other) == FieldValue(old(form), other)
      ensures form.id == old(form).id
    {
      match field
      case Title => form := form.(title := value);
      case Description => form := form.(description := value);
      case Status => form := form.(status := value);
    }

    /** `handleSubmit`: `onSubmit` receives the current form state as it is. */
    method Submit() returns (submitted: FormData)
      ensures submitted == form
    {
      submitted := form;
    }
  }

  /**
   * An edit session: the form opens on `initial`, the title is retyped, and the
   * submission carries the new title together with the original id,
   * description and status.
   */
  method EditSubmission(initial: FormData, newTitle: string) returns (sent: FormData)
    ensures sent == initial.(title := newTitle)
    ensures sent.id == initial.id
  {
    var f := new TaskFormState(EditMode, Some(initial), false);
    f.HandleChange(Title, newTitle);
    assert FieldValue(f.form, Description) == initial.description;
    assert FieldValue(f.form, Status) == initial.status;
    sent := f.Submit();
  }
}
