/**
 * The form of TaskInputSidebar (components/main/task-input-sidebar.tsx): the form's data,
 * the end time it proposes for a given start, the field edits and the
 * submit check. Dates are time values, milliseconds since the epoch; the
 * `onTaskCreate` callback is foreign, and a submit says what it would be
 * passed.
 */
module TaskSidebar {
  import opened Common

  /** TaskFormData (21-29); an unset date is `undefined`. */
  datatype TaskForm = TaskForm(title: string, description: string, startDate: Option<int>, endDate: Option<int>,
                               isAllDay: bool, priority: string, category: string)

  /** The form's first state (37-45). */
  function InitialForm(initialStartDate: Option<int>): (f: TaskForm)
    ensures f.title == "" && f.description == "" && f.priority == "" && f.category == ""
    ensures f.startDate == initialStartDate && f.endDate.None? && !f.isAllDay
  {
    TaskForm("", "", initialStartDate, None, false, "", "")
  }

  /** One hour in milliseconds: `setHours(getHours() + 1)`. The hour a
    * daylight-saving change adds or removes is not modelled. */
  const HOUR := 3600000

  /** The effect on `initialStartDate` (47-59): a given start is set with an
    * end one hour later; the other fields are kept. */
  function WithInitialStart(f: TaskForm, initialStartDate: Option<int>): (r: TaskForm)
    ensures initialStartDate.None? ==> r == f
    ensures initialStartDate.Some? ==>
              && r.startDate == initialStartDate && r.endDate == Some(initialStartDate.value + HOUR)
              && r.title == f.title && r.description == f.description && r.isAllDay == f.isAllDay
              && r.priority == f.priority && r.category == f.category
  {
    if initialStartDate.None? then f
    else f.(startDate := initialStartDate, endDate := Some(initialStartDate.value + HOUR))
  }

  /** The form's change handlers (110-174), one field each. */
  datatype FormEdit =
    | SetTitle(title: string)
    | SetDescription(description: string)
    | SetAllDay(isAllDay: bool)
    | SetStart(startDate: Option<int>)
    | SetEnd(endDate: Option<int>)
    | SetPriority(priority: string)
    | SetCategory(category: string)

  function Edited(f: TaskForm, e: FormEdit): TaskForm
  {
    match e
    case SetTitle(t) => f.(title := t)
    case SetDescription(d) => f.(description := d)
    case SetAllDay(b) => f.(isAllDay := b)
    case SetStart(d) => f.(startDate := d)
    case SetEnd(d) => f.(endDate := d)
    case SetPriority(p) => f.(priority := p)
    case SetCategory(c) => f.(category := c)
  }

  const TITLE_MISSING := "Please enter a task title"
  const START_MISSING := "Please select a start date"
  const END_MISSING := "Please select an end date"

  /** A submit refused with a message, the data passed to `onTaskCreate`,
    * or nothing when no callback is given. */
  datatype SubmitOutcome = Refused(message: string) | Create(data: TaskForm) | NoCallback

  /** handleSubmit (61-80): the title, then the start, then the end must be
    * set; the first one missing is reported. The title is checked for
    * emptiness, not trimmed. */
  function Submit(f: TaskForm, hasCallback: bool): SubmitOutcome
  {
    if f.title == "" then Refused(TITLE_MISSING)
    else if f.startDate.None? then Refused(START_MISSING)
    else if f.endDate.None? then Refused(END_MISSING)
    else if hasCallback then Create(f)
    else NoCallback
  }

  /** The one field the message names is the first missing of title, start
    * and end. */
  function FirstMissing(f: TaskForm): Option<string>
  {
    if f.title == "" then Some(TITLE_MISSING)
    else if f.startDate.None? then Some(START_MISSING)
    else if f.endDate.None? then Some(END_MISSING)
    else None
  }

  class Sidebar {
    var formData: TaskForm

    constructor (initialStartDate: Option<int>)
      ensures formData == InitialForm(initialStartDate)
    {
      formData := InitialForm(initialStartDate);
    }

    /** The effect, run after mounting and whenever the prop changes. */
    method InitialStartDateChanged(initialStartDate: Option<int>)
      modifies this
      ensures formData == WithInitialStart(old(formData), initialStartDate)
    {
      if initialStartDate.Some? {
        formData := formData.(startDate := initialStartDate, endDate := Some(initialStartDate.value + HOUR));
      }
    }

    method Edit(e: FormEdit)
      modifies this
      ensures formData == Edited(old(formData), e)
    {
      formData := Edited(formData, e);
    }

    method HandleSubmit(hasCallback: bool) returns (outcome: SubmitOutcome)
      ensures outcome.Create? <==> hasCallback && FirstMissing(formData).None?
      ensures outcome.Create? ==> outcome.data == formData
      ensures outcome.Refused? <==> FirstMissing(formData).Some?
      ensures outcome.Refused? ==> outcome.message == FirstMissing(formData).value
    {
      if formData.title == "" {
        return Refused(TITLE_MISSING);
      }
      if formData.startDate.None? {
        return Refused(START_MISSING);
      }
      if formData.endDate.None? {
        return Refused(END_MISSING);
      }
      if hasCallback {
        return Create(formData);
      }
      return NoCallback;
    }
  }

  /** A submit passes the form on unchanged exactly when a callback is given
    * and title, start and end are all set; otherwise the first of them that
    * is missing is reported, and nothing is passed on. */
  lemma SubmitChecksInOrder(f: TaskForm, hasCallback: bool)
    ensures Submit(f, hasCallback).Create? <==> hasCallback && f.title != "" && f.startDate.Some? && f.endDate.Some?
    ensures Submit(f, hasCallback).Create? ==> Submit(f, hasCallback).data == f
    ensures f.title == "" ==> Submit(f, hasCallback) == Refused(TITLE_MISSING)
    ensures f.title != "" && f.startDate.None? ==> Submit(f, hasCallback) == Refused(START_MISSING)
    ensures f.title != "" && f.startDate.Some? && f.endDate.None? ==> Submit(f, hasCallback) == Refused(END_MISSING)
    ensures Submit(f, hasCallback).Refused? <==> FirstMissing(f).Some?
  {
  }

  /** A title of spaces passes the check. */
  lemma BlankTitleAccepted(f: TaskForm)
    requires f.startDate.Some? && f.endDate.Some? && |f.title| > 0 && IsBlank(f.title)
    ensures Submit(f, true) == Create(f)
    ensures Trim(f.title) == ""
  {
    TrimProperties(f.title);
  }

  /** Opened on a start date, the form needs only a title: with a title
    * typed, a submit passes the start and the hour after it, and the fields
    * left untouched at their initial values. */
  lemma StartDateFillsDates(d: int, title: string)
    requires title != ""
    ensures var f := Edited(WithInitialStart(InitialForm(Some(d)), Some(d)), SetTitle(title));
            && Submit(f, true) == Create(TaskForm(title, "", Some(d), Some(d + HOUR), false, "", ""))
            && f.startDate.value < f.endDate.value
  {
  }

  /** Every edit changes its own field and no other. */
  lemma EditTouchesOneField(f: TaskForm, e: FormEdit)
    ensures var r := Edited(f, e);
            && (if e.SetTitle? then r.title == e.title else r.title == f.title)
            && (if e.SetDescription? then r.description == e.description else r.description == f.description)
            && (if e.SetAllDay? then r.isAllDay == e.isAllDay else r.isAllDay == f.isAllDay)
            && (if e.SetStart? then r.startDate == e.startDate else r.startDate == f.startDate)
            && (if e.SetEnd? then r.endDate == e.endDate else r.endDate == f.endDate)
            && (if e.SetPriority? then r.priority == e.priority else r.priority == f.priority)
            && (if e.SetCategory? then r.category == e.category else r.category == f.category)
  {
  }
}
