/**
 * The dashboard's calendar editor (components/dashboard/edit-calendar.tsx):
 * the same list-and-dialog editor as the main one over a simpler event
 * record. The calendar widget reports whole events, so a move has no null
 * dates, a click keeps the event itself, and a created event carries the
 * meeting colours but not the selection's all-day flag.
 *
 * Dates are time values, milliseconds since the epoch; the new event's id
 * (`Math.random`) is a parameter.
 */
module DashboardCalendar {
  import opened Common

  /** CalendarEvent (17-26). */
  datatype Event = Event(id: string, title: string, start: int, end: int, backgroundColor: Option<string>,
                         textColor: Option<string>, classNames: Option<seq<string>>, borderColor: Option<string>)

  /** An entry of eventColors (46-72); `borderLeft` is not read by any handler. */
  datatype Colors = Colors(backgroundColor: string, textColor: string)

  const MEETING := Colors("#FEE2E2", "#991B1B")
  const MEETING_CLASSES := ["border-l-[3px] border-l-red-700"]

  /** The calendar's starting events (75-112). */
  function InitialEvents(c: Clock): (r: seq<Event>)
    ensures |r| == 4
    ensures forall i :: 0 <= i < 4 ==> r[i].start < r[i].end && r[i].backgroundColor.Some? && r[i].classNames.Some?
  {
    [ Event("1", "Monday standup", At(c, 9, 0), At(c, 9, 30), Some("#F3F4F6"), Some("#374151"),
            Some(["border-l-[3px] border-l-gray-700"]), None),
      Event("2", "House inspection", At(c, 10, 30), At(c, 11, 30), Some("#FEF3C7"), Some("#92400E"),
            Some(["border-l-[3px] border-l-amber-600"]), None),
      Event("3", "Deep work", At(c, 13, 0), At(c, 15, 0), Some("#DBEAFE"), Some("#1E40AF"),
            Some(["border-l-[3px] border-l-blue-700"]), None),
      Event("4", "Lunch with team", At(c, 12, 0), At(c, 13, 0), Some("#D1FAE5"), Some("#065F46"),
            Some(["border-l-[3px] border-l-emerald-700"]), None) ]
  }

  function Ids(events: seq<Event>): (r: seq<string>)
    ensures |r| == |events| && forall i :: 0 <= i < |events| ==> r[i] == events[i].id
  {
    seq(|events|, i requires 0 <= i < |events| => events[i].id)
  }

  // ---------------------------------------------------------------------
  // State
  // ---------------------------------------------------------------------

  /** DateSelectInfo (33-37). */
  datatype Selection = Selection(start: int, end: int, allDay: bool)

  datatype Mode = Create | Edit

  /** EventModalState (39-44). */
  datatype Modal = Modal(isOpen: bool, mode: Mode, event: Option<Event>, selectedDates: Option<Selection>)

  const CLOSED := Modal(false, Create, None, None)

  datatype CalendarState = CalendarState(events: seq<Event>, modal: Modal, newEventTitle: string)

  /** The toasts the handlers show: sonner's `toast.success` or `toast.error`
    * with a fixed text. */
  datatype Toast = EventUpdated | EventCreated | TitleMissing

  datatype Step = Step(state: CalendarState, toast: Option<Toast>)

  function ToastText(t: Toast): string
  {
    match t
    case EventUpdated => "Event updated"
    case EventCreated => "Event created"
    case TitleMissing => "Please enter an event title"
  }

  predicate IsError(t: Toast)
  {
    t == TitleMissing
  }

  // ---------------------------------------------------------------------
  // Handlers (121-185) and the dialog (197-232)
  // ---------------------------------------------------------------------

  /** handleEventChange's list: the events with the reported id take its
    * title, start and end, and keep their own colours. */
  function ChangedEvents(events: seq<Event>, reported: Event): (r: seq<Event>)
    ensures |r| == |events|
    ensures forall i :: 0 <= i < |events| && events[i].id == reported.id ==>
              r[i] == events[i].(title := reported.title, start := reported.start, end := reported.end)
    ensures forall i :: 0 <= i < |events| && events[i].id != reported.id ==> r[i] == events[i]
  {
    seq(|events|, i requires 0 <= i < |events| =>
      if events[i].id == reported.id then events[i].(title := reported.title, start := reported.start, end := reported.end)
      else events[i])
  }

  function EventChange(s: CalendarState, reported: Event): Step
  {
    Step(s.(events := ChangedEvents(s.events, reported)), Some(EventUpdated))
  }

  function EventClick(s: CalendarState, e: Event): CalendarState
  {
    s.(modal := Modal(true, Edit, Some(e), None), newEventTitle := e.title)
  }

  function DateSelect(s: CalendarState, info: Selection): CalendarState
  {
    s.(modal := Modal(true, Create, None, Some(info)), newEventTitle := "")
  }

  /** The event a save in create mode appends. */
  function NewEvent(sel: Selection, title: string, id: string): Event
  {
    Event(id, title, sel.start, sel.end, Some(MEETING.backgroundColor), Some(MEETING.textColor), Some(MEETING_CLASSES), None)
  }

  function Retitled(events: seq<Event>, id: string, title: string): (r: seq<Event>)
    ensures |r| == |events|
    ensures forall i :: 0 <= i < |events| && events[i].id == id ==> r[i] == events[i].(title := title)
    ensures forall i :: 0 <= i < |events| && events[i].id != id ==> r[i] == events[i]
  {
    seq(|events|, i requires 0 <= i < |events| => if events[i].id == id then events[i].(title := title) else events[i])
  }

  function Reset(s: CalendarState): CalendarState
  {
    s.(modal := CLOSED, newEventTitle := "")
  }

  /** handleSaveEvent: a blank title is refused; otherwise the event is
    * created or retitled as the dialog's mode says, and the dialog reset. */
  function SaveEvent(s: CalendarState, newId: string): Step
  {
    if Trim(s.newEventTitle) == "" then Step(s, Some(TitleMissing))
    else if s.modal.mode == Create && s.modal.selectedDates.Some? then
      Step(Reset(s.(events := s.events + [NewEvent(s.modal.selectedDates.value, s.newEventTitle, newId)])),
           Some(EventCreated))
    else if s.modal.mode == Edit && s.modal.event.Some? then
      Step(Reset(s.(events := Retitled(s.events, s.modal.event.value.id, s.newEventTitle))), Some(EventUpdated))
    else Step(Reset(s), None)
  }

  function OpenChange(s: CalendarState, open: bool): CalendarState
  {
    if open then s else Reset(s)
  }

  // ---------------------------------------------------------------------
  // The component's state
  // ---------------------------------------------------------------------

  class Calendar {
    var events: seq<Event>
    var eventModal: Modal
    var newEventTitle: string

    constructor (c: Clock)
      ensures Snapshot() == CalendarState(InitialEvents(c), CLOSED, "")
    {
      events := InitialEvents(c);
      eventModal := CLOSED;
      newEventTitle := "";
    }

    function Snapshot(): CalendarState
      reads this
    {
      CalendarState(events, eventModal, newEventTitle)
    }

    method HandleEventChange(reported: Event) returns (toast: Option<Toast>)
      modifies this
      ensures var r := EventChange(old(Snapshot()), reported); Snapshot() == r.state && toast == r.toast
    {
      events := ChangedEvents(events, reported);
      toast := Some(EventUpdated);
    }

    method HandleEventClick(e: Event)
      modifies this
      ensures Snapshot() == EventClick(old(Snapshot()), e)
    {
      eventModal := Modal(true, Edit, Some(e), None);
      newEventTitle := e.title;
    }

    method HandleDateSelect(info: Selection)
      modifies this
      ensures Snapshot() == DateSelect(old(Snapshot()), info)
    {
      eventModal := Modal(true, Create, None, Some(info));
      newEventTitle := "";
    }

    method HandleSaveEvent(newId: string) returns (toast: Option<Toast>)
      modifies this
      ensures var r := SaveEvent(old(Snapshot()), newId); Snapshot() == r.state && toast == r.toast
    {
      if Trim(newEventTitle) == "" {
        return Some(TitleMissing);
      }
      toast := None;
      if eventModal.mode == Create && eventModal.selectedDates.Some? {
        events := events + [NewEvent(eventModal.selectedDates.value, newEventTitle, newId)];
        toast := Some(EventCreated);
      } else if eventModal.mode == Edit && eventModal.event.Some? {
        events := Retitled(events, eventModal.event.value.id, newEventTitle);
        toast := Some(EventUpdated);
      }
      eventModal := CLOSED;
      newEventTitle := "";
    }

    method HandleOpenChange(open: bool)
      modifies this
      ensures Snapshot() == OpenChange(old(Snapshot()), open)
    {
      if !open {
        eventModal := CLOSED;
        newEventTitle := "";
      }
    }

    method HandleTitleInput(text: string)
      modifies this
      ensures Snapshot() == old(Snapshot()).(newEventTitle := text)
    {
      newEventTitle := text;
    }
  }

  // ---------------------------------------------------------------------
  // Properties
  // ---------------------------------------------------------------------

  /** A move keeps the list of ids and is idempotent: the widget reporting
    * the same event twice leaves the list as once. */
  lemma EventChangeKeepsIds(events: seq<Event>, reported: Event)
    ensures Ids(ChangedEvents(events, reported)) == Ids(events)
    ensures ChangedEvents(ChangedEvents(events, reported), reported) == ChangedEvents(events, reported)
  {
    var r := ChangedEvents(events, reported);
    assert Ids(r) == Ids(events);
    assert ChangedEvents(r, reported) == r;
  }

  /** A blank title is refused with a message and nothing changes. */
  lemma SaveRefusesBlankTitle(s: CalendarState, newId: string)
    requires Trim(s.newEventTitle) == ""
    ensures SaveEvent(s, newId) == Step(s, Some(TitleMissing))
  {
  }

  /** A save with a non-blank title in create mode with a range appends
    * one event and resets the dialog. */
  lemma SaveCreates(d: CalendarState, newId: string)
    requires Trim(d.newEventTitle) != "" && d.modal.mode == Create && d.modal.selectedDates.Some?
    ensures SaveEvent(d, newId) == Step(Reset(d.(events := d.events + [NewEvent(d.modal.selectedDates.value, d.newEventTitle, newId)])),
                                        Some(EventCreated))
  {
  }

  /** A save with a non-blank title in edit mode with an event retitles the
    * events with its id and resets the dialog. */
  lemma SaveRetitles(d: CalendarState, newId: string)
    requires Trim(d.newEventTitle) != "" && d.modal.mode == Edit && d.modal.event.Some?
    ensures SaveEvent(d, newId) == Step(Reset(d.(events := Retitled(d.events, d.modal.event.value.id, d.newEventTitle))),
                                        Some(EventUpdated))
  {
  }

  /** In any other mode a save with a non-blank title only resets the
    * dialog, with no toast. */
  lemma SaveOtherwiseResets(d: CalendarState, newId: string)
    requires Trim(d.newEventTitle) != ""
    requires !(d.modal.mode == Create && d.modal.selectedDates.Some?) && !(d.modal.mode == Edit && d.modal.event.Some?)
    ensures SaveEvent(d, newId) == Step(Reset(d), None)
  {
  }


  lemma IdsAppend(events: seq<Event>, e: Event)
    ensures Ids(events + [e]) == Ids(events) + [e.id]
  {
    assert Ids(events + [e]) == Ids(events) + [e.id];
  }

  /** Selecting a range, typing a non-blank title and saving appends exactly
    * one event over that range in the meeting colours, and resets the
    * dialog; the selection's all-day flag is not kept. */
  lemma SelectTypeSaveAppends(s: CalendarState, sel: Selection, title: string, newId: string)
    requires Trim(title) != ""
    ensures var r := SaveEvent(DateSelect(s, sel).(newEventTitle := title), newId);
            && r.state.events == s.events + [NewEvent(sel, title, newId)]
            && Ids(r.state.events) == Ids(s.events) + [newId]
            && r.state.events[|s.events|].start == sel.start && r.state.events[|s.events|].end == sel.end
            && r.state.events[|s.events|].backgroundColor == Some(MEETING.backgroundColor)
            && r.toast == Some(EventCreated)
  {
    var dialog := DateSelect(s, sel).(newEventTitle := title);
    assert dialog == CalendarState(s.events, Modal(true, Create, None, Some(sel)), title);
    SaveCreates(dialog, newId);
    var created := NewEvent(sel, title, newId);
    IdsAppend(s.events, created);
    assert (s.events + [created])[|s.events|] == created;
  }

  /** Clicking an event, typing a non-blank title and saving retitles the
    * events with its id, and nothing else in the list changes. */
  lemma ClickTypeSaveRetitles(s: CalendarState, e: Event, title: string, newId: string)
    requires Trim(title) != ""
    ensures var r := SaveEvent(EventClick(s, e).(newEventTitle := title), newId);
            && r.state.events == Retitled(s.events, e.id, title)
            && Ids(r.state.events) == Ids(s.events)
            && r.toast == Some(EventUpdated)
  {
    var dialog := EventClick(s, e).(newEventTitle := title);
    assert dialog == CalendarState(s.events, Modal(true, Edit, Some(e), None), title);
    SaveRetitles(dialog, newId);
    var events := Retitled(s.events, e.id, title);
    assert Ids(events) == Ids(s.events);
  }

  /** Closing the dialog by any route resets it and keeps the events. */
  lemma CloseResets(s: CalendarState)
    ensures OpenChange(s, false) == Reset(s) && OpenChange(s, true) == s
    ensures Reset(s).modal == CLOSED && Reset(s).newEventTitle == "" && Reset(s).events == s.events
  {
  }
}
