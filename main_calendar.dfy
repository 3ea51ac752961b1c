/**
 * The main calendar editor (components/main/edit-calendar.tsx): a list of
 * events and a create/edit dialog with a title field. Every handler is a
 * function of the component's state, and the component is a class whose
 * methods run them.
 *
 * Dates are time values, milliseconds since the epoch. FullCalendar,
 * `Math.random` and the clock are foreign: the events it reports, the new
 * event's id and the current time are parameters.
 */
module MainCalendar {
  import opened Common

  /** The colour fields an event may carry. */
  datatype Style = Style(backgroundColor: Option<string>, textColor: Option<string>, borderColor: Option<string>)

  /** `extendedProps`: the kind of event and the number of attendees. */
  datatype Props = Props(kind: Option<string>, attendees: Option<int>)

  /** CalendarEvent (22-36). */
  datatype Event = Event(id: string, title: string, start: int, end: int, style: Style,
                         classNames: Option<seq<string>>, allDay: Option<bool>, props: Option<Props>)

  /** eventStyles (49-80), of which saving uses the standup entry. */
  function EventStyle(kind: string): Option<Style>
  {
    if kind == "standup" || kind == "retro" then Some(Style(Some("#2D2B55"), Some("#ffffff"), Some("#6C63FF")))
    else if kind == "brainstorming" then Some(Style(Some("#3A3A3A"), Some("#FFD700"), Some("#B8860B")))
    else if kind == "daily-meeting" then Some(Style(Some("#1E4D6B"), Some("#ffffff"), Some("#00A3FF")))
    else if kind == "kick-off" then Some(Style(Some("#2B4C3F"), Some("#ffffff"), Some("#00B894")))
    else if kind == "break" then Some(Style(Some("#3A3A3A"), Some("#A0AEC0"), Some("#718096")))
    else None
  }

  const STANDUP_STYLE := Style(Some("#2D2B55"), Some("#ffffff"), Some("#6C63FF"))

  /** The six events the calendar starts with (83-132). */
  function InitialEvents(c: Clock): (r: seq<Event>)
    ensures |r| == 6
    ensures forall i :: 0 <= i < 6 ==>
              && r[i].start < r[i].end && r[i].props.Some? && r[i].props.value.kind.Some?
              && EventStyle(r[i].props.value.kind.value) == Some(r[i].style)
  {
    [ Event("1", "Standup", At(c, 9, 0), At(c, 11, 0), STANDUP_STYLE, None, None, Some(Props(Some("standup"), Some(5)))),
      Event("2", "Brainstorming", At(c, 8, 0), At(c, 10, 0), EventStyle("brainstorming").value, None, None,
            Some(Props(Some("brainstorming"), Some(3)))),
      Event("3", "Daily Meeting", At(c, 8, 0), At(c, 9, 0), EventStyle("daily-meeting").value, None, None,
            Some(Props(Some("daily-meeting"), Some(4)))),
      Event("4", "Kick-off", At(c, 10, 0), At(c, 11, 0), EventStyle("kick-off").value, None, None,
            Some(Props(Some("kick-off"), Some(6)))),
      Event("5", "Retro", At(c, 11, 30), At(c, 13, 0), EventStyle("retro").value, None, None,
            Some(Props(Some("retro"), Some(5)))),
      Event("6", "Lunch Break", At(c, 13, 0), At(c, 14, 0), EventStyle("break").value, None, None,
            Some(Props(Some("break"), None))) ]
  }

  function Ids(events: seq<Event>): (r: seq<string>)
    ensures |r| == |events| && forall i :: 0 <= i < |events| ==> r[i] == events[i].id
  {
    seq(|events|, i requires 0 <= i < |events| => events[i].id)
  }

  // ---------------------------------------------------------------------
  // State
  // ---------------------------------------------------------------------

  /** The range FullCalendar reports for a selection. */
  datatype Selection = Selection(start: int, end: int, allDay: bool)

  datatype Mode = Create | Edit

  /** EventModalState (38-43). */
  datatype Modal = Modal(isOpen: bool, mode: Mode, event: Option<Event>, selectedDates: Option<Selection>)

  /** `{ isOpen: false, mode: 'create' }`. */
  const CLOSED := Modal(false, Create, None, None)

  datatype CalendarState = CalendarState(events: seq<Event>, modal: Modal, newEventTitle: string)

  function Initial(c: Clock): CalendarState
  {
    CalendarState(InitialEvents(c), CLOSED, "")
  }

  /** The toasts the handlers show: sonner's `toast.success` or `toast.error`
    * with a fixed text. */
  datatype Toast = EventUpdated | EventCreated | TitleMissing

  /** A handler's new state, its toast, and the selection passed on to the
    * `onDateSelect` prop. */
  datatype Step = Step(state: CalendarState, toast: Option<Toast>, forwarded: Option<Selection>)

  function ToastText(t: Toast): string
  {
    match t
    case EventUpdated => "Event updated"
    case EventCreated => "Event created"
    case TitleMissing => "Please enter an event title"
  }

  predicate IsError(t: Toast)
  {
    t == TitleMissing
  }

  // ---------------------------------------------------------------------
  // handleEventChange (141-156)
  // ---------------------------------------------------------------------

  /** What FullCalendar reports after a drag or resize: `start` and `end`
    * may be null. */
  datatype ChangeInfo = ChangeInfo(id: string, title: string, start: Option<int>, end: Option<int>)

  /** The event moved: title, start and end from the report, a null start or
    * end keeping the old one. */
  function Moved(e: Event, info: ChangeInfo): Event
  {
    e.(title := info.title, start := DateOr(info.start, e.start), end := DateOr(info.end, e.end))
  }

  /** `d || old` on a `Date | null`: a date object is always truthy. */
  function DateOr(d: Option<int>, fallback: int): int
  {
    if d.Some? then d.value else fallback
  }

  function ChangedEvents(events: seq<Event>, info: ChangeInfo): (r: seq<Event>)
    ensures |r| == |events|
    ensures forall i :: 0 <= i < |events| && events[i].id == info.id ==>
              && r[i].id == events[i].id && r[i].title == info.title
              && r[i].start == (if info.start.Some? then info.start.value else events[i].start)
              && r[i].end == (if info.end.Some? then info.end.value else events[i].end)
              && r[i].style == events[i].style && r[i].classNames == events[i].classNames
              && r[i].allDay == events[i].allDay && r[i].props == events[i].props
    ensures forall i :: 0 <= i < |events| && events[i].id != info.id ==> r[i] == events[i]
  {
    seq(|events|, i requires 0 <= i < |events| => if events[i].id == info.id then Moved(events[i], info) else events[i])
  }

  function EventChange(s: CalendarState, info: ChangeInfo): Step
  {
    Step(s.(events := ChangedEvents(s.events, info)), Some(EventUpdated), None)
  }

  // ---------------------------------------------------------------------
  // handleEventClick (158-176) and handleDateSelect (178-188)
  // ---------------------------------------------------------------------

  /** The EventApi fields the click handler reads. */
  datatype Clicked = Clicked(id: string, title: string, start: Option<int>, end: Option<int>,
                             backgroundColor: string, textColor: string, classNames: seq<string>,
                             allDay: bool, props: Option<Props>)

  /** The copy the dialog keeps: a missing start or end becomes `now`. */
  function ClickedCopy(e: Clicked, now: int): Event
  {
    Event(e.id, e.title, DateOr(e.start, now), DateOr(e.end, now),
          Style(Some(e.backgroundColor), Some(e.textColor), None), Some(e.classNames), Some(e.allDay), e.props)
  }

  function EventClick(s: CalendarState, e: Clicked, now: int): Step
  {
    Step(s.(modal := Modal(true, Edit, Some(ClickedCopy(e, now)), None), newEventTitle := e.title), None, None)
  }

  /** The selection is passed on when the `onDateSelect` prop is given. */
  function DateSelect(s: CalendarState, info: Selection, hasCallback: bool): Step
  {
    Step(s.(modal := Modal(true, Create, None, Some(info)), newEventTitle := ""), None,
         if hasCallback then Some(info) else None)
  }

  // ---------------------------------------------------------------------
  // handleSaveEvent (190-219) and the dialog (322-353)
  // ---------------------------------------------------------------------

  /** The event a save in create mode appends. */
  function NewEvent(sel: Selection, title: string, id: string): Event
  {
    Event(id, title, sel.start, sel.end, STANDUP_STYLE, None, Some(sel.allDay), Some(Props(Some("standup"), Some(5))))
  }

  /** The events with the title of those with `id` replaced. */
  function Retitled(events: seq<Event>, id: string, title: string): (r: seq<Event>)
    ensures |r| == |events|
    ensures forall i :: 0 <= i < |events| && events[i].id == id ==> r[i] == events[i].(title := title)
    ensures forall i :: 0 <= i < |events| && events[i].id != id ==> r[i] == events[i]
  {
    seq(|events|, i requires 0 <= i < |events| => if events[i].id == id then events[i].(title := title) else events[i])
  }

  /** The dialog closed in create mode with an empty title. */
  function Reset(s: CalendarState): CalendarState
  {
    s.(modal := CLOSED, newEventTitle := "")
  }

  /** handleSaveEvent: a blank title is refused; otherwise the event is
    * created or retitled as the dialog's mode says, and the dialog reset. */
  function SaveEvent(s: CalendarState, newId: string): Step
  {
    if Trim(s.newEventTitle) == "" then Step(s, Some(TitleMissing), None)
    else if s.modal.mode == Create && s.modal.selectedDates.Some? then
      Step(Reset(s.(events := s.events + [NewEvent(s.modal.selectedDates.value, s.newEventTitle, newId)])),
           Some(EventCreated), None)
    else if s.modal.mode == Edit && s.modal.event.Some? then
      Step(Reset(s.(events := Retitled(s.events, s.modal.event.value.id, s.newEventTitle))), Some(EventUpdated), None)
    else Step(Reset(s), None, None)
  }

  /** The dialog's `onOpenChange`: closing resets it, opening does nothing. */
  function OpenChange(s: CalendarState, open: bool): CalendarState
  {
    if open then s else Reset(s)
  }

  /** The title field's change handler. */
  function TypeTitle(s: CalendarState, text: string): CalendarState
  {
    s.(newEventTitle := text)
  }

  // ---------------------------------------------------------------------
  // The component's state
  // ---------------------------------------------------------------------

  class Calendar {
    var events: seq<Event>
    var eventModal: Modal
    var newEventTitle: string

    constructor (c: Clock)
      ensures Snapshot() == Initial(c)
    {
      events := InitialEvents(c);
      eventModal := CLOSED;
      newEventTitle := "";
    }

    function Snapshot(): CalendarState
      reads this
    {
      CalendarState(events, eventModal, newEventTitle)
    }

    method HandleEventChange(info: ChangeInfo) returns (toast: Option<Toast>)
      modifies this
      ensures var r := EventChange(old(Snapshot()), info); Snapshot() == r.state && toast == r.toast
    {
      events := ChangedEvents(events, info);
      toast := Some(EventUpdated);
    }

    method HandleEventClick(e: Clicked, now: int)
      modifies this
      ensures Snapshot() == EventClick(old(Snapshot()), e, now).state
    {
      eventModal := Modal(true, Edit, Some(ClickedCopy(e, now)), None);
      newEventTitle := e.title;
    }

    method HandleDateSelect(info: Selection, hasCallback: bool) returns (forwarded: Option<Selection>)
      modifies this
      ensures var r := DateSelect(old(Snapshot()), info, hasCallback); Snapshot() == r.state && forwarded == r.forwarded
    {
      forwarded := if hasCallback then Some(info) else None;
      eventModal := Modal(true, Create, None, Some(info));
      newEventTitle := "";
    }

    method HandleSaveEvent(newId: string) returns (toast: Option<Toast>)
      modifies this
      ensures var r := SaveEvent(old(Snapshot()), newId); Snapshot() == r.state && toast == r.toast
    {
      if Trim(newEventTitle) == "" {
        return Some(TitleMissing);
      }
      toast := None;
      if eventModal.mode == Create && eventModal.selectedDates.Some? {
        events := events + [NewEvent(eventModal.selectedDates.value, newEventTitle, newId)];
        toast := Some(EventCreated);
      } else if eventModal.mode == Edit && eventModal.event.Some? {
        events := Retitled(events, eventModal.event.value.id, newEventTitle);
        toast := Some(EventUpdated);
      }
      eventModal := CLOSED;
      newEventTitle := "";
    }

    method HandleOpenChange(open: bool)
      modifies this
      ensures Snapshot() == OpenChange(old(Snapshot()), open)
    {
      if !open {
        eventModal := CLOSED;
        newEventTitle := "";
      }
    }

    method HandleTitleInput(text: string)
      modifies this
      ensures Snapshot() == TypeTitle(old(Snapshot()), text)
    {
      newEventTitle := text;
    }
  }

  // ---------------------------------------------------------------------
  // Properties
  // ---------------------------------------------------------------------

  /** A drag or resize keeps the list of ids, and reporting the same change
    * twice is reporting it once. */
  lemma EventChangeKeepsIds(events: seq<Event>, info: ChangeInfo)
    ensures Ids(ChangedEvents(events, info)) == Ids(events)
    ensures ChangedEvents(ChangedEvents(events, info), info) == ChangedEvents(events, info)
  {
    var r := ChangedEvents(events, info);
    assert Ids(r) == Ids(events);
    var r2 := ChangedEvents(r, info);
    forall i | 0 <= i < |events|
      ensures r2[i] == r[i]
    {
      if events[i].id == info.id {
        assert r2[i] == Moved(r[i], info);
      }
    }
  }

  /** A blank title is refused with a message and nothing changes. */
  lemma SaveRefusesBlankTitle(s: CalendarState, newId: string)
    requires Trim(s.newEventTitle) == ""
    ensures SaveEvent(s, newId) == Step(s, Some(TitleMissing), None)
  {
  }

  /** A save with a non-blank title in create mode with a range appends
    * one event and resets the dialog. */
  lemma SaveCreates(d: CalendarState, newId: string)
    requires Trim(d.newEventTitle) != "" && d.modal.mode == Create && d.modal.selectedDates.Some?
    ensures SaveEvent(d, newId) == Step(Reset(d.(events := d.events + [NewEvent(d.modal.selectedDates.value, d.newEventTitle, newId)])),
                                        Some(EventCreated), None)
  {
  }

  /** A save with a non-blank title in edit mode with an event retitles the
    * events with its id and resets the dialog. */
  lemma SaveRetitles(d: CalendarState, newId: string)
    requires Trim(d.newEventTitle) != "" && d.modal.mode == Edit && d.modal.event.Some?
    ensures SaveEvent(d, newId) == Step(Reset(d.(events := Retitled(d.events, d.modal.event.value.id, d.newEventTitle))),
                                        Some(EventUpdated), None)
  {
  }

  /** In any other mode a save with a non-blank title only resets the
    * dialog, with no toast. */
  lemma SaveOtherwiseResets(d: CalendarState, newId: string)
    requires Trim(d.newEventTitle) != ""
    requires !(d.modal.mode == Create && d.modal.selectedDates.Some?) && !(d.modal.mode == Edit && d.modal.event.Some?)
    ensures SaveEvent(d, newId) == Step(Reset(d), None, None)
  {
  }


  /** Selecting a range, typing a non-blank title and saving appends exactly
    * one event, spanning the range with the standup style, and keeps the
    * others. */
  lemma SelectTypeSaveAppends(s: CalendarState, sel: Selection, hasCallback: bool, title: string, newId: string)
    requires Trim(title) != ""
    ensures var r := SaveEvent(TypeTitle(DateSelect(s, sel, hasCallback).state, title), newId);
            && r.state.events == s.events + [NewEvent(sel, title, newId)]
            && r.state.events[|s.events|].start == sel.start && r.state.events[|s.events|].end == sel.end
            && r.state.events[|s.events|].style == STANDUP_STYLE
            && Ids(r.state.events) == Ids(s.events) + [newId]
            && r.toast == Some(EventCreated)
  {
    var dialog := TypeTitle(DateSelect(s, sel, hasCallback).state, title);
    assert dialog == CalendarState(s.events, Modal(true, Create, None, Some(sel)), title);
    SaveCreates(dialog, newId);
    var created := NewEvent(sel, title, newId);
    IdsAppend(s.events, created);
    assert (s.events + [created])[|s.events|] == created;
  }

  lemma IdsAppend(events: seq<Event>, e: Event)
    ensures Ids(events + [e]) == Ids(events) + [e.id]
  {
    assert Ids(events + [e]) == Ids(events) + [e.id];
  }

  /** Clicking an event, typing a non-blank title and saving retitles the
    * events with that id, and nothing else in the list changes. */
  lemma ClickTypeSaveRetitles(s: CalendarState, e: Clicked, now: int, title: string, newId: string)
    requires Trim(title) != ""
    ensures var r := SaveEvent(TypeTitle(EventClick(s, e, now).state, title), newId);
            && r.state.events == Retitled(s.events, e.id, title)
            && Ids(r.state.events) == Ids(s.events)
            && r.toast == Some(EventUpdated)
  {
    var dialog := TypeTitle(EventClick(s, e, now).state, title);
    assert dialog == CalendarState(s.events, Modal(true, Edit, Some(ClickedCopy(e, now)), None), title);
    SaveRetitles(dialog, newId);
    var events := Retitled(s.events, e.id, title);
    assert Ids(events) == Ids(s.events);
  }

  /** Opening the dialog: a range opens it for a new event with an empty
    * title, an event for that event with its title. */
  lemma HandlersOpenDialog(s: CalendarState, sel: Selection, hasCallback: bool, e: Clicked, now: int)
    ensures var r := DateSelect(s, sel, hasCallback);
            && r.state.modal.isOpen && r.state.modal.mode == Create && r.state.modal.selectedDates == Some(sel)
            && r.state.newEventTitle == "" && r.state.events == s.events
            && (r.forwarded.Some? <==> hasCallback)
    ensures var r := EventClick(s, e, now).state;
            && r.modal.isOpen && r.modal.mode == Edit && r.modal.event.Some? && r.modal.event.value.id == e.id
            && r.newEventTitle == e.title && r.events == s.events
  {
  }
}
