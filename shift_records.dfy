/**
 * Shift record assembly: the part of the two shift-registration screens that
 * turns a form snapshot into the `CalendarEvent` values pushed into the create
 * (`submitTrigger`) and edit (`editTrigger`) channels.
 *
 * The date parser and the signed-in user are outside this model: the parser is
 * a function parameter, the signed-in user's id an optional value.
 */
module ShiftRecords {
  import opened Wrappers

  /** The (year, month, day) triple the date parser extracts from a date string. */
  datatype DateParts = DateParts(year: int, month: int, day: int)

  /** A worker chosen in the worker-selection section; only the id is read. */
  datatype Worker = Worker(id: string)

  /** One work shift of one user on one calendar date. */
  datatype CalendarEvent = CalendarEvent(
    title: string,
    eventDate: string,
    startTime: string,
    endTime: string,
    createdBy: string,
    year: int,
    month: int,
    day: int,
    routineIds: seq<string>,
    repeatDays: seq<string>,
    memo: string)

  /** What the form fields hold at the moment a submit button is tapped. */
  datatype Form = Form(
    workplaceId: string,
    workplaceName: string,
    eventDate: string,
    startTime: string,
    endTime: string,
    repeatDays: seq<string>,
    memo: string,
    routineIds: seq<string>,
    workers: seq<Worker>)

  /** The header segment: register for oneself, or for the selected workers. */
  datatype RegistrationMode = Owner | Employee

  /** An element of the create channel: (workplace id, event). */
  datatype CreateRequest = CreateRequest(workplaceId: string, event: CalendarEvent)

  /** An element of the edit channel: (workplace id, event id, event). */
  datatype EditRequest = EditRequest(workplaceId: string, eventId: string, event: CalendarEvent)

  /** Why a submit tap emitted nothing; each case is a diagnostic line in the app. */
  datatype Failure = DateParseFailed(eventDate: string) | UserIdNotFound

  /** What a submit tap actually pushes into its channel: the records, or nothing when it failed. */
  function Emitted<R>(r: Result<seq<R>, Failure>): (rs: seq<R>)
    ensures r.Failure? ==> rs == []
    ensures r.Success? ==> rs == r.value
  {
    match r
    case Success(records) => records
    case Failure(_) => []
  }

  /** Signature of the date parser the screens call on the date field. */
  type DateParser = string -> Option<DateParts>

  /**
   * The two guards every submit path runs, in the app's order: the date must
   * parse, then a user must be signed in.
   */
  function Resolve(eventDate: string, parse: DateParser, currentUser: Option<string>)
    : (r: Result<(DateParts, string), Failure>)
    ensures r.Success? <==> parse(eventDate).Some? && currentUser.Some?
    ensures r.Success? ==> r.value == (parse(eventDate).value, currentUser.value)
    ensures parse(eventDate).None? ==> r == Failure(DateParseFailed(eventDate))
    ensures parse(eventDate).Some? && currentUser.None? ==> r == Failure(UserIdNotFound)
  {
    match parse(eventDate)
    case None => Failure(DateParseFailed(eventDate))
    case Some(d) =>
      match currentUser
      case None => Failure(UserIdNotFound)
      case Some(uid) => Success((d, uid))
  }

  /** The `CalendarEvent` initialiser call made by every submit path. */
  function EventFor(f: Form, d: DateParts, createdBy: string, routineIds: seq<string>): (e: CalendarEvent)
    ensures e.title == f.workplaceName && e.eventDate == f.eventDate
    ensures e.startTime == f.startTime && e.endTime == f.endTime
    ensures e.repeatDays == f.repeatDays && e.memo == f.memo
    ensures e.createdBy == createdBy && e.routineIds == routineIds
    ensures e.year == d.year && e.month == d.month && e.day == d.day
  {
    CalendarEvent(f.workplaceName, f.eventDate, f.startTime, f.endTime, createdBy,
                  d.year, d.month, d.day, routineIds, f.repeatDays, f.memo)
  }

  /** `a` and `b` describe the same shift and differ at most in whose shift it is. */
  predicate SameShift(a: CalendarEvent, b: CalendarEvent)
  {
    a.(createdBy := b.createdBy) == b
  }

  /** One event per selected worker, in the workers' order (the `workers.forEach` loop). */
  function WorkerEvents(f: Form, d: DateParts, routineIds: seq<string>, workers: seq<Worker>)
    : (es: seq<CalendarEvent>)
    ensures |es| == |workers|
    decreases |workers|
  {
    if workers == [] then []
    else [EventFor(f, d, workers[0].id, routineIds)] + WorkerEvents(f, d, routineIds, workers[1..])
  }

  lemma {:induction false} WorkerEventsAt(f: Form, d: DateParts, routineIds: seq<string>, workers: seq<Worker>, k: nat)
    requires k < |workers|
    ensures WorkerEvents(f, d, routineIds, workers)[k] == EventFor(f, d, workers[k].id, routineIds)
    decreases |workers|
  {
    if k > 0 {
      WorkerEventsAt(f, d, routineIds, workers[1..], k - 1);
    }
  }

  /** Adding one worker at the end adds that worker's event at the end. */
  lemma {:induction false} WorkerEventsSnoc(f: Form, d: DateParts, routineIds: seq<string>, workers: seq<Worker>, w: Worker)
    ensures WorkerEvents(f, d, routineIds, workers + [w])
         == WorkerEvents(f, d, routineIds, workers) + [EventFor(f, d, w.id, routineIds)]
    decreases |workers|
  {
    if workers == [] {
      assert [] + [w] == [w];
    } else {
      assert (workers + [w])[1..] == workers[1..] + [w];
      WorkerEventsSnoc(f, d, routineIds, workers[1..], w);
    }
  }

  /** Pairs every event with the workplace id, as `submitTrigger.onNext` does. */
  function CreateRequests(workplaceId: string, events: seq<CalendarEvent>): (rs: seq<CreateRequest>)
    ensures |rs| == |events|
    ensures forall k :: 0 <= k < |rs| ==> rs[k].workplaceId == workplaceId && rs[k].event == events[k]
  {
    seq(|events|, k requires 0 <= k < |events| => CreateRequest(workplaceId, events[k]))
  }

  /** Pairs every event with the workplace id and the event id, as `editTrigger.onNext` does. */
  function EditRequests(workplaceId: string, eventId: string, events: seq<CalendarEvent>): (rs: seq<EditRequest>)
    ensures |rs| == |events|
    ensures forall k :: 0 <= k < |rs| ==>
      rs[k].workplaceId == workplaceId && rs[k].eventId == eventId && rs[k].event == events[k]
  {
    seq(|events|, k requires 0 <= k < |events| => EditRequest(workplaceId, eventId, events[k]))
  }

  /**
   * What one tap of the register button emits on the create channel, or why it
   * emits nothing. Owner mode: one event for the signed-in user. Employee mode:
   * one event per selected worker.
   */
  function Register(f: Form, mode: RegistrationMode, parse: DateParser, currentUser: Option<string>)
    : (r: Result<seq<CreateRequest>, Failure>)
    ensures r.Failure? <==> parse(f.eventDate).None? || currentUser.None?
    ensures r.Failure? ==> r == Failure(Resolve(f.eventDate, parse, currentUser).error)
    ensures r.Success? && mode == Owner ==>
      var d := parse(f.eventDate).value;
      |r.value| == 1 &&
      r.value[0].workplaceId == f.workplaceId &&
      r.value[0].event.createdBy == currentUser.value &&
      r.value[0].event.year == d.year && r.value[0].event.month == d.month && r.value[0].event.day == d.day &&
      r.value[0].event.routineIds == f.routineIds
  {
    match Resolve(f.eventDate, parse, currentUser)
    case Failure(e) => Failure(e)
    case Success((d, uid)) =>
      match mode
      case Owner => Success([CreateRequest(f.workplaceId, EventFor(f, d, uid, f.routineIds))])
      case Employee => Success(CreateRequests(f.workplaceId, WorkerEvents(f, d, f.routineIds, f.workers)))
  }

  /**
   * What one tap of the apply button emits on the edit channel. Owner mode
   * uses the workplace id and routine ids fixed when the screen was built;
   * employee mode uses the form's current workplace and routine selection.
   */
  function Edit(f: Form, mode: RegistrationMode, parse: DateParser, currentUser: Option<string>,
                editWorkplaceId: string, eventId: string, editRoutineIds: seq<string>)
    : (r: Result<seq<EditRequest>, Failure>)
    ensures r.Failure? <==> parse(f.eventDate).None? || currentUser.None?
    ensures r.Failure? ==> r == Failure(Resolve(f.eventDate, parse, currentUser).error)
    ensures r.Success? && mode == Owner ==>
      var d := parse(f.eventDate).value;
      |r.value| == 1 &&
      r.value[0].workplaceId == editWorkplaceId &&
      r.value[0].eventId == eventId &&
      r.value[0].event.createdBy == currentUser.value &&
      r.value[0].event.year == d.year && r.value[0].event.month == d.month && r.value[0].event.day == d.day &&
      r.value[0].event.routineIds == editRoutineIds
  {
    match Resolve(f.eventDate, parse, currentUser)
    case Failure(e) => Failure(e)
    case Success((d, uid)) =>
      match mode
      case Owner => Success([EditRequest(editWorkplaceId, eventId, EventFor(f, d, uid, editRoutineIds))])
      case Employee => Success(EditRequests(f.workplaceId, eventId, WorkerEvents(f, d, f.routineIds, f.workers)))
  }

  /**
   * Employee-mode registration emits exactly one request per selected worker,
   * in the workers' order, each for that worker and otherwise identical.
   */
  lemma EmployeeRegisterFansOut(f: Form, parse: DateParser, currentUser: Option<string>)
    requires parse(f.eventDate).Some? && currentUser.Some?
    ensures var r := Register(f, Employee, parse, currentUser);
            var d := parse(f.eventDate).value;
            r.Success? && |r.value| == |f.workers| &&
            (forall k :: 0 <= k < |f.workers| ==>
              r.value[k].workplaceId == f.workplaceId &&
              r.value[k].event.createdBy == f.workers[k].id &&
              r.value[k].event.year == d.year && r.value[k].event.month == d.month &&
              r.value[k].event.day == d.day &&
              r.value[k].event.routineIds == f.routineIds) &&
            (forall j, k :: 0 <= j < |f.workers| && 0 <= k < |f.workers| ==>
              SameShift(r.value[j].event, r.value[k].event))
  {
    var d := parse(f.eventDate).value;
    forall k | 0 <= k < |f.workers|
      ensures WorkerEvents(f, d, f.routineIds, f.workers)[k] == EventFor(f, d, f.workers[k].id, f.routineIds)
    {
      WorkerEventsAt(f, d, f.routineIds, f.workers, k);
    }
  }

  /**
   * Employee-mode editing emits one request per selected worker, every one
   * carrying the same event id and the form's current workplace id.
   */
  lemma EmployeeEditFansOut(f: Form, parse: DateParser, currentUser: Option<string>,
                            editWorkplaceId: string, eventId: string, editRoutineIds: seq<string>)
    requires parse(f.eventDate).Some? && currentUser.Some?
    ensures var r := Edit(f, Employee, parse, currentUser, editWorkplaceId, eventId, editRoutineIds);
            var d := parse(f.eventDate).value;
            r.Success? && |r.value| == |f.workers| &&
            (forall k :: 0 <= k < |f.workers| ==>
              r.value[k].workplaceId == f.workplaceId &&
              r.value[k].eventId == eventId &&
              r.value[k].event.createdBy == f.workers[k].id &&
              r.value[k].event.year == d.year && r.value[k].event.month == d.month &&
              r.value[k].event.day == d.day &&
              r.value[k].event.routineIds == f.routineIds) &&
            (forall j, k :: 0 <= j < |f.workers| && 0 <= k < |f.workers| ==>
              SameShift(r.value[j].event, r.value[k].event))
  {
    var d := parse(f.eventDate).value;
    forall k | 0 <= k < |f.workers|
      ensures WorkerEvents(f, d, f.routineIds, f.workers)[k] == EventFor(f, d, f.workers[k].id, f.routineIds)
    {
      WorkerEventsAt(f, d, f.routineIds, f.workers, k);
    }
  }

  /** Distinct worker ids give distinct `createdBy` values across the fan-out. */
  lemma EmployeeRegisterDistinctCreators(f: Form, parse: DateParser, currentUser: Option<string>)
    requires parse(f.eventDate).Some? && currentUser.Some?
    requires forall j, k :: 0 <= j < k < |f.workers| ==> f.workers[j].id != f.workers[k].id
    ensures var r := Register(f, Employee, parse, currentUser);
            r.Success? && |r.value| == |f.workers| &&
            forall j, k :: 0 <= j < k < |r.value| ==> r.value[j].event.createdBy != r.value[k].event.createdBy
  {
    EmployeeRegisterFansOut(f, parse, currentUser);
  }
}
