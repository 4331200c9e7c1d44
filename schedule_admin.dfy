/**
 * The admin page for the weekly schedule: programs fetched from the store and
 * shown one day at a time, an add/edit dialog whose type selector also picks
 * the program's icon, and per-row delete.
 */
module ScheduleAdmin {
  import opened Wrappers
  import opened SeqOps
  import opened Store
  import opened Records
  import opened AdminCommon

  /** The day tabs, in order. */
  const Days: seq<string> := ["lunes", "martes", "miercoles", "jueves", "viernes", "sabado", "domingo"]

  const DefaultCity := "Hermosillo"
  const SaveFailedPrefix := "Error al guardar programa: "
  const DeletePrompt := "¿Eliminar este programa?"

  /** The icon name the type selector stores with each type. */
  const TypeToIconTable: map<string, string> := map[
    "worship" := "Heart", "teaching" := "BookOpen", "talk" := "Users", "prayer" := "Mic",
    "music" := "Music", "kids" := "Smile", "news" := "Newspaper", "voice" := "Mic2"]

  /** The icon component the list draws for each type. */
  const ProgramIcons: map<string, string> := map[
    "worship" := "Heart", "teaching" := "BookOpen", "talk" := "Users", "prayer" := "Mic",
    "music" := "Music", "kids" := "Smile", "news" := "Newspaper", "voice" := "Mic2"]

  /** The selector's `typeToIcon[val] || "Clock"`. */
  function TypeToIcon(programType: string): (icon: string)
    ensures programType in TypeToIconTable ==> icon == TypeToIconTable[programType]
    ensures programType !in TypeToIconTable ==> icon == "Clock"
  {
    if programType in TypeToIconTable then TypeToIconTable[programType] else "Clock"
  }

  /** The list's `programIcons[program.type] || Music`. */
  function DisplayIcon(programType: string): (icon: string)
    ensures programType in ProgramIcons ==> icon == ProgramIcons[programType]
    ensures programType !in ProgramIcons ==> icon == "Music"
  {
    if programType in ProgramIcons then ProgramIcons[programType] else "Music"
  }

  /** Both tables know the same eight types and agree on each, so a program
      of a known type is drawn with the icon stored for it; they part only on
      an unknown type, stored as "Clock" and drawn as Music. */
  lemma IconTablesAgree(programType: string)
    ensures programType in TypeToIconTable <==> programType in ProgramIcons
    ensures programType in ProgramIcons ==> TypeToIcon(programType) == DisplayIcon(programType)
    ensures programType !in ProgramIcons ==> TypeToIcon(programType) == "Clock" && DisplayIcon(programType) == "Music"
  {
    assert TypeToIconTable == ProgramIcons;
  }

  /** `programsByDay`: the programs of the active day, in fetched order. */
  function ProgramsByDay(programs: seq<Program>, day: string): (r: seq<Program>)
    ensures forall p :: p in r <==> p in programs && p.day == day
    ensures IsSubsequence(r, programs)
    ensures forall p :: multiset(r)[p] == if p.day == day then multiset(programs)[p] else 0
  {
    var keep := (p: Program) => p.day == day;
    FilterIsSubsequence(programs, keep);
    FilterMultiplicity(programs, keep);
    Filter(programs, keep)
  }

  /** Each program is listed under its own day's tab and under no other. */
  lemma EachProgramUnderOneTab(programs: seq<Program>, p: Program, day: string)
    requires p in programs
    ensures p in ProgramsByDay(programs, day) <==> day == p.day
  {
  }

  /** A schedule whose programs all fall on days of the week is covered by the
      seven tabs: the tabs' lists together are as long as the whole list. */
  function TabsLength(programs: seq<Program>, days: seq<string>): nat {
    if days == [] then 0 else |ProgramsByDay(programs, days[0])| + TabsLength(programs, days[1..])
  }

  lemma {:induction false} TabsCoverSchedule(programs: seq<Program>, days: seq<string>)
    requires forall i, j :: 0 <= i < j < |days| ==> days[i] != days[j]
    requires forall k :: 0 <= k < |programs| ==> programs[k].day in days
    ensures TabsLength(programs, days) == |programs|
    decreases |programs|
  {
    if programs == [] {
      TabsLengthOfEmpty(days);
    } else {
      var p := programs[0];
      var rest := programs[1..];
      assert programs == [p] + rest;
      assert p.day in days;
      TabsCoverSchedule(rest, days);
      TabsLengthOfCons(p, rest, days);
    }
  }

  lemma {:induction false} TabsLengthOfEmpty(days: seq<string>)
    ensures TabsLength([], days) == 0
  {
    if days != [] {
      TabsLengthOfEmpty(days[1..]);
    }
  }

  lemma {:induction false} TabsLengthOfCons(p: Program, rest: seq<Program>, days: seq<string>)
    requires forall i, j :: 0 <= i < j < |days| ==> days[i] != days[j]
    ensures TabsLength([p] + rest, days) == TabsLength(rest, days) + (if p.day in days then 1 else 0)
  {
    if days != [] {
      var keep := (q: Program) => q.day == days[0];
      assert ([p] + rest)[1..] == rest;
      assert ProgramsByDay([p] + rest, days[0]) == Filter([p] + rest, keep);
      TabsLengthOfCons(p, rest, days[1..]);
      assert p.day in days <==> p.day == days[0] || p.day in days[1..];
    }
  }

  lemma DaysAreDistinct()
    ensures forall i, j :: 0 <= i < j < |Days| ==> Days[i] != Days[j]
  {
  }

  /** The dialog's fields, as they are sent to the store. */
  datatype ProgramForm = ProgramForm(
    day: string, time: string, title: string, host: string, programType: string,
    icon: string, city: string)

  /** The add dialog: the active tab's day, empty text, a music program in
      Hermosillo. */
  function AddForm(activeDay: string): (f: ProgramForm)
    ensures f.day == activeDay && f.time == "" && f.title == "" && f.host == ""
    ensures f.programType == "music" && f.icon == "Music" && f.city == DefaultCity
  {
    ProgramForm(activeDay, "", "", "", "music", "Music", DefaultCity)
  }

  /** The edit dialog: the record's fields, a missing city as Hermosillo. */
  function EditForm(p: Program): (f: ProgramForm)
    ensures f.day == p.day && f.time == p.time && f.title == p.title && f.host == p.host
    ensures f.programType == p.programType && f.icon == p.icon
    ensures f.city == OrElse(OrEmpty(p.city), DefaultCity)
  {
    ProgramForm(p.day, p.time, p.title, p.host, p.programType, p.icon, OrElse(OrEmpty(p.city), DefaultCity))
  }

  /** The new dialog's icon is the one its type selects. */
  lemma AddFormIconMatchesType(activeDay: string)
    ensures AddForm(activeDay).icon == TypeToIcon(AddForm(activeDay).programType)
  {
    assert "music" in TypeToIconTable;
  }

  function ProgramId(p: Program): string { p.id }

  class SchedulePage {
    var activeDay: string
    var programs: seq<Program>
    var loading: bool
    var isDialogOpen: bool
    var editing: Option<Program>
    var form: ProgramForm
    var requests: seq<Call<ProgramForm>>
    var alerts: seq<string>
    var confirms: seq<string>

    /** The initial state, and the mount effect's fetch. */
    constructor ()
      ensures activeDay == "lunes" && programs == [] && loading && !isDialogOpen && editing.None?
      ensures form == ProgramForm("lunes", "", "", "", "music", "Music", DefaultCity)
      ensures requests == [Select] && alerts == [] && confirms == []
    {
      activeDay := "lunes";
      programs := [];
      loading := true;
      isDialogOpen := false;
      editing := None;
      form := ProgramForm("lunes", "", "", "", "music", "Music", DefaultCity);
      requests := [Select];
      alerts := [];
      confirms := [];
    }

    /** What the active tab lists. */
    function Shown(): seq<Program>
      reads this
    {
      ProgramsByDay(programs, activeDay)
    }

    method Fetched(answer: Fetch<Program>)
      modifies this`programs, this`loading
      ensures programs == AfterFetch(old(programs), answer) && !loading
    {
      programs := AfterFetch(programs, answer);
      loading := false;
    }

    /** A day tab. */
    method ActiveDayChanged(day: string)
      modifies this`activeDay
      ensures activeDay == day
    {
      activeDay := day;
    }

    /** The add button (`None`) or a row's edit button. */
    method HandleOpenDialog(program: Option<Program>)
      modifies this`editing, this`form, this`isDialogOpen
      ensures editing == program && isDialogOpen
      ensures program.None? ==> form == AddForm(activeDay)
      ensures program.Some? ==> form == EditForm(program.value)
    {
      editing := program;
      if program.Some? {
        form := EditForm(program.value);
      } else {
        form := AddForm(activeDay);
      }
      isDialogOpen := true;
    }

    /** The dialog's own close (overlay, Escape, its close mark) and the
        "Cancelar" button, which passes `false`. */
    method DialogOpenChanged(open: bool)
      modifies this`isDialogOpen
      ensures isDialogOpen == open
    {
      isDialogOpen := open;
    }

    /** The day selector. */
    method DayChanged(value: string)
      modifies this`form
      ensures form == old(form).(day := value)
    {
      form := form.(day := value);
    }

    /** The time input. */
    method TimeChanged(value: string)
      modifies this`form
      ensures form == old(form).(time := value)
    {
      form := form.(time := value);
    }

    /** The title input. */
    method TitleChanged(value: string)
      modifies this`form
      ensures form == old(form).(title := value)
    {
      form := form.(title := value);
    }

    /** The host input. */
    method HostChanged(value: string)
      modifies this`form
      ensures form == old(form).(host := value)
    {
      form := form.(host := value);
    }

    /** The city selector. */
    method CityChanged(value: string)
      modifies this`form
      ensures form == old(form).(city := value)
    {
      form := form.(city := value);
    }

    /** The type selector sets the type and its icon together. */
    method TypeChanged(val: string)
      modifies this`form
      ensures form == old(form).(programType := val, icon := TypeToIcon(val))
      ensures form.icon == TypeToIcon(form.programType)
    {
      form := form.(programType := val, icon := TypeToIcon(val));
    }

    /** The save button. There is no field check: the write is sent whatever
        the fields hold. */
    method HandleSave(answer: Outcome)
      modifies this`isDialogOpen, this`loading, this`requests, this`alerts
      ensures requests == old(requests) + SaveRequests(editing, ProgramId, form, answer)
      ensures answer.Ok? ==> !isDialogOpen && loading && alerts == old(alerts)
      ensures answer.Failed? ==>
        isDialogOpen == old(isDialogOpen) && loading == old(loading) &&
        alerts == old(alerts) + [SaveFailedPrefix + answer.message]
    {
      requests := requests + [SaveCall(editing, ProgramId, form)];
      if answer.Ok? {
        isDialogOpen := false;
        loading := true;
        requests := requests + [Select];
      } else {
        alerts := alerts + [SaveFailedPrefix + answer.message];
      }
    }

    /** A row's delete button. A successful delete refetches the schedule
        instead of editing the local list. */
    method HandleDelete(id: string, confirmed: bool, answer: Outcome)
      modifies this`loading, this`requests, this`alerts, this`confirms
      ensures confirms == old(confirms) + [DeletePrompt]
      ensures !confirmed ==> requests == old(requests) && alerts == old(alerts) && loading == old(loading)
      ensures confirmed && answer.Ok? ==>
        requests == old(requests) + [Delete(id), Select] && loading && alerts == old(alerts)
      ensures confirmed && answer.Failed? ==>
        requests == old(requests) + [Delete(id)] && loading == old(loading) &&
        alerts == old(alerts) + [DeleteFailed]
    {
      confirms := confirms + [DeletePrompt];
      if !confirmed {
        return;
      }
      requests := requests + [Delete(id)];
      if answer.Failed? {
        alerts := alerts + [DeleteFailed];
      } else {
        loading := true;
        requests := requests + [Select];
      }
    }
  }
}
