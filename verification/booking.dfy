/** The patient view of the demo (components/Demo.tsx, PatientView): a
    dashboard with a simulated queue position and an appointment list, and a
    five-step booking wizard (specialty, doctor, date, time, confirm). */
module Booking {
  import opened Wrappers
  import opened Types
  import opened Fixtures
  import opened Seqs
  import opened Translations

  /** The wizard's accumulator; `None` stands for the source's `null`. */
  datatype BookingData = BookingData(
    specialty: Option<Specialty>,
    doctor: Option<Doctor>,
    date: Option<string>,
    time: Option<string>)

  const EmptyBooking := BookingData(None, None, None, None)

  /** Steps: 0 dashboard, 1 specialty, 2 doctor, 3 date, 4 time, 5 confirm. */
  datatype PatientViewState = PatientViewState(
    appointments: seq<Appointment>,
    queuePos: int,
    notifyMe: bool,
    step: int,
    data: BookingData)

  /** The fixed candidate time slots offered at step 4. */
  const TimeSlots: seq<string> := ["09:00", "09:30", "10:00", "10:30", "11:00",
    "14:00", "14:30", "15:00", "15:30", "16:00", "16:30"]

  /** The state on mount: one upcoming appointment dated with the locale's
      word for "today", queue position 3, notifications off, the dashboard. */
  function Initial(today: string): (s: PatientViewState)
    ensures s.step == 0 && s.data == EmptyBooking && s.queuePos == 3 && !s.notifyMe
    ensures |s.appointments| == 1 && s.appointments[0].status == Upcoming
    ensures s.appointments[0].date == today && s.appointments[0].specialty == "Kardiolog"
  {
    PatientViewState(
      [Appointment(1, "Dr. Azimov", "Kardiolog", today, "14:30", Upcoming)],
      3, false, 0, EmptyBooking)
  }

  // ---------------------------------------------------------------- queue

  /** One timer tick of the simulated queue: counts down, floored at 1. */
  function QueueTick(p: int): (r: int)
    ensures r >= 1
    ensures r < p || p <= 1
  {
    if p > 1 then p - 1 else 1
  }

  /** The queue position after `n` ticks. */
  function QueueAfter(p: int, n: nat): int
    decreases n
  {
    if n == 0 then p else QueueAfter(QueueTick(p), n - 1)
  }

  /** From a position p >= 1, n ticks give max(p - n, 1): the counter moves
      down one per tick and never drops below 1. */
  lemma {:induction false} QueueAfterTicks(p: int, n: nat)
    requires p >= 1
    ensures QueueAfter(p, n) == if p - n >= 1 then p - n else 1
    ensures QueueAfter(p, n) >= 1
    decreases n
  {
    if n > 0 {
      QueueAfterTicks(QueueTick(p), n - 1);
    }
  }

  /** From the initial position 3 the counter reaches 1 after two ticks and
      stays there. */
  lemma QueueFromThree(n: nat)
    ensures n <= 2 ==> QueueAfter(3, n) == 3 - n
    ensures n >= 2 ==> QueueAfter(3, n) == 1
  {
    QueueAfterTicks(3, n);
  }

  // ---------------------------------------------------------------- doctors

  /** `getAvailableDoctors`: no specialty chosen gives no doctors; otherwise
      the fixture doctors whose specialty string equals the specialty's name,
      in fixture order (see `Seqs.FilterAppend`). */
  function AvailableDoctors(spec: Option<Specialty>): (r: seq<Doctor>)
    ensures spec.None? ==> r == []
    ensures forall d :: d in r <==> spec.Some? && d in MockDoctors && d.specialty == spec.value.name
  {
    match spec
    case None => []
    case Some(sp) => Filter(MockDoctors, HasSpecialty(sp.name))
  }

  /** The filter's test: the doctor's specialty string equals `name`. */
  function HasSpecialty(name: string): Doctor -> bool {
    (d: Doctor) => d.specialty == name
  }

  /** The doctor filter spelt out over the four fixture rows. */
  lemma AvailableDoctorsUnfold(sp: Specialty)
    ensures var p := HasSpecialty(sp.name);
      AvailableDoctors(Some(sp)) ==
        Keep(MockDoctors[0], p) + Keep(MockDoctors[1], p) + Keep(MockDoctors[2], p) + Keep(MockDoctors[3], p)
  {
    var ds := MockDoctors;
    assert ds == [ds[0], ds[1], ds[2], ds[3]];
    Filter4(ds[0], ds[1], ds[2], ds[3], HasSpecialty(sp.name));
  }

  /** The doctors each specialty row offers: on the fixture, Kardiolog,
      Terapevt, Nevropatolog and Pediatr each offer exactly their one doctor,
      and Stomatolog and Dermatolog offer none. */
  function Offered(i: nat): seq<Doctor>
    requires i < |MockSpecialties|
  {
    match i
    case 0 => [MockDoctors[1]]
    case 1 => [MockDoctors[0]]
    case 2 => [MockDoctors[2]]
    case 3 => [MockDoctors[3]]
    case _ => []
  }

  lemma DoctorsPerSpecialty(i: nat)
    requires i < |MockSpecialties|
    ensures AvailableDoctors(Some(MockSpecialties[i])) == Offered(i)
  {
    var sp, ds := MockSpecialties[i], MockDoctors;
    var p := HasSpecialty(sp.name);
    AvailableDoctorsUnfold(sp);
    assert ds[0].specialty == "Kardiolog" && ds[1].specialty == "Terapevt";
    assert ds[2].specialty == "Nevropatolog" && ds[3].specialty == "Pediatr";
    if i == 0 {
      assert sp.name == "Terapevt";
      assert !p(ds[0]) && p(ds[1]) && !p(ds[2]) && !p(ds[3]);
    } else if i == 1 {
      assert sp.name == "Kardiolog";
      assert p(ds[0]) && !p(ds[1]) && !p(ds[2]) && !p(ds[3]);
    } else if i == 2 {
      assert sp.name == "Nevropatolog";
      assert !p(ds[0]) && !p(ds[1]) && p(ds[2]) && !p(ds[3]);
    } else if i == 3 {
      assert sp.name == "Pediatr";
      assert !p(ds[0]) && !p(ds[1]) && !p(ds[2]) && p(ds[3]);
    } else if i == 4 {
      assert sp.name == "Stomatolog";
      assert !p(ds[0]) && !p(ds[1]) && !p(ds[2]) && !p(ds[3]);
    } else {
      assert sp.name == "Dermatolog";
      assert !p(ds[0]) && !p(ds[1]) && !p(ds[2]) && !p(ds[3]);
    }
  }

  /** A specialty's `count` is a display figure: it never equals the number
      of doctors the filter actually offers. */
  lemma CountIsDisplayOnly()
    ensures forall i :: 0 <= i < |MockSpecialties| ==>
      MockSpecialties[i].count != |AvailableDoctors(Some(MockSpecialties[i]))|
  {
    forall i | 0 <= i < |MockSpecialties|
      ensures MockSpecialties[i].count != |AvailableDoctors(Some(MockSpecialties[i]))|
    {
      DoctorsPerSpecialty(i);
    }
  }

  // ---------------------------------------------------------------- wizard

  /** The user actions of the patient view, plus the queue timer firing.
      Dates are the opaque labels produced for the next five days; ids are
      the click-time clock reading. */
  datatype PatientEvent =
    | Tick
    | ToggleNotify
    | StartBooking
    | Back
    | PickSpecialty(spec: Specialty)
    | PickDoctor(doc: Doctor)
    | PickDate(date: string)
    | PickTime(time: string)
    | Confirm(id: int)

  /** Whether the control for `e` is on screen in state `s`: the dashboard
      (step 0) holds the booking button and the notification switch, every
      wizard step has the back button, step k lists the choices for field k,
      and step 5 has the confirm button. The timer runs throughout. */
  predicate Rendered(s: PatientViewState, e: PatientEvent) {
    match e
    case Tick => true
    case ToggleNotify => s.step == 0
    case StartBooking => s.step == 0
    case Back => s.step > 0
    case PickSpecialty(spec) => s.step == 1 && spec in MockSpecialties
    case PickDoctor(doc) => s.step == 2 && doc in AvailableDoctors(s.data.specialty)
    case PickDate(date) => s.step == 3 && date != ""
    case PickTime(time) => s.step == 4 && time in TimeSlots
    case Confirm(_) => s.step == 5
  }

  /** JavaScript truthiness of an optional string: present and non-empty. */
  predicate Truthy(o: Option<string>) {
    o.Some? && o.value != ""
  }

  /** `resetBooking`: back to the dashboard with every field cleared. */
  function ResetBooking(s: PatientViewState): (r: PatientViewState)
    ensures r.step == 0 && r.data == EmptyBooking
    ensures r.appointments == s.appointments && r.queuePos == s.queuePos && r.notifyMe == s.notifyMe
  {
    s.(step := 0, data := EmptyBooking)
  }

  /** `confirmBooking`: with doctor, date and time all set it appends one
      upcoming appointment for that doctor (its specialty taken from the
      doctor record) after the existing ones and resets the wizard; with any
      of the three missing nothing changes. */
  function ConfirmBooking(s: PatientViewState, id: int): (r: PatientViewState)
    ensures s.data.doctor.Some? && Truthy(s.data.date) && Truthy(s.data.time) ==>
      && |r.appointments| == |s.appointments| + 1
      && r.appointments[..|s.appointments|] == s.appointments
      && r.appointments[|s.appointments|] == Appointment(id, s.data.doctor.value.name,
           s.data.doctor.value.specialty, s.data.date.value, s.data.time.value, Upcoming)
      && r.step == 0 && r.data == EmptyBooking
      && r.queuePos == s.queuePos && r.notifyMe == s.notifyMe
    ensures !(s.data.doctor.Some? && Truthy(s.data.date) && Truthy(s.data.time)) ==> r == s
  {
    if s.data.doctor.Some? && Truthy(s.data.date) && Truthy(s.data.time) then
      var appt := Appointment(id, s.data.doctor.value.name, s.data.doctor.value.specialty,
                              s.data.date.value, s.data.time.value, Upcoming);
      ResetBooking(s.(appointments := s.appointments + [appt]))
    else
      s
  }

  /** The state after event `e`, applying the handler its control runs. */
  function Dispatch(s: PatientViewState, e: PatientEvent): PatientViewState {
    match e
    case Tick => s.(queuePos := QueueTick(s.queuePos))
    case ToggleNotify => s.(notifyMe := !s.notifyMe)
    case StartBooking => s.(step := 1)
    case Back => s.(step := s.step - 1)
    case PickSpecialty(spec) => s.(data := s.data.(specialty := Some(spec)), step := 2)
    case PickDoctor(doc) => s.(data := s.data.(doctor := Some(doc)), step := 3)
    case PickDate(date) => s.(data := s.data.(date := Some(date)), step := 4)
    case PickTime(time) => s.(data := s.data.(time := Some(time)), step := 5)
    case Confirm(id) => ConfirmBooking(s, id)
  }

  /** Field k of the accumulator is set (1 specialty, 2 doctor, 3 date, 4 time). */
  predicate FieldSet(d: BookingData, k: int) {
    (k == 1 && d.specialty.Some?) || (k == 2 && d.doctor.Some?)
    || (k == 3 && d.date.Some?) || (k == 4 && d.time.Some?)
  }

  /** `a` and `b` agree on every field except possibly field k. */
  predicate SameExcept(a: BookingData, b: BookingData, k: int) {
    && (k == 1 || a.specialty == b.specialty)
    && (k == 2 || a.doctor == b.doctor)
    && (k == 3 || a.date == b.date)
    && (k == 4 || a.time == b.time)
  }

  /** The wizard invariant: the step is in 0..5, the queue is at least 1,
      every field up to the current step is set (so confirmation is never
      reached with a missing field), the chosen doctor belongs to the chosen
      specialty, and every set field holds a value the screens offered. */
  predicate Valid(s: PatientViewState) {
    && 0 <= s.step <= 5
    && s.queuePos >= 1
    && (s.step >= 2 ==> s.data.specialty.Some?)
    && (s.step >= 3 ==> s.data.doctor.Some? && s.data.doctor.value.specialty == s.data.specialty.value.name)
    && (s.step >= 4 ==> Truthy(s.data.date))
    && (s.step == 5 ==> Truthy(s.data.time))
    && (s.data.specialty.Some? ==> s.data.specialty.value in MockSpecialties)
    && (s.data.doctor.Some? ==> s.data.doctor.value in MockDoctors)
    && (s.data.time.Some? ==> s.data.time.value in TimeSlots)
  }

  lemma InitialValid(today: string)
    ensures Valid(Initial(today))
  {
  }

  /** Mounted in either locale, the dashboard's one appointment is dated by
      that locale's word for today, and nothing else differs. */
  lemma InitialInLocale(lang: Language)
    ensures Valid(Initial(Today(lang))) && Initial(Today(lang)).appointments[0].date == Today(lang)
    ensures Initial(Today(Uz)).(appointments := []) == Initial(Today(Ru)).(appointments := [])
    ensures Initial(Today(Uz)).appointments != Initial(Today(Ru)).appointments
    ensures Initial(Today(Uz)).appointments[0].(date := Today(Ru)) == Initial(Today(Ru)).appointments[0]
  {
    InitialValid(Today(lang));
    assert Initial(Today(Uz)).appointments[0].date != Initial(Today(Ru)).appointments[0].date;
  }

  /** Every on-screen event keeps the invariant. */
  lemma DispatchValid(s: PatientViewState, e: PatientEvent)
    requires Valid(s) && Rendered(s, e)
    ensures Valid(Dispatch(s, e))
  {
  }

  /** Step moves: a selection at step k stores the picked value in field k,
      leaves the other fields alone and moves to k + 1; the booking button
      moves 0 to 1 without touching the fields; back moves k to k - 1 and
      leaves the accumulator as it was; no other event moves forward. The
      appointment list changes only on confirm, the queue only on a tick and
      the notification switch only on its own toggle. */
  lemma StepMoves(s: PatientViewState, e: PatientEvent)
    requires Rendered(s, e)
    ensures var r := Dispatch(s, e);
      && (e.PickSpecialty? || e.PickDoctor? || e.PickDate? || e.PickTime? ==>
            r.step == s.step + 1 && FieldSet(r.data, s.step) && SameExcept(s.data, r.data, s.step))
      && (e.PickSpecialty? ==> r.data.specialty == Some(e.spec))
      && (e.PickDoctor? ==> r.data.doctor == Some(e.doc))
      && (e.PickDate? ==> r.data.date == Some(e.date))
      && (e.PickTime? ==> r.data.time == Some(e.time))
      && (!e.Tick? ==> r.queuePos == s.queuePos)
      && (!e.ToggleNotify? ==> r.notifyMe == s.notifyMe)
      && (e.Tick? || e.ToggleNotify? ==> r.step == s.step && r.data == s.data)
      && (e.StartBooking? ==> r.step == 1 && r.data == s.data)
      && (e.Back? ==> r.step == s.step - 1 && r.data == s.data)
      && (r.step > s.step ==> e.StartBooking? || e.PickSpecialty? || e.PickDoctor? || e.PickDate? || e.PickTime?)
      && (!e.Confirm? ==> r.appointments == s.appointments)
  {
  }

  /** Confirming from a reachable step 5 always books: one appointment is
      appended whose doctor and specialty are the ones chosen in the wizard,
      and the wizard is reset. */
  lemma ConfirmFromValid(s: PatientViewState, id: int)
    requires Valid(s) && s.step == 5
    ensures var r := Dispatch(s, Confirm(id));
      && r.appointments == s.appointments + [Appointment(id, s.data.doctor.value.name,
           s.data.specialty.value.name, s.data.date.value, s.data.time.value, Upcoming)]
      && r.step == 0 && r.data == EmptyBooking
  {
    var r := Dispatch(s, Confirm(id));
    assert r.appointments == r.appointments[..|s.appointments|] + [r.appointments[|s.appointments|]];
  }

  /** Backing out of the wizard to the dashboard keeps what was chosen. */
  lemma BackKeepsChoices(s: PatientViewState)
    requires Valid(s) && s.step == 3
    ensures var r := Dispatch(Dispatch(Dispatch(s, Back), Back), Back);
      r.step == 0 && r.data == s.data && r.data.specialty.Some? && r.data.doctor.Some?
  {
  }

  /** Choosing Stomatolog or Dermatolog leads to a doctor step with no
      doctor to pick: the only on-screen controls are back and the timer. */
  lemma EmptySpecialtyOnlyBack(s: PatientViewState, i: nat)
    requires s.step == 1 && (i == 4 || i == 5)
    ensures var r := Dispatch(s, PickSpecialty(MockSpecialties[i]));
      && r.step == 2 && AvailableDoctors(r.data.specialty) == []
      && forall e :: Rendered(r, e) ==> e.Back? || e.Tick?
  {
    DoctorsPerSpecialty(i);
  }

  // ---------------------------------------------------------------- traces

  /** The state after a sequence of events. */
  function Run(s: PatientViewState, es: seq<PatientEvent>): PatientViewState
    decreases |es|
  {
    if es == [] then s else Run(Dispatch(s, es[0]), es[1..])
  }

  /** Every event of `es` is on screen when it happens. */
  predicate OnScreen(s: PatientViewState, es: seq<PatientEvent>)
    decreases |es|
  {
    es == [] || (Rendered(s, es[0]) && OnScreen(Dispatch(s, es[0]), es[1..]))
  }

  /** Running four events is dispatching them one after another. */
  lemma RunFour(s: PatientViewState, a: PatientEvent, b: PatientEvent, c: PatientEvent, e: PatientEvent)
    ensures Run(s, [a, b, c, e]) == Dispatch(Dispatch(Dispatch(Dispatch(s, a), b), c), e)
  {
    var s1 := Dispatch(s, a);
    var s2 := Dispatch(s1, b);
    var s3 := Dispatch(s2, c);
    assert [a, b, c, e][1..] == [b, c, e] && [b, c, e][1..] == [c, e];
    assert [c, e][1..] == [e] && [e][1..] == [];
    assert Run(s3, [e]) == Run(Dispatch(s3, e), []);
    assert Run(s2, [c, e]) == Run(s3, [e]);
    assert Run(s1, [b, c, e]) == Run(s2, [c, e]);
    assert Run(s, [a, b, c, e]) == Run(s1, [b, c, e]);
  }

  /** Picking a doctor, a date and a time and then confirming books exactly
      what was picked: one upcoming appointment for that doctor, in that
      doctor's specialty, at that date and time, after the existing ones. */
  lemma BookedAsPicked(s: PatientViewState, doc: Doctor, date: string, time: string, id: int)
    requires date != "" && time != ""
    ensures var r := Run(s, [PickDoctor(doc), PickDate(date), PickTime(time), Confirm(id)]);
      && r.appointments == s.appointments + [Appointment(id, doc.name, doc.specialty, date, time, Upcoming)]
      && r.step == 0 && r.data == EmptyBooking
  {
    RunFour(s, PickDoctor(doc), PickDate(date), PickTime(time), Confirm(id));
    var s1 := s.(data := s.data.(doctor := Some(doc)), step := 3);
    assert Dispatch(s, PickDoctor(doc)) == s1;
    var s2 := s1.(data := s1.data.(date := Some(date)), step := 4);
    assert Dispatch(s1, PickDate(date)) == s2;
    var s3 := s2.(data := s2.data.(time := Some(time)), step := 5);
    assert Dispatch(s2, PickTime(time)) == s3;
    var r := ConfirmBooking(s3, id);
    assert r.appointments == r.appointments[..|s3.appointments|] + [r.appointments[|s3.appointments|]];
  }

  /** Every state the user can reach by clicking keeps the invariant; in
      particular the confirmation step always has all four fields. */
  lemma {:induction false} ReachableValid(s: PatientViewState, es: seq<PatientEvent>)
    requires Valid(s) && OnScreen(s, es)
    ensures Valid(Run(s, es))
    ensures Run(s, es).step == 5 ==>
      && Run(s, es).data.specialty.Some? && Run(s, es).data.doctor.Some?
      && Run(s, es).data.date.Some? && Run(s, es).data.time.Some?
    decreases |es|
  {
    if es != [] {
      DispatchValid(s, es[0]);
      ReachableValid(Dispatch(s, es[0]), es[1..]);
    }
  }

  /** The appointment list only grows: a run appends to it and never
      rewrites what was there. */
  lemma {:induction false} AppointmentsOnlyGrow(s: PatientViewState, es: seq<PatientEvent>)
    ensures |Run(s, es).appointments| >= |s.appointments|
    ensures Run(s, es).appointments[..|s.appointments|] == s.appointments
    decreases |es|
  {
    if es != [] {
      var t := Dispatch(s, es[0]);
      assert t.appointments[..|s.appointments|] == s.appointments;
      AppointmentsOnlyGrow(t, es[1..]);
      assert Run(s, es).appointments[..|t.appointments|] == t.appointments;
      assert Run(s, es).appointments[..|s.appointments|]
          == Run(s, es).appointments[..|t.appointments|][..|s.appointments|];
    }
  }
}
