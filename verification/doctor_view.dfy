/** The doctor view of the demo (components/Demo.tsx, DoctorView): a
    patient list split into in-progress and waiting patients, a selected
    patient whose visit can be started and finished, an examination form of
    pending medicines and attachments, and a newest-first history list. */
module DoctorView {
  import opened Wrappers
  import opened Types
  import opened Fixtures
  import opened Seqs
  import opened Text
  import opened Translations

  datatype ViewMode = List | Detail

  /** The two quick entries the modal can save. */
  datatype NoteKind = DiagnosisNote | PrescriptionNote

  datatype DoctorViewState = DoctorViewState(
    selected: Patient,
    view: ViewMode,
    examining: bool,
    history: seq<MedicalHistoryItem>,
    modalOpen: bool,
    noteKind: NoteKind,
    inputText: string,
    medicineInput: string,
    medicines: seq<string>,
    attachments: seq<Attachment>)

  // ---------------------------------------------------------------- lists

  function HasStatus(st: PatientStatus): Patient -> bool {
    (p: Patient) => p.status == st
  }

  /** The waiting list, always computed from the fixture. */
  function WaitingPatients(): (r: seq<Patient>)
    ensures forall p :: p in r <==> p in MockPatients && p.status == Waiting
  {
    Filter(MockPatients, HasStatus(Waiting))
  }

  /** The in-progress list, always computed from the fixture. */
  function CurrentPatients(): (r: seq<Patient>)
    ensures forall p :: p in r <==> p in MockPatients && p.status == InProgress
  {
    Filter(MockPatients, HasStatus(InProgress))
  }

  /** `p` is the first patient of `ps` whose status is `st`. */
  predicate FirstWithStatus(ps: seq<Patient>, st: PatientStatus, p: Patient) {
    exists i :: 0 <= i < |ps| && ps[i] == p && ps[i].status == st
                && forall j :: 0 <= j < i ==> ps[j].status != st
  }

  /** The head of a status filter is the first patient with that status, and
      an empty status filter means no patient has it. */
  lemma FilterByStatus(ps: seq<Patient>, st: PatientStatus)
    ensures Filter(ps, HasStatus(st)) != [] ==> FirstWithStatus(ps, st, Filter(ps, HasStatus(st))[0])
    ensures Filter(ps, HasStatus(st)) == [] ==> forall i :: 0 <= i < |ps| ==> ps[i].status != st
  {
    if Filter(ps, HasStatus(st)) != [] {
      FilterHead(ps, HasStatus(st));
    }
  }

  /** The patient selected on mount: the first in-progress patient, else the
      first waiting one, else the first patient. */
  function InitialSelection(ps: seq<Patient>): (p: Patient)
    requires |ps| > 0
    ensures p in ps
    ensures (exists i :: 0 <= i < |ps| && ps[i].status == InProgress) ==> FirstWithStatus(ps, InProgress, p)
    ensures (forall i :: 0 <= i < |ps| ==> ps[i].status != InProgress) ==>
              (exists i :: 0 <= i < |ps| && ps[i].status == Waiting) ==> FirstWithStatus(ps, Waiting, p)
    ensures (forall i :: 0 <= i < |ps| ==> ps[i].status != InProgress && ps[i].status != Waiting) ==>
              p == ps[0]
  {
    FilterByStatus(ps, InProgress);
    FilterByStatus(ps, Waiting);
    var current := Filter(ps, HasStatus(InProgress));
    var waiting := Filter(ps, HasStatus(Waiting));
    if |current| > 0 then current[0] else if |waiting| > 0 then waiting[0] else ps[0]
  }

  /** The two history entries present on mount. */
  function InitialHistory(texts: DoctorTexts): seq<MedicalHistoryItem> {
    [ MedicalHistoryItem(1, Diagnosis, "Bronxit", "12.05.2024", texts.diagnosisHistory,
        Some([Attachment(Rentgen, "Ko'krak qafasi rentgeni", "12.05.2024")]),
        Some(["Amoxicillin 500mg", "Paracetamol"])),
      MedicalHistoryItem(2, Lab, texts.testResults, "12.05.2024", "Hemoglobin: 130, RBC: 4.5", None, None) ]
  }

  /** The state on mount. The history opens with a diagnosis described by
      the locale's complaint text and a lab entry titled by the locale. */
  function Initial(texts: DoctorTexts): (s: DoctorViewState)
    ensures s.selected in MockPatients && s.view == List && !s.modalOpen
    ensures s.examining == (s.selected.status == InProgress)
    ensures s.medicines == [] && s.attachments == [] && |s.history| == 2
    ensures s.history[0].kind == Diagnosis && s.history[0].description == texts.diagnosisHistory
    ensures s.history[1].kind == Lab && s.history[1].title == texts.testResults
  {
    var p := InitialSelection(MockPatients);
    DoctorViewState(p, List, p.status == InProgress, InitialHistory(texts),
                    false, DiagnosisNote, "", "", [], [])
  }

  /** The mounted view satisfies the view invariant. */
  lemma InitialValid(texts: DoctorTexts)
    ensures Valid(Initial(texts))
  {
  }

  /** Mounted in either locale, the view differs only in the history texts
      it copied from that locale. */
  lemma InitialInLocale(lang: Language)
    ensures Valid(Initial(DoctorTextsFor(lang)))
    ensures Initial(DoctorTextsFor(lang)).history[0].description == DoctorTextsFor(lang).diagnosisHistory
    ensures Initial(DoctorTextsFor(Uz)).(history := []) == Initial(DoctorTextsFor(Ru)).(history := [])
    ensures Initial(DoctorTextsFor(Uz)).history != Initial(DoctorTextsFor(Ru)).history
    ensures var u, r := Initial(DoctorTextsFor(Uz)).history, Initial(DoctorTextsFor(Ru)).history;
      && u[0].(description := r[0].description) == r[0]
      && u[1].(title := r[1].title) == r[1]
  {
    assert Initial(DoctorTextsFor(Uz)).history[0].description != Initial(DoctorTextsFor(Ru)).history[0].description;
  }

  /** Exactly one fixture patient is in progress (id "2"), so the view opens
      on that patient with the examination form showing. */
  lemma InitialSelectsInProgress(texts: DoctorTexts)
    ensures CurrentPatients() == [MockPatients[1]]
    ensures Initial(texts).selected == MockPatients[1] && MockPatients[1].id == "2"
    ensures Initial(texts).examining
  {
    var ps, p := MockPatients, HasStatus(InProgress);
    assert ps[3..][1..] == [];
    assert ps[2..][1..] == ps[3..];
    assert ps[1..][1..] == ps[2..];
    assert Filter(ps[3..], p) == [];
    assert Filter(ps[2..], p) == [];
    assert Filter(ps[1..], p) == [ps[1]];
  }

  // ---------------------------------------------------------------- handlers

  /** The effect keyed on the selected patient: whenever a transition
      replaces the selected patient with a different one, the examining flag
      is recomputed from its status and the pending medicines and
      attachments are discarded (the typed medicine text is kept). */
  function Commit(prev: DoctorViewState, next: DoctorViewState): (r: DoctorViewState)
    ensures r.(examining := next.examining, medicines := next.medicines, attachments := next.attachments) == next
    ensures next.selected != prev.selected ==> Valid(r) && r.medicines == [] && r.attachments == []
    ensures next.selected == prev.selected ==> r == next
  {
    if next.selected != prev.selected then
      next.(examining := next.selected.status == InProgress, medicines := [], attachments := [])
    else next
  }

  /** `handleSelectPatient` followed by the effect; on a narrow screen the
      detail panel is shown. */
  function SelectPatient(s: DoctorViewState, p: Patient, narrow: bool): (r: DoctorViewState)
    ensures r.selected == p && r.history == s.history
    ensures r.view == (if narrow then Detail else s.view)
    ensures p != s.selected ==> r.medicines == [] && r.attachments == [] && r.examining == (p.status == InProgress)
    ensures p == s.selected ==> r.medicines == s.medicines && r.attachments == s.attachments && r.examining == s.examining
    ensures r.(selected := s.selected, view := s.view, examining := s.examining,
               medicines := s.medicines, attachments := s.attachments) == s
  {
    Commit(s, s.(selected := p, view := if narrow then Detail else s.view))
  }

  /** `handleStatusChange` followed by the effect: waiting becomes in
      progress and the form opens; in progress becomes completed, the form
      closes (dropping unsaved entries) and the list is shown; a completed
      visit is left alone. Only the selected copy changes. */
  function StatusChange(s: DoctorViewState): (r: DoctorViewState)
    ensures s.selected.status == Waiting ==>
      r.selected == s.selected.(status := InProgress) && r.examining
      && r.medicines == [] && r.attachments == [] && r.view == s.view
    ensures s.selected.status == InProgress ==>
      r.selected == s.selected.(status := Completed) && !r.examining
      && r.medicines == [] && r.attachments == [] && r.view == List
    ensures s.selected.status == Completed ==> r == s
    ensures r.history == s.history && r.selected.id == s.selected.id
    ensures r.(selected := s.selected, examining := s.examining, medicines := s.medicines,
               attachments := s.attachments, view := s.view) == s
  {
    match s.selected.status
    case Waiting => Commit(s, s.(selected := s.selected.(status := InProgress), examining := true))
    case InProgress => Commit(s, s.(selected := s.selected.(status := Completed), examining := false, view := List))
    case Completed => s
  }

  /** `handleAddMedicine`: Enter on a non-blank input appends the trimmed
      text to the pending medicines and clears the input; any other key, or
      Enter on a blank input, changes nothing. */
  function MedicineKey(s: DoctorViewState, enter: bool): (r: DoctorViewState)
    ensures enter && Trim(s.medicineInput) != [] ==>
      && r.medicines == s.medicines + [Trim(s.medicineInput)] && r.medicineInput == []
      && r.attachments == s.attachments && r.history == s.history && r.selected == s.selected
    ensures !enter || Trim(s.medicineInput) == [] ==> r == s
    ensures r.(medicines := s.medicines, medicineInput := s.medicineInput) == s
  {
    var m := Trim(s.medicineInput);
    if enter && m != [] then s.(medicines := s.medicines + [m], medicineInput := []) else s
  }

  /** The fixed display name of each attachment kind. */
  function FileName(kind: AttachmentKind): string {
    match kind
    case Mrt => "Bosh miya MRT"
    case Eco => "Yurak EXO"
    case Rentgen => "O'pka Rentgen"
  }

  /** `handleAttachFile`: appends one attachment of that kind, named by the
      kind and dated by the caller's clock. */
  function AttachFile(s: DoctorViewState, kind: AttachmentKind, date: string): (r: DoctorViewState)
    ensures |r.attachments| == |s.attachments| + 1 && r.attachments[..|s.attachments|] == s.attachments
    ensures r.attachments[|s.attachments|].kind == kind && r.attachments[|s.attachments|].date == date
    ensures r.attachments[|s.attachments|].name == FileName(kind)
    ensures r.(attachments := s.attachments) == s
  {
    s.(attachments := s.attachments + [Attachment(kind, FileName(kind), date)])
  }

  /** The three attachment kinds have three different names. */
  lemma FileNamesDistinct()
    ensures FileName(Mrt) != FileName(Eco) && FileName(Eco) != FileName(Rentgen)
    ensures FileName(Mrt) != FileName(Rentgen)
  {
  }

  /** `handleAdd`: opens the modal for a kind of note with empty text. */
  function OpenModal(s: DoctorViewState, kind: NoteKind): (r: DoctorViewState)
    ensures r.modalOpen && r.noteKind == kind && r.inputText == []
    ensures r.history == s.history && r.selected == s.selected
    ensures r.(noteKind := s.noteKind, modalOpen := s.modalOpen, inputText := s.inputText) == s
  {
    s.(noteKind := kind, modalOpen := true, inputText := [])
  }

  /** `handleSaveModal`: the empty text is refused (text of spaces only is
      accepted); otherwise one note is put at the head of the history with
      the typed text as its description, and the modal closes. A diagnosis
      carries an empty medicine list, a prescription none. */
  function SaveModal(s: DoctorViewState, id: int, date: string, texts: DoctorTexts): (r: DoctorViewState)
    ensures s.inputText == [] ==> r == s
    ensures s.inputText != [] ==>
      && |r.history| == |s.history| + 1 && r.history[1..] == s.history
      && r.history[0].description == s.inputText && r.history[0].id == id
      && r.history[0].kind == (if s.noteKind == DiagnosisNote then Diagnosis else Prescription)
      && r.history[0].medicines == (if s.noteKind == DiagnosisNote then Some([]) else None)
      && r.history[0].attachments == None
      && r.history[0].title
           == (if s.noteKind == DiagnosisNote then texts.modalDiagnosisTitle else texts.modalPrescriptionTitle)
      && r.history[0].date == date
      && !r.modalOpen && r.(history := s.history, modalOpen := s.modalOpen) == s
  {
    if s.inputText == [] then s
    else
      var diagnosis := s.noteKind == DiagnosisNote;
      var item := MedicalHistoryItem(id,
        if diagnosis then Diagnosis else Prescription,
        if diagnosis then texts.modalDiagnosisTitle else texts.modalPrescriptionTitle,
        date, s.inputText, None, if diagnosis then Some([]) else None);
      s.(history := [item] + s.history, modalOpen := false)
  }

  /** `handleSaveExamination`: with no pending medicine and no pending
      attachment nothing happens; otherwise one exam entry holding the
      pending lists is put at the head of the history and both lists are
      emptied. */
  function SaveExamination(s: DoctorViewState, id: int, date: string): (r: DoctorViewState)
    ensures s.medicines == [] && s.attachments == [] ==> r == s
    ensures s.medicines != [] || s.attachments != [] ==>
      && |r.history| == |s.history| + 1 && r.history[1..] == s.history
      && r.history[0].kind == Exam && r.history[0].id == id
      && r.history[0].medicines == Some(s.medicines) && r.history[0].attachments == Some(s.attachments)
      && r.history[0].date == date && r.history[0].title == "Qabul natijalari"
      && r.history[0].description == "Navbatdagi ko'rik o'tkazildi."
      && r.medicines == [] && r.attachments == []
      && r.(history := s.history, medicines := s.medicines, attachments := s.attachments) == s
  {
    if s.medicines == [] && s.attachments == [] then s
    else
      var item := MedicalHistoryItem(id, Exam, "Qabul natijalari", date,
                                     "Navbatdagi ko'rik o'tkazildi.", Some(s.attachments), Some(s.medicines));
      s.(history := [item] + s.history, medicines := [], attachments := [])
  }

  // ---------------------------------------------------------------- events

  /** The user actions of the doctor view. Dates and ids are the caller's
      clock readings; `narrow` is the below-1024-pixel viewport test. */
  datatype DoctorEvent =
    | Select(patient: Patient, narrow: bool)
    | BackToList
    | ChangeStatus
    | TypeMedicine(text: string)
    | PressKey(enter: bool)
    | Attach(kind: AttachmentKind, date: string)
    | SaveExam(id: int, date: string)
    | OpenNote(noteKind: NoteKind)
    | TypeNote(text: string)
    | CancelNote
    | SaveNote(id: int, date: string)

  function Dispatch(s: DoctorViewState, e: DoctorEvent, texts: DoctorTexts): DoctorViewState {
    match e
    case Select(p, narrow) => SelectPatient(s, p, narrow)
    case BackToList => s.(view := List)
    case ChangeStatus => StatusChange(s)
    case TypeMedicine(text) => s.(medicineInput := text)
    case PressKey(enter) => MedicineKey(s, enter)
    case Attach(kind, date) => AttachFile(s, kind, date)
    case SaveExam(id, date) => SaveExamination(s, id, date)
    case OpenNote(kind) => OpenModal(s, kind)
    case TypeNote(text) => s.(inputText := text)
    case CancelNote => s.(modalOpen := false)
    case SaveNote(id, date) => SaveModal(s, id, date, texts)
  }

  /** Whether the control for `e` is in the page as written: the patient
      rows of the two fixture lists, the back and status buttons (the latter
      only before completion), the examination form while examining, and the
      modal's controls while it is open. No control opens the modal. */
  predicate Rendered(s: DoctorViewState, e: DoctorEvent) {
    match e
    case Select(p, _) => p in CurrentPatients() || p in WaitingPatients()
    case BackToList => true
    case ChangeStatus => s.selected.status != Completed
    case TypeMedicine(_) => s.examining
    case PressKey(_) => s.examining
    case Attach(_, _) => s.examining
    case SaveExam(_, _) => s.examining
    case OpenNote(_) => false
    case TypeNote(_) => s.modalOpen
    case CancelNote => s.modalOpen
    case SaveNote(_, _) => s.modalOpen
  }

  /** The controls with the quick diagnosis and prescription buttons wired
      to `handleAdd` while the modal is closed. */
  predicate RenderedIntended(s: DoctorViewState, e: DoctorEvent) {
    Rendered(s, e) || (e.OpenNote? && !s.modalOpen)
  }

  /** The view invariant: the form shows exactly while the selected visit is
      in progress, and nothing is pending while it is hidden. */
  predicate Valid(s: DoctorViewState) {
    && s.examining == (s.selected.status == InProgress)
    && (!s.examining ==> s.medicines == [] && s.attachments == [])
  }

  /** Every on-screen event, the quick actions included, keeps the invariant. */
  lemma DispatchValid(s: DoctorViewState, e: DoctorEvent, texts: DoctorTexts)
    requires Valid(s) && RenderedIntended(s, e)
    ensures Valid(Dispatch(s, e, texts))
  {
  }

  /** History only grows, one entry at a time at the head: every event
      either leaves it alone or puts exactly one item in front of the old
      entries. Selecting another patient never touches it. */
  lemma HistoryOnlyGrows(s: DoctorViewState, e: DoctorEvent, texts: DoctorTexts)
    ensures var r := Dispatch(s, e, texts);
      r.history == s.history || (|r.history| == |s.history| + 1 && r.history[1..] == s.history)
    ensures !e.SaveExam? && !e.SaveNote? ==> Dispatch(s, e, texts).history == s.history
  {
  }

  /** A note of spaces only is saved: the modal's guard tests for the empty
      string, not for blank text. */
  lemma BlankNoteIsSaved(s: DoctorViewState, id: int, date: string, texts: DoctorTexts)
    requires s.inputText == " "
    ensures IsBlank(s.inputText)
    ensures |Dispatch(s, SaveNote(id, date), texts).history| == |s.history| + 1
  {
  }

  /** Start and finish change only the selected copy: the lists still come
      from the fixture, so after starting a waiting patient's visit the
      waiting list still shows that patient as waiting, and selecting the row
      again brings back the waiting record and hides the form. */
  lemma StartIsLocal(s: DoctorViewState, texts: DoctorTexts)
    requires s.selected == MockPatients[3]
    ensures var started := Dispatch(s, ChangeStatus, texts);
      && started.selected.status == InProgress && started.examining
      && MockPatients[3] in WaitingPatients()
      && Rendered(started, Select(MockPatients[3], false))
      && var again := Dispatch(started, Select(MockPatients[3], false), texts);
         again.selected.status == Waiting && !again.examining
  {
  }

  // ---------------------------------------------------------------- traces

  function Run(s: DoctorViewState, es: seq<DoctorEvent>, texts: DoctorTexts): DoctorViewState
    decreases |es|
  {
    if es == [] then s else Run(Dispatch(s, es[0], texts), es[1..], texts)
  }

  /** Every event of `es` has its control on screen as written. */
  predicate OnScreen(s: DoctorViewState, es: seq<DoctorEvent>, texts: DoctorTexts)
    decreases |es|
  {
    es == [] || (Rendered(s, es[0]) && OnScreen(Dispatch(s, es[0], texts), es[1..], texts))
  }

  /** Every event of `es` has its control on screen with the quick actions wired. */
  predicate OnScreenIntended(s: DoctorViewState, es: seq<DoctorEvent>, texts: DoctorTexts)
    decreases |es|
  {
    es == [] || (RenderedIntended(s, es[0]) && OnScreenIntended(Dispatch(s, es[0], texts), es[1..], texts))
  }

  /** `h` is `prior` with zero or more exam entries put in front of it. */
  predicate ExamsBefore(h: seq<MedicalHistoryItem>, prior: seq<MedicalHistoryItem>) {
    && |h| >= |prior|
    && h[|h| - |prior|..] == prior
    && forall i :: 0 <= i < |h| - |prior| ==> h[i].kind == Exam
  }

  lemma ExamsBeforeTrans(a: seq<MedicalHistoryItem>, b: seq<MedicalHistoryItem>, c: seq<MedicalHistoryItem>)
    requires ExamsBefore(a, b) && ExamsBefore(b, c)
    ensures ExamsBefore(a, c)
  {
    assert a[|a| - |c|..] == a[|a| - |b|..][|b| - |c|..];
    forall i | |a| - |b| <= i < |a| - |c|
      ensures a[i].kind == Exam
    {
      assert a[i] == b[i - (|a| - |b|)];
    }
  }

  /** As written, one on-screen event keeps the modal closed and adds at
      most one exam entry. */
  lemma ExamStep(s: DoctorViewState, e: DoctorEvent, texts: DoctorTexts)
    requires !s.modalOpen && Rendered(s, e)
    ensures !Dispatch(s, e, texts).modalOpen
    ensures ExamsBefore(Dispatch(s, e, texts).history, s.history)
  {
    HistoryOnlyGrows(s, e, texts);
    var h := Dispatch(s, e, texts).history;
    if h != s.history {
      assert h[|h| - |s.history|..] == h[1..];
    } else {
      assert h[|h| - |s.history|..] == h;
    }
  }

  /** As written, the modal never opens, so every entry a session adds to
      the history is an examination: no diagnosis or prescription note can
      ever be saved. */
  lemma {:induction false} NotesUnreachable(s: DoctorViewState, es: seq<DoctorEvent>, texts: DoctorTexts)
    requires !s.modalOpen && OnScreen(s, es, texts)
    ensures !Run(s, es, texts).modalOpen
    ensures ExamsBefore(Run(s, es, texts).history, s.history)
    decreases |es|
  {
    if es == [] {
      assert s.history[|s.history| - |s.history|..] == s.history;
    } else {
      var t := Dispatch(s, es[0], texts);
      ExamStep(s, es[0], texts);
      NotesUnreachable(t, es[1..], texts);
      ExamsBeforeTrans(Run(t, es[1..], texts).history, t.history, s.history);
    }
  }

  /** The three clicks of a quick diagnosis: open, type, save. */
  function QuickDiagnosis(note: string, id: int, date: string): seq<DoctorEvent> {
    [OpenNote(DiagnosisNote), TypeNote(note), SaveNote(id, date)]
  }

  /** Running three events is dispatching them one after another. */
  lemma RunThree(s: DoctorViewState, a: DoctorEvent, b: DoctorEvent, c: DoctorEvent, texts: DoctorTexts)
    ensures Run(s, [a, b, c], texts) == Dispatch(Dispatch(Dispatch(s, a, texts), b, texts), c, texts)
  {
    var s1 := Dispatch(s, a, texts);
    var s2 := Dispatch(s1, b, texts);
    assert [a, b, c][1..] == [b, c] && [b, c][1..] == [c] && [c][1..] == [];
    assert Run(s2, [c], texts) == Run(Dispatch(s2, c, texts), [], texts);
    assert Run(s1, [b, c], texts) == Run(s2, [c], texts);
    assert Run(s, [a, b, c], texts) == Run(s1, [b, c], texts);
  }

  /** Three events are on screen, with the quick actions wired, when each
      one is, in the state before it. */
  lemma OnScreenIntendedThree(s: DoctorViewState, a: DoctorEvent, b: DoctorEvent, c: DoctorEvent, texts: DoctorTexts)
    ensures OnScreenIntended(s, [a, b, c], texts)
        <==> RenderedIntended(s, a) && RenderedIntended(Dispatch(s, a, texts), b)
             && RenderedIntended(Dispatch(Dispatch(s, a, texts), b, texts), c)
  {
    var s1 := Dispatch(s, a, texts);
    var s2 := Dispatch(s1, b, texts);
    OnScreenIntendedCons(s2, c, [], texts);
    OnScreenIntendedCons(s1, b, [c], texts);
    OnScreenIntendedCons(s, a, [b, c], texts);
    assert [c] + [] == [c] && [b] + [c] == [b, c] && [a] + [b, c] == [a, b, c];
  }

  /** One step of `OnScreenIntended`: the first event is on screen and the
      rest are, from the state it leads to. */
  lemma OnScreenIntendedCons(s: DoctorViewState, e: DoctorEvent, rest: seq<DoctorEvent>, texts: DoctorTexts)
    ensures OnScreenIntended(s, [e] + rest, texts)
        <==> RenderedIntended(s, e) && OnScreenIntended(Dispatch(s, e, texts), rest, texts)
  {
    assert ([e] + rest)[1..] == rest;
  }

  /** `OnScreenIntendedThree` with the two intermediate states given. */
  lemma OnScreenIntendedPinned(s: DoctorViewState, s1: DoctorViewState, s2: DoctorViewState,
                               a: DoctorEvent, b: DoctorEvent, c: DoctorEvent, texts: DoctorTexts)
    requires Dispatch(s, a, texts) == s1 && Dispatch(s1, b, texts) == s2
    requires RenderedIntended(s, a) && RenderedIntended(s1, b) && RenderedIntended(s2, c)
    ensures OnScreenIntended(s, [a, b, c], texts)
  {
    OnScreenIntendedThree(s, a, b, c, texts);
  }

  lemma QuickDiagnosisRun(s: DoctorViewState, note: string, id: int, date: string, texts: DoctorTexts)
    ensures Run(s, QuickDiagnosis(note, id, date), texts)
         == SaveModal(OpenModal(s, DiagnosisNote).(inputText := note), id, date, texts)
  {
    var s1 := OpenModal(s, DiagnosisNote);
    var s2 := s1.(inputText := note);
    RunThree(s, OpenNote(DiagnosisNote), TypeNote(note), SaveNote(id, date), texts);
    DispatchOpenNote(s, DiagnosisNote, texts);
    DispatchTypeNote(s1, note, texts);
    DispatchSaveNote(s2, id, date, texts);
  }

  lemma DispatchOpenNote(s: DoctorViewState, k: NoteKind, texts: DoctorTexts)
    ensures Dispatch(s, OpenNote(k), texts) == OpenModal(s, k)
  {
  }

  lemma DispatchTypeNote(s: DoctorViewState, note: string, texts: DoctorTexts)
    ensures Dispatch(s, TypeNote(note), texts) == s.(inputText := note)
  {
  }

  lemma DispatchSaveNote(s: DoctorViewState, id: int, date: string, texts: DoctorTexts)
    ensures Dispatch(s, SaveNote(id, date), texts) == SaveModal(s, id, date, texts)
  {
  }

  lemma QuickDiagnosisOnScreen(s: DoctorViewState, note: string, id: int, date: string, texts: DoctorTexts)
    requires !s.modalOpen
    ensures OnScreenIntended(s, QuickDiagnosis(note, id, date), texts)
  {
    var s1 := OpenModal(s, DiagnosisNote);
    DispatchOpenNote(s, DiagnosisNote, texts);
    DispatchTypeNote(s1, note, texts);
    OnScreenIntendedPinned(s, s1, s1.(inputText := note), OpenNote(DiagnosisNote), TypeNote(note), SaveNote(id, date), texts);
  }

  lemma QuickDiagnosisOffScreen(s: DoctorViewState, note: string, id: int, date: string, texts: DoctorTexts)
    ensures !OnScreen(s, QuickDiagnosis(note, id, date), texts)
  {
    assert QuickDiagnosis(note, id, date)[0] == OpenNote(DiagnosisNote);
  }

  /** With the quick actions wired, a doctor can open the diagnosis modal,
      type a note and save it, which puts one diagnosis at the head of the
      history; as written, the same clicks are impossible. */
  lemma QuickDiagnosisWhenWired(s: DoctorViewState, note: string, id: int, date: string, texts: DoctorTexts)
    requires !s.modalOpen && note != []
    ensures OnScreenIntended(s, QuickDiagnosis(note, id, date), texts)
    ensures !OnScreen(s, QuickDiagnosis(note, id, date), texts)
    ensures var r := Run(s, QuickDiagnosis(note, id, date), texts);
      && |r.history| == |s.history| + 1 && r.history[0].kind == Diagnosis
      && r.history[0].description == note && r.history[1..] == s.history && !r.modalOpen
  {
    QuickDiagnosisOnScreen(s, note, id, date, texts);
    QuickDiagnosisOffScreen(s, note, id, date, texts);
    QuickDiagnosisRun(s, note, id, date, texts);
  }

  /** Every as-written control is also a control of the wired page, so a
      click sequence possible as written is possible once wired. */
  lemma {:induction false} OnScreenIsIntended(s: DoctorViewState, es: seq<DoctorEvent>, texts: DoctorTexts)
    requires OnScreen(s, es, texts)
    ensures OnScreenIntended(s, es, texts)
    decreases |es|
  {
    if es != [] {
      OnScreenIsIntended(Dispatch(s, es[0], texts), es[1..], texts);
    }
  }

  /** Every state reached by on-screen events keeps the invariant. */
  lemma {:induction false} ReachableValid(s: DoctorViewState, es: seq<DoctorEvent>, texts: DoctorTexts)
    requires Valid(s) && OnScreenIntended(s, es, texts)
    ensures Valid(Run(s, es, texts))
    decreases |es|
  {
    if es != [] {
      DispatchValid(s, es[0], texts);
      ReachableValid(Dispatch(s, es[0], texts), es[1..], texts);
    }
  }
}
