/** The entities of the demo (types.ts). Fields that only feed rendering
    (doctor rating and revenue, chart series) are not represented. */
module Types {
  import opened Wrappers

  datatype Language = Uz | Ru

  /** The three demo dashboards; `AsAdmin` is the admin view, and so on. */
  datatype Role = AsDoctor | AsAdmin | AsPatient

  datatype PatientStatus = Waiting | InProgress | Completed

  datatype AttachmentKind = Mrt | Eco | Rentgen

  datatype HistoryKind = Diagnosis | Prescription | Lab | Exam

  /** `Finished` is the source's `'completed'`, renamed so that it does not
      clash with `PatientStatus.Completed`. */
  datatype AppointmentStatus = Upcoming | Finished

  datatype DoctorStatus = Online | Busy | Offline

  datatype Patient = Patient(
    id: string,
    name: string,
    age: nat,
    lastVisit: string,
    diagnosis: Option<string>,
    status: PatientStatus)

  datatype Attachment = Attachment(kind: AttachmentKind, name: string, date: string)

  datatype MedicalHistoryItem = MedicalHistoryItem(
    id: int,
    kind: HistoryKind,
    title: string,
    date: string,
    description: string,
    attachments: Option<seq<Attachment>>,
    medicines: Option<seq<string>>)

  datatype Appointment = Appointment(
    id: int,
    doctor: string,
    specialty: string,
    date: string,
    time: string,
    status: AppointmentStatus)

  datatype Doctor = Doctor(
    id: int,
    name: string,
    specialty: string,
    patients: nat,
    status: DoctorStatus,
    initials: string)

  /** `count` is a display figure only; it is not derived from the doctors. */
  datatype Specialty = Specialty(id: string, name: string, icon: string, count: nat)
}
