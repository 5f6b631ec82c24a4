/** The hard-coded tables that stand in for a backend (constants.ts). */
module Fixtures {
  import opened Wrappers
  import opened Types

  const MockPatients: seq<Patient> := [
    Patient("1", "Alisher Sobirjonov", 34, "12.05.2024", Some("Bronxit"), Waiting),
    Patient("2", "Elena Ivanova", 28, "10.05.2024", None, InProgress),
    Patient("3", "Jamshid Karimov", 45, "02.04.2024", Some("Gipertoniya"), Completed),
    Patient("4", "Malika Azizova", 22, "Bugun", None, Waiting)
  ]

  const MockDoctors: seq<Doctor> := [
    Doctor(1, "Dr. Aziz Rahimov", "Kardiolog", 145, Busy, "AR"),
    Doctor(2, "Dr. Nodira Aliyeva", "Terapevt", 230, Online, "NA"),
    Doctor(3, "Dr. Jasur Karimov", "Nevropatolog", 98, Offline, "JK"),
    Doctor(4, "Dr. Malika Zokirova", "Pediatr", 180, Online, "MZ")
  ]

  const MockSpecialties: seq<Specialty> := [
    Specialty("Terapevt", "Terapevt", "stethoscope", 4),
    Specialty("Kardiolog", "Kardiolog", "heart-pulse", 2),
    Specialty("Nevropatolog", "Nevropatolog", "brain", 3),
    Specialty("Pediatr", "Pediatr", "baby", 5),
    Specialty("Stomatolog", "Stomatolog", "smile", 3),
    Specialty("Dermatolog", "Dermatolog", "scan-face", 1)
  ]

  /** Every specialty row uses its name as its id. */
  lemma SpecialtyIdIsName()
    ensures forall i :: 0 <= i < |MockSpecialties| ==> MockSpecialties[i].id == MockSpecialties[i].name
  {
  }

  /** Doctor ids are 1..4 and pairwise distinct; patient ids are "1".."4"
      and pairwise distinct. */
  lemma IdsDistinct()
    ensures forall i :: 0 <= i < |MockDoctors| ==> MockDoctors[i].id == i + 1
    ensures forall i, j :: 0 <= i < j < |MockDoctors| ==> MockDoctors[i].id != MockDoctors[j].id
    ensures MockPatients[0].id == "1" && MockPatients[1].id == "2"
    ensures MockPatients[2].id == "3" && MockPatients[3].id == "4"
    ensures forall i, j :: 0 <= i < j < |MockPatients| ==> MockPatients[i].id != MockPatients[j].id
  {
  }
}
