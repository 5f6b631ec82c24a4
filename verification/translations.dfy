/** The two-locale dictionary (constants.ts) and the shape both locales
    share (types.ts, TranslationStructure). The texts themselves are display
    data; the model keeps each locale's key paths, the lengths of its two
    lists, and the few strings the demo views copy into their state. */
module Translations {
  import opened Types

  /** The leaf key paths of TranslationStructure, in declaration order;
      `features.list` and `whyUs.items` are lists. */
  const StructureKeys: seq<string> := [
    "nav.features", "nav.clinicSystem", "nav.onlineQueue", "nav.whyUs", "nav.login",
    "hero.title", "hero.subtitle", "hero.ctaPrimary", "hero.ctaSecondary",
    "features.title", "features.subtitle", "features.list",
    "telegramSection.title", "telegramSection.subtitle", "telegramSection.button",
    "demo.titleClinic", "demo.subtitleClinic", "demo.titlePatient", "demo.subtitlePatient",
    "demo.roles.admin", "demo.roles.doctor", "demo.roles.patient",
    "demo.common.liveTest", "demo.common.searchPlaceholder", "demo.common.yearsOld",
    "demo.common.save", "demo.common.cancel", "demo.common.confirm", "demo.common.success",
    "demo.common.back",
    "demo.doctorView.patientList", "demo.doctorView.queueTitle", "demo.doctorView.inProgressTitle",
    "demo.doctorView.startVisit", "demo.doctorView.finishVisit", "demo.doctorView.currentPatient",
    "demo.doctorView.addDiagnosis", "demo.doctorView.writePrescription",
    "demo.doctorView.attachFile", "demo.doctorView.addMedicine", "demo.doctorView.history",
    "demo.doctorView.actions", "demo.doctorView.diagnosisHistory", "demo.doctorView.testResults",
    "demo.doctorView.modalDiagnosisTitle", "demo.doctorView.modalPrescriptionTitle",
    "demo.doctorView.inputPlaceholder", "demo.doctorView.medicinePlaceholder",
    "demo.doctorView.fileTypes.mrt", "demo.doctorView.fileTypes.eco",
    "demo.doctorView.fileTypes.rentgen",
    "demo.adminView.revenue", "demo.adminView.patients", "demo.adminView.efficiency",
    "demo.adminView.chartRevenue", "demo.adminView.chartVisits", "demo.adminView.period",
    "demo.adminView.doctorsTitle", "demo.adminView.doctorName", "demo.adminView.specialty",
    "demo.adminView.patientsTreated", "demo.adminView.revenueGen", "demo.adminView.rating",
    "demo.adminView.status",
    "demo.patientView.welcome", "demo.patientView.nextVisit", "demo.patientView.bookAppointment",
    "demo.patientView.myAppointments", "demo.patientView.medicalHistory",
    "demo.patientView.status", "demo.patientView.today", "demo.patientView.selectTime",
    "demo.patientView.queuePosition", "demo.patientView.yourTurnIn", "demo.patientView.minutes",
    "demo.patientView.steps.specialty", "demo.patientView.steps.doctor",
    "demo.patientView.steps.date", "demo.patientView.steps.time", "demo.patientView.steps.confirm",
    "demo.patientView.noDoctors",
    "whyUs.title", "whyUs.items",
    "footer.description", "footer.privacy", "footer.terms", "footer.rights"
  ]

  /** The key paths each locale actually defines, in the order written. */
  function LocaleKeys(lang: Language): seq<string> {
    match lang
    case Uz => [
      "nav.features", "nav.clinicSystem", "nav.onlineQueue", "nav.whyUs", "nav.login",
      "hero.title", "hero.subtitle", "hero.ctaPrimary", "hero.ctaSecondary",
      "features.title", "features.subtitle", "features.list",
      "telegramSection.title", "telegramSection.subtitle", "telegramSection.button",
      "demo.titleClinic", "demo.subtitleClinic", "demo.titlePatient", "demo.subtitlePatient",
      "demo.roles.admin", "demo.roles.doctor", "demo.roles.patient",
      "demo.common.liveTest", "demo.common.searchPlaceholder", "demo.common.yearsOld",
      "demo.common.save", "demo.common.cancel", "demo.common.confirm", "demo.common.success",
      "demo.common.back",
      "demo.doctorView.patientList", "demo.doctorView.queueTitle",
      "demo.doctorView.inProgressTitle", "demo.doctorView.startVisit",
      "demo.doctorView.finishVisit", "demo.doctorView.currentPatient",
      "demo.doctorView.addDiagnosis", "demo.doctorView.writePrescription",
      "demo.doctorView.attachFile", "demo.doctorView.addMedicine", "demo.doctorView.history",
      "demo.doctorView.actions", "demo.doctorView.diagnosisHistory", "demo.doctorView.testResults",
      "demo.doctorView.modalDiagnosisTitle", "demo.doctorView.modalPrescriptionTitle",
      "demo.doctorView.inputPlaceholder", "demo.doctorView.medicinePlaceholder",
      "demo.doctorView.fileTypes.mrt", "demo.doctorView.fileTypes.eco",
      "demo.doctorView.fileTypes.rentgen",
      "demo.adminView.revenue", "demo.adminView.patients", "demo.adminView.efficiency",
      "demo.adminView.chartRevenue", "demo.adminView.chartVisits", "demo.adminView.period",
      "demo.adminView.doctorsTitle", "demo.adminView.doctorName", "demo.adminView.specialty",
      "demo.adminView.patientsTreated", "demo.adminView.revenueGen", "demo.adminView.rating",
      "demo.adminView.status",
      "demo.patientView.welcome", "demo.patientView.nextVisit", "demo.patientView.bookAppointment",
      "demo.patientView.myAppointments", "demo.patientView.medicalHistory",
      "demo.patientView.status", "demo.patientView.today", "demo.patientView.selectTime",
      "demo.patientView.queuePosition", "demo.patientView.yourTurnIn", "demo.patientView.minutes",
      "demo.patientView.steps.specialty", "demo.patientView.steps.doctor",
      "demo.patientView.steps.date", "demo.patientView.steps.time",
      "demo.patientView.steps.confirm",
      "demo.patientView.noDoctors",
      "whyUs.title", "whyUs.items",
      "footer.description", "footer.privacy", "footer.terms", "footer.rights"
      ]
    case Ru => [
      "nav.features", "nav.clinicSystem", "nav.onlineQueue", "nav.whyUs", "nav.login",
      "hero.title", "hero.subtitle", "hero.ctaPrimary", "hero.ctaSecondary",
      "features.title", "features.subtitle", "features.list",
      "telegramSection.title", "telegramSection.subtitle", "telegramSection.button",
      "demo.titleClinic", "demo.subtitleClinic", "demo.titlePatient", "demo.subtitlePatient",
      "demo.roles.admin", "demo.roles.doctor", "demo.roles.patient",
      "demo.common.liveTest", "demo.common.searchPlaceholder", "demo.common.yearsOld",
      "demo.common.save", "demo.common.cancel", "demo.common.confirm", "demo.common.success",
      "demo.common.back",
      "demo.doctorView.patientList", "demo.doctorView.queueTitle",
      "demo.doctorView.inProgressTitle", "demo.doctorView.startVisit",
      "demo.doctorView.finishVisit", "demo.doctorView.currentPatient",
      "demo.doctorView.addDiagnosis", "demo.doctorView.writePrescription",
      "demo.doctorView.attachFile", "demo.doctorView.addMedicine", "demo.doctorView.history",
      "demo.doctorView.actions", "demo.doctorView.diagnosisHistory", "demo.doctorView.testResults",
      "demo.doctorView.modalDiagnosisTitle", "demo.doctorView.modalPrescriptionTitle",
      "demo.doctorView.inputPlaceholder", "demo.doctorView.medicinePlaceholder",
      "demo.doctorView.fileTypes.mrt", "demo.doctorView.fileTypes.eco",
      "demo.doctorView.fileTypes.rentgen",
      "demo.adminView.revenue", "demo.adminView.patients", "demo.adminView.efficiency",
      "demo.adminView.chartRevenue", "demo.adminView.chartVisits", "demo.adminView.period",
      "demo.adminView.doctorsTitle", "demo.adminView.doctorName", "demo.adminView.specialty",
      "demo.adminView.patientsTreated", "demo.adminView.revenueGen", "demo.adminView.rating",
      "demo.adminView.status",
      "demo.patientView.welcome", "demo.patientView.nextVisit", "demo.patientView.bookAppointment",
      "demo.patientView.myAppointments", "demo.patientView.medicalHistory",
      "demo.patientView.status", "demo.patientView.today", "demo.patientView.selectTime",
      "demo.patientView.queuePosition", "demo.patientView.yourTurnIn", "demo.patientView.minutes",
      "demo.patientView.steps.specialty", "demo.patientView.steps.doctor",
      "demo.patientView.steps.date", "demo.patientView.steps.time",
      "demo.patientView.steps.confirm",
      "demo.patientView.noDoctors",
      "whyUs.title", "whyUs.items",
      "footer.description", "footer.privacy", "footer.terms", "footer.rights"
      ]
  }

  /** The number of entries of `features.list` and of `whyUs.items`. */
  function ListLengths(lang: Language): (nat, nat) {
    match lang
    case Uz => (4, 3)
    case Ru => (4, 3)
  }

  /** Both locales define exactly the keys of the shared structure, so a key
      found in one locale is found in the other, and their lists have the
      same lengths. */
  lemma SameShape()
    ensures LocaleKeys(Uz) == StructureKeys && LocaleKeys(Ru) == StructureKeys
    ensures forall k :: k in LocaleKeys(Uz) <==> k in LocaleKeys(Ru)
    ensures ListLengths(Uz) == ListLengths(Ru)
  {
  }

  /** `demo.patientView.today`, the date label of the first appointment. */
  function Today(lang: Language): string {
    match lang
    case Uz => "Bugun"
    case Ru => "Сегодня"
  }

  /** The `demo.doctorView` strings the doctor view copies into its state:
      the first history entry's description, the second one's title, and the
      titles of the two notes the modal saves. */
  datatype DoctorTexts = DoctorTexts(
    diagnosisHistory: string,
    testResults: string,
    modalDiagnosisTitle: string,
    modalPrescriptionTitle: string)

  /** The `demo.doctorView` strings of each locale. */
  function DoctorTextsFor(lang: Language): DoctorTexts {
    match lang
    case Uz => DoctorTexts(
      "Shikoyat: Nafas qisishi. Surunkali bronxit xuruji.",
      "Qon tahlili natijalari", "Yangi Tashxis", "Yangi Retsept")
    case Ru => DoctorTexts(
      "Жалоба: Одышка. Назначены антибиотики.",
      "Результаты анализов", "Новый Диагноз", "Новый Рецепт")
  }
}
