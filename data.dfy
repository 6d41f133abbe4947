/**
 * The CV record handed to the document composer: one datatype per C# class
 * under src/Data. A C# `string` is a non-null `string` here; the nullable
 * members (`string?`, `List<string>?`) are `Option`s.
 */
module Data {
  import opened Wrappers

  /** Address and contact lines; every field defaults to the empty string. */
  datatype PersonalData = PersonalData(
    street: string,
    city: string,
    email: string,
    phone: string,
    dateOfBirth: string,
    nationality: string)

  /** One job; `responsibilities` is nullable (None stands for C# null). */
  datatype WorkExperienceItem = WorkExperienceItem(
    dateRange: string,
    jobTitle: string,
    company: string,
    responsibilities: Option<seq<string>>)

  /** One course, certificate or project; date range and details are nullable. */
  datatype DevelopmentItem = DevelopmentItem(
    dateRange: Option<string>,
    titleOrDescription: string,
    details: Option<string>)

  datatype LanguageSkill = LanguageSkill(language: string, level: string)

  /** The whole CV; lists keep the order in which they were loaded. */
  datatype CvData = CvData(
    fullName: string,
    jobTitle: string,
    personalData: PersonalData,
    profilePicturePath: string,
    profileSummary: string,
    coreCompetencies: seq<string>,
    attachments: seq<string>,
    workExperience: seq<WorkExperienceItem>,
    developmentAndEducation: seq<DevelopmentItem>,
    languageSkills: seq<LanguageSkill>,
    hardSkills: seq<string>,
    softSkills: seq<string>,
    driversLicense: string)
}
