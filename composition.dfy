/**
 * What the CV composer places on the page, as functions of the CV record:
 * the specification that the builder methods in `Rendering` are proved
 * against. Each function describes the items one composer appends.
 */
module Composition {
  import opened Wrappers
  import opened Strings
  import opened Data
  import opened Layout

  // ---------------------------------------------------------------- header

  const DocumentTitle: string := "Curriculum Vitae"

  /** The contact lines at the right of the header: four lines, blank or not. */
  function ContactLines(pd: PersonalData): seq<Fragment> {
    [Text(pd.street), Text(pd.city), Text(pd.email), Text(pd.phone)]
  }

  /** The header column: title and contact lines side by side, then a rule. */
  function HeaderItems(pd: PersonalData): seq<Fragment> {
    [Row([Text(DocumentTitle), Stack(ContactLines(pd))]), Divider]
  }

  // ------------------------------------------------------- profile picture

  const PhotoLabel: string := "Photo"
  const LoadErrorLabel: string := "[Picture load error]"

  function NotFoundWarning(path: string): string {
    "Warning: Profile picture not found at '" + path + "'. Displaying placeholder."
  }

  function LoadErrorMessage(path: string, message: string): string {
    "Error loading profile picture: " + path + " - " + message
  }

  /**
   * The picture slot. `fileExists` answers `File.Exists(path)`; `imageError`
   * is the message of the exception the image call throws, if it throws.
   */
  function ProfilePicture(path: string, fileExists: bool, imageError: Option<string>): (r: Fragment)
    ensures r.Image? <==> path != "" && fileExists && imageError.None?
    ensures r.Image? ==> r.path == path
    ensures !r.Image? ==> r.Placeholder? && r.caption in [PhotoLabel, LoadErrorLabel]
    ensures r == Placeholder(LoadErrorLabel) <==> path != "" && fileExists && imageError.Some?
  {
    if !IsNullOrEmpty(Some(path)) && fileExists then
      if imageError.None? then Image(path) else Placeholder(LoadErrorLabel)
    else
      Placeholder(PhotoLabel)
  }

  /** The console lines written while the picture slot is filled. */
  function PictureDiagnostics(path: string, fileExists: bool, imageError: Option<string>): (r: seq<string>)
    ensures |r| <= 1
    ensures |r| == 1 <==> path != "" && !(fileExists && imageError.None?)
    ensures path != "" && !fileExists ==> r == [NotFoundWarning(path)]
    ensures path != "" && fileExists && imageError.Some? ==> r == [LoadErrorMessage(path, imageError.value)]
  {
    if !IsNullOrEmpty(Some(path)) && fileExists then
      if imageError.None? then [] else [LoadErrorMessage(path, imageError.value)]
    else if !IsNullOrEmpty(Some(path)) then
      [NotFoundWarning(path)]
    else
      []
  }

  // ------------------------------------------------------------ list items

  /** One "• text" row per string, in order. */
  function Bullets(xs: seq<string>): seq<Fragment> {
    seq(|xs|, i requires 0 <= i < |xs| => Bullet(xs[i]))
  }

  /** One text line per string, in order. */
  function Lines(xs: seq<string>): seq<Fragment> {
    seq(|xs|, i requires 0 <= i < |xs| => Text(xs[i]))
  }

  /** A label cell beside a value cell. */
  function LabelRow(name: string, value: string): Fragment {
    Row([Text(name), Text(value)])
  }

  // --------------------------------------------------------- personal data

  const PersonalDataLabels: seq<string> := ["Street", "City", "Email", "Phone", "Date/PoB", "Nationality"]

  /** The six personal-data values, in the order of their labels. */
  function PersonalDataValues(pd: PersonalData): seq<string> {
    [pd.street, pd.city, pd.email, pd.phone, pd.dateOfBirth, pd.nationality]
  }

  /** One labelled row, or nothing when the value is blank. */
  function PersonalDataRow(name: string, value: string): seq<Fragment> {
    if IsNullOrWhiteSpace(Some(value)) then [] else [LabelRow(name, value)]
  }

  /** The six rows of the "Personal Data" section, each one dropped when blank. */
  function PersonalDataRows(pd: PersonalData): seq<Fragment> {
    PersonalDataRow("Street", pd.street)
    + PersonalDataRow("City", pd.city)
    + PersonalDataRow("Email", pd.email)
    + PersonalDataRow("Phone", pd.phone)
    + PersonalDataRow("Date/PoB", pd.dateOfBirth)
    + PersonalDataRow("Nationality", pd.nationality)
  }

  /** The positions below `n` whose values are not blank, in increasing order. */
  function NonBlankIndices(values: seq<string>, n: nat): (r: seq<nat>)
    requires n <= |values|
    ensures forall i :: 0 <= i < |r| ==> r[i] < n && !IsNullOrWhiteSpace(Some(values[r[i]]))
    ensures forall i, j :: 0 <= i < j < |r| ==> r[i] < r[j]
    ensures forall q :: 0 <= q < n && !IsNullOrWhiteSpace(Some(values[q])) ==> q in r
  {
    if n == 0 then []
    else if IsNullOrWhiteSpace(Some(values[n - 1])) then NonBlankIndices(values, n - 1)
    else NonBlankIndices(values, n - 1) + [n - 1]
  }

  /** The rows for the first `n` labels and values, blank ones dropped. */
  function FieldRows(labels: seq<string>, values: seq<string>, n: nat): seq<Fragment>
    requires |labels| == |values| && n <= |values|
  {
    if n == 0 then [] else FieldRows(labels, values, n - 1) + PersonalDataRow(labels[n - 1], values[n - 1])
  }

  // ------------------------------------------------------------ entries

  /** The bullet block under a job, present only for a non-null, non-empty list. */
  function ResponsibilityBlock(responsibilities: Option<seq<string>>): seq<Fragment> {
    if responsibilities.Some? && |responsibilities.value| != 0 then [Stack(Bullets(responsibilities.value))] else []
  }

  /** One job: date beside title and company, then its responsibilities. */
  function WorkEntry(item: WorkExperienceItem): Fragment {
    Stack([Row([Text(item.dateRange), Stack([Text(item.jobTitle), Text(item.company)])])]
          + ResponsibilityBlock(item.responsibilities))
  }

  /** The details line under a development entry, present only when not blank. */
  function DetailsLine(details: Option<string>): seq<Fragment> {
    if IsNullOrWhiteSpace(details) then [] else [Text(details.value)]
  }

  /** One development entry: a null date range shows as the empty string. */
  function DevelopmentEntry(item: DevelopmentItem): Fragment {
    Stack([Row([Text(item.dateRange.GetOr("")),
                Stack([Text(item.titleOrDescription)] + DetailsLine(item.details))])])
  }

  function LanguageRow(skill: LanguageSkill): Fragment {
    LabelRow(skill.language, skill.level)
  }

  function WorkEntries(xs: seq<WorkExperienceItem>): seq<Fragment> {
    seq(|xs|, i requires 0 <= i < |xs| => WorkEntry(xs[i]))
  }

  function DevelopmentEntries(xs: seq<DevelopmentItem>): seq<Fragment> {
    seq(|xs|, i requires 0 <= i < |xs| => DevelopmentEntry(xs[i]))
  }

  function LanguageRows(xs: seq<LanguageSkill>): seq<Fragment> {
    seq(|xs|, i requires 0 <= i < |xs| => LanguageRow(xs[i]))
  }

  // ----------------------------------------------------------------- skills

  /** The content composers handed to a skill category. */
  datatype CategoryContent = LanguageList | HardSkillText | SoftSkillText | DriversLicenseText

  function CategoryItems(m: CvData, content: CategoryContent): seq<Fragment> {
    match content
    case LanguageList => LanguageRows(m.languageSkills)
    case HardSkillText => [Text(Join(SkillSeparator, m.hardSkills))]
    case SoftSkillText => [Text(Join(SkillSeparator, m.softSkills))]
    case DriversLicenseText => [Text(m.driversLicense)]
  }

  /** The categories of "Skills and Knowledge", each present only when its data is. */
  function SkillCategories(m: CvData): seq<Fragment> {
    (if |m.languageSkills| != 0 then [Category("Languages", CategoryItems(m, LanguageList))] else [])
    + (if |m.hardSkills| != 0 then [Category("Hard Skills", CategoryItems(m, HardSkillText))] else [])
    + (if |m.softSkills| != 0 then [Category("Soft Skills", CategoryItems(m, SoftSkillText))] else [])
    + (if !IsNullOrWhiteSpace(Some(m.driversLicense))
       then [Category("Driver's License", CategoryItems(m, DriversLicenseText))] else [])
  }

  /** The guard in front of the "Skills and Knowledge" section. */
  predicate HasSkills(m: CvData) {
    !(|m.languageSkills| == 0 && |m.hardSkills| == 0 && |m.softSkills| == 0
      && IsNullOrWhiteSpace(Some(m.driversLicense)))
  }

  // --------------------------------------------------------------- sections

  /** The content composers handed to a section. */
  datatype SectionContent =
    | ProfileText | CompetencyList | PersonalDataList | AttachmentList
    | WorkExperienceList | DevelopmentList | SkillsContent

  function SectionItems(m: CvData, content: SectionContent): seq<Fragment> {
    match content
    case ProfileText => [Text(m.profileSummary)]
    case CompetencyList => Bullets(m.coreCompetencies)
    case PersonalDataList => PersonalDataRows(m.personalData)
    case AttachmentList => Lines(m.attachments)
    case WorkExperienceList => WorkEntries(m.workExperience)
    case DevelopmentList => DevelopmentEntries(m.developmentAndEducation)
    case SkillsContent => SkillCategories(m)
  }

  // ---------------------------------------------------------------- columns

  function LeftColumn(m: CvData, fileExists: bool, imageError: Option<string>): seq<Fragment> {
    [ProfilePicture(m.profilePicturePath, fileExists, imageError),
     Section("Profile", SectionItems(m, ProfileText)),
     Section("Core Competencies", SectionItems(m, CompetencyList)),
     Section("Personal Data", SectionItems(m, PersonalDataList))]
    + (if |m.attachments| != 0 then [Section("Attachments", SectionItems(m, AttachmentList))] else [])
  }

  function RightColumn(m: CvData): seq<Fragment> {
    [Text(m.fullName)]
    + (if |m.workExperience| != 0
       then [Section("Work Experience", SectionItems(m, WorkExperienceList))] else [])
    + (if |m.developmentAndEducation| != 0
       then [Section("Development and Education", SectionItems(m, DevelopmentList))] else [])
    + (if HasSkills(m) then [Section("Skills and Knowledge", SectionItems(m, SkillsContent))] else [])
  }

  // --------------------------------------------------------------- the page

  /** The three regions of the page; the library repeats header and footer. */
  datatype Page = Page(header: seq<Fragment>, content: seq<Fragment>, footer: seq<Fragment>)

  function ContentItems(m: CvData, fileExists: bool, imageError: Option<string>): seq<Fragment> {
    [Row([AccentBar, Spacer, Stack(LeftColumn(m, fileExists, imageError)), Stack(RightColumn(m))])]
  }

  function FooterItems(): seq<Fragment> {
    [Paragraph([Text("Page "), PageNumber, Text(" of "), PageCount])]
  }

  function DocumentPage(m: CvData, fileExists: bool, imageError: Option<string>): Page {
    Page(HeaderItems(m.personalData), ContentItems(m, fileExists, imageError), FooterItems())
  }

  // ---------------------------------------------------------------- queries

  /** The titles of the sections and categories in `fs`, in order. */
  function Titles(fs: seq<Fragment>): seq<string> {
    if |fs| == 0 then []
    else (match fs[0]
          case Section(t, _) => [t]
          case Category(t, _) => [t]
          case _ => []) + Titles(fs[1..])
  }
}
