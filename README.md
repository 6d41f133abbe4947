# CV document composition, modelled in Dafny

This project models the composition logic of the CV PDF generator's
`CvDocument`. Given a `CvData` record, it decides which blocks the document
holds, in what order, and with what text. The PDF library underneath is
replaced by an abstract builder:

- a `Layout.Column` object whose `items: seq<Fragment>` the `Compose*`
  methods append to, standing for the library's column descriptors;
- a `Layout.Console` whose `lines` receive the picture warnings and errors.

A `Fragment` records what is placed: text, bullet rows, rows, nested
columns, titled sections, skill categories, an image or a placeholder.
It says nothing about sizes, fonts or colours.

Modules:

- `Data`: the CV record, one datatype per class under `src/Data`. A C#
  `string` is a non-null `string`. The nullable members are `Option`s:
  `CvDevelopmentItem.DateRange`, `CvDevelopmentItem.Details` and
  `CvWorkExperienceItem.Responsibilities`.
- `Strings`: `string.IsNullOrEmpty`, `string.IsNullOrWhiteSpace` (with the
  .NET `char.IsWhiteSpace` set) and `string.Join`. It also has a splitter on
  ", " whose pieces always join back to the text, and which gives back the
  list when the list is non-empty and no element contains ", ".
- `Composition`: one function per composer, describing the items it
  appends. These functions are the specification.
- `Rendering`: the class `CvDocument` with the composer methods. Each method
  is proved to append exactly what its `Composition` function describes, and
  its `modifies` clause shows that nothing else changes. The `foreach` loops
  are `while` loops with invariants.
- `Properties`: lemmas about the specification functions. They cover which
  sections exist, their order, entry order, the skills rule, the joined
  skill text and the picture outcomes.

The content lambdas passed to `ComposeSection` and `ComposeSkillCategory`
become the datatypes `SectionContent` and `CategoryContent`. The two methods
dispatch on them, because Dafny methods cannot take method arguments.

The file system and the image decoder are parameters:

- `fileExists` answers `File.Exists(path)`;
- `imageError` is `Some(message)` when the image call throws, and `None`
  when it succeeds.

The model follows the code in two places where a reader might expect otherwise:

- The header shows all four contact lines (street, city, email, phone)
  even when they are blank.
- `ComposeSection` always emits its title, even when its content is empty.
  So "Personal Data" appears with no rows when all six fields are blank.

The CV record is a set of datatypes in module `Data`, one per C# class:

- `Data.CvData` is `CvData` (src/Data/CvData.cs:7-74). Its lists are
  sequences that keep the loaded order.
- `Data.PersonalData` is `CvPersonalData` (src/Data/CvPersonalData.cs:7-47).
- `Data.WorkExperienceItem` is `CvWorkExperienceItem`
  (src/Data/CvWorkExperienceItem.cs:7-33). The nullable `Responsibilities`
  is an `Option`.
- `Data.DevelopmentItem` is `CvDevelopmentItem`
  (src/Data/CvDevelopmentItem.cs:7-30). The nullable `DateRange` and
  `Details` are `Option`s.
- `Data.LanguageSkill` is `CvLanguageSkill` (src/Data/CvLanguageSkill.cs:6-17).

## Model

| member | source | states |
|---|---|---|
| `Rendering.CvDocument.constructor` | src/Rendering/CvDocument.cs:16-21 | the document keeps the CV record it is given |
| `Rendering.CvDocument.Compose` | src/Rendering/CvDocument.cs:45-61 | the page is the header, content and footer regions of `DocumentPage`; the console gets exactly the picture diagnostics |
| `Rendering.CvDocument.ComposeHeader` | src/Rendering/CvDocument.cs:67-113 | appends the title beside the four contact lines, then a divider, and nothing else |
| `Rendering.CvDocument.ComposeContent` | src/Rendering/CvDocument.cs:119-130 | appends one row: accent bar, spacer, left column, right column |
| `Rendering.CvDocument.ComposeLeftColumn` | src/Rendering/CvDocument.cs:136-196 | appends the picture, then the Profile, Core Competencies and Personal Data sections, then Attachments only when there are attachments |
| `Rendering.CvDocument.ComposeProfilePicture` | src/Rendering/CvDocument.cs:202-241 | appends exactly one picture slot and writes the warning or error line of the failure paths |
| `Rendering.CvDocument.ComposePersonalDataItem` | src/Rendering/CvDocument.cs:250-267 | appends one labelled row, or nothing when the value is null or white space |
| `Rendering.CvDocument.ComposeRightColumn` | src/Rendering/CvDocument.cs:273-321 | appends the full name, then each list section only when its list is non-empty, then Skills and Knowledge only when `HasSkills` |
| `Rendering.CvDocument.ComposeWorkExperienceEntry` | src/Rendering/CvDocument.cs:328-379 | appends one entry: the date/title/company row and, for a non-null non-empty list, the bullet block |
| `Rendering.CvDocument.ComposeDevelopmentEntry` | src/Rendering/CvDocument.cs:386-416 | appends one entry whose null date range reads "" and whose details line appears only when not blank |
| `Rendering.CvDocument.ComposeSkillsSectionContent` | src/Rendering/CvDocument.cs:422-482 | appends the Languages, Hard Skills, Soft Skills and Driver's License categories, each only when its data is present |
| `Rendering.CvDocument.ComposeSkillCategory` | src/Rendering/CvDocument.cs:490-509 | appends exactly one category: its title beside the content the composer produces |
| `Rendering.CvDocument.ComposeSection` | src/Rendering/CvDocument.cs:517-538 | appends exactly one section, the title above its content, even when the content is empty |
| `Rendering.CvDocument.ComposeFooter` | src/Rendering/CvDocument.cs:544-556 | appends the "Page n of m" line with page number and count left to pagination |
| `Rendering.CvDocument.ComposeBullets` | src/Rendering/CvDocument.cs:154-162 | appends one bullet per string, in input order (also the responsibility loop at lines 366-375) |
| `Rendering.CvDocument.ComposeLines` | src/Rendering/CvDocument.cs:189-192 | appends one text line per attachment, in input order |
| `Rendering.CvDocument.ComposeWorkEntries` | src/Rendering/CvDocument.cs:287-290 | appends one entry per job, in input order |
| `Rendering.CvDocument.ComposeDevelopmentEntries` | src/Rendering/CvDocument.cs:303-306 | appends one entry per development item, in input order |
| `Rendering.CvDocument.ComposeLanguageRows` | src/Rendering/CvDocument.cs:434-442 | appends one language/level row per language skill, in input order |
| `Strings.IsWhiteSpace` | src/Rendering/CvDocument.cs:256 | the .NET white-space set: space, tab, line feed and carriage return are in it, and no ASCII letter or digit is |
| `Strings.IsNullOrEmpty` | src/Rendering/CvDocument.cs:205 | a null or empty string; every such string is also null-or-white-space |
| `Strings.AllWhiteSpace` | src/Rendering/CvDocument.cs:256 | true exactly when every character of the string is white space |
| `Strings.IsNullOrWhiteSpace` | src/Rendering/CvDocument.cs:315 | null counts as blank, and a string is blank exactly when every character is white space; the tests at 256, 315, 405 and 471 |
| `Strings.Join` | src/Rendering/CvDocument.cs:454 | `string.Join` as at 454 and 466: one element is returned unchanged, and a non-empty list's text starts with its first element |
| `Layout.Column.Item` | src/Rendering/CvDocument.cs:111 | `column.Item()` appends exactly one fragment at the end and keeps the earlier items |
| `Layout.Console.WriteLine` | src/Rendering/CvDocument.cs:215-217 | `Console.WriteLine` at 215 and 228 appends exactly one line and keeps the earlier ones |
| `Composition.ProfilePicture` | src/Rendering/CvDocument.cs:202-233 | the picture slot is the image exactly when the path is non-empty, the file exists and loading succeeds; otherwise it is the "Photo" placeholder or, exactly when loading failed, the "[Picture load error]" placeholder |
| `Composition.PictureDiagnostics` | src/Rendering/CvDocument.cs:202-233 | at most one console line, written exactly when the path is non-empty and the picture is not shown: the not-found warning for a missing file, the error line with the exception message for a failed load |
| `Rendering.CvDocument.ComposePersonalDataRows` | src/Rendering/CvDocument.cs:169-177 | the Personal Data content appends the rows of the six fields in label order (Street, City, Email, Phone, Date/PoB, Nationality) |
| `Strings.JoinLength` | src/Rendering/CvDocument.cs:454 | the joined text is the elements plus exactly one separator per neighbour pair |
| `Strings.JoinAppend` | src/Rendering/CvDocument.cs:454 | joining a concatenation joins the two parts with one separator |
| `Strings.JoinEnds` | src/Rendering/CvDocument.cs:466 | the joined text starts with the first element and ends with the last, with no separator at either end |
| `Strings.Split` | src/Rendering/CvDocument.cs:466 | splitting on ", " yields at least one piece, and joining the pieces gives the text back |
| `Strings.SplitJoin` | src/Rendering/CvDocument.cs:454 | when the list is non-empty and no skill contains ", ", splitting the joined text gives back the list |
| `Composition.NonBlankIndices` | src/Rendering/CvDocument.cs:256-257 | the positions of the non-blank values: increasing, all in range, and all of them |
| `Properties.HeaderContactLines` | src/Rendering/CvDocument.cs:86-108 | the header is the title beside a stack of four contact lines, then a divider; the lines are the street, city, email and phone values in order, with no blank skipping |
| `Properties.FieldRowsSelect` | src/Rendering/CvDocument.cs:250-267 | rows made field by field are exactly the rows of the non-blank positions, in order |
| `Properties.PersonalDataRowsAreFieldRows` | src/Rendering/CvDocument.cs:172-177 | the six calls are the labelled fields Street, City, Email, Phone, Date/PoB, Nationality, taken in that order |
| `Properties.PersonalDataRowsSelectNonBlank` | src/Rendering/CvDocument.cs:166-179 | Personal Data holds one row per non-blank field, with its label, in the fixed label order, and at most six rows |
| `Properties.OnlyCityGivesOneRow` | src/Rendering/CvDocument.cs:166-179 | with only City non-blank the section is present and holds exactly the City row |
| `Properties.LeftColumnLayout` | src/Rendering/CvDocument.cs:136-196 | the left column is the picture then the sections Profile, Core Competencies, Personal Data, and Attachments iff there are attachments |
| `Properties.ListItemsInOrder` | src/Rendering/CvDocument.cs:154-192 | competencies and attachments give one item per string, in input order |
| `Properties.RightColumnLayout` | src/Rendering/CvDocument.cs:277-320 | the right column is the full name, then Work Experience iff jobs exist, Development and Education iff entries exist, and Skills and Knowledge iff `HasSkills` |
| `Properties.EntriesInInputOrder` | src/Rendering/CvDocument.cs:279-309 | each entry section holds exactly one entry per element, the i-th entry made from the i-th element |
| `Properties.SkillsSectionPresence` | src/Rendering/CvDocument.cs:311-320 | Skills and Knowledge is absent iff languages, hard and soft skills are all empty and the driver's licence is null or white space |
| `Properties.SkillCategoriesOrder` | src/Rendering/CvDocument.cs:426-481 | categories come in the order Languages, Hard Skills, Soft Skills, Driver's License, each iff its data is present; a present section has at least one |
| `Properties.OnlyDriversLicense` | src/Rendering/CvDocument.cs:471-481 | with only a driver's licence, the section holds exactly that category |
| `Properties.SkillTextIsJoin` | src/Rendering/CvDocument.cs:454 | the skill text has the first and last skill at its ends, one ", " per neighbour pair, is the element itself for one skill, and, when no skill contains ", ", splits back into the list |
| `Properties.HardAndSoftSkillTexts` | src/Rendering/CvDocument.cs:447-469 | present hard and soft skill categories hold the skills joined with ", " |
| `Properties.WorkEntryLayout` | src/Rendering/CvDocument.cs:328-378 | a job is its header row plus, iff responsibilities are non-null and non-empty, exactly one bullet per responsibility in order |
| `Properties.DevelopmentEntryLayout` | src/Rendering/CvDocument.cs:386-416 | a null date range reads "", and the details line appears iff the details are not null or white space |
| `Properties.PictureOutcomes` | src/Rendering/CvDocument.cs:202-233 | empty path: Photo placeholder, silent; missing file: Photo placeholder and one warning; image call throws: load-error placeholder and one error; otherwise the image, silent |
| `Properties.BlankPathIsLookedUp` | src/Rendering/CvDocument.cs:204-231 | every non-empty path made only of white space counts as non-empty: a missing file is reported with the not-found warning, and an existing one that loads is shown as the image |
| `Properties.SpaceIsBlankNotEmpty` | src/Rendering/CvDocument.cs:205 | the emptiness test and the blank test differ: `" "` is blank but not empty, so a path of one space is looked up |
| `Properties.PageSkeleton` | src/Rendering/CvDocument.cs:45-61 | for any record, including an all-empty one, the page has the title and four contact lines, a content row whose right column starts with the full name, and the page-number footer |

## Left out

- Sizes, margins, spacing, fonts, colours, line heights and the A4 page format are left out. They belong to the PDF library.
- Pagination is left out. The footer's page number and page count are placeholders that the library fills in.
- The library's own behaviour is not modelled. In particular, the model does not check whether the library accepts the placeholder that the catch branch at line 218 places into a container that the failed image call at line 211 had already begun to configure. The model takes the catch branch as written.
- `File.Exists` and image decoding are replaced by the `fileExists` and `imageError` parameters. The exception message is part of `imageError`.
- `GetMetadata` and `GetSettings` are left out. They return library defaults.
- The null check on the constructor argument is left out. Here a `CvData` value always exists.
- Null values in members declared non-nullable (`required string`, `required List<T>`) are left out. The null tests at lines 181, 279, 295, 312-314, 426, 447 and 459 therefore never succeed in the model: a list there is empty or not, never null.
- src/Program.cs is not part of this model. It covers JSON loading, console colours, the exception-chain logging and the final key press.
