/**
 * The CV document composer. Each `Compose*` method appends to the column it
 * is given, exactly as the library's column descriptors are filled, and is
 * proved to append what the matching function of `Composition` describes
 * and to change nothing else.
 */
module Rendering {
  import opened Wrappers
  import opened Strings
  import opened Data
  import opened Layout
  import opened Composition

  class CvDocument {
    /** The CV being rendered; never changed by composition. */
    const model: CvData

    constructor (model: CvData)
      ensures this.model == model
    {
      this.model := model;
    }

    /**
     * Fills the three page regions. `fileExists` and `imageError` stand for the
     * file system and the image decoder consulted for the profile picture.
     */
    method Compose(console: Console, fileExists: bool, imageError: Option<string>) returns (page: Page)
      modifies console
      ensures page == DocumentPage(model, fileExists, imageError)
      ensures console.lines
              == old(console.lines) + PictureDiagnostics(model.profilePicturePath, fileExists, imageError)
    {
      var header := new Column();
      ComposeHeader(header);
      var content := new Column();
      ComposeContent(content, console, fileExists, imageError);
      var footer := new Column();
      ComposeFooter(footer);
      page := Page(header.items, content.items, footer.items);
    }

    method ComposeHeader(container: Column)
      modifies container
      ensures container.items == old(container.items) + HeaderItems(model.personalData)
    {
      var contactCol := new Column();
      contactCol.Item(Text(model.personalData.street));
      contactCol.Item(Text(model.personalData.city));
      contactCol.Item(Text(model.personalData.email));
      contactCol.Item(Text(model.personalData.phone));
      assert contactCol.items == ContactLines(model.personalData);
      container.Item(Row([Text(DocumentTitle), Stack(contactCol.items)]));
      container.Item(Divider);
    }

    /** The content row: accent bar, gap, left column (3 parts), right column (7 parts). */
    method ComposeContent(container: Column, console: Console, fileExists: bool, imageError: Option<string>)
      modifies container, console
      ensures container.items == old(container.items) + ContentItems(model, fileExists, imageError)
      ensures console.lines
              == old(console.lines) + PictureDiagnostics(model.profilePicturePath, fileExists, imageError)
    {
      var left := new Column();
      ComposeLeftColumn(left, console, fileExists, imageError);
      var right := new Column();
      ComposeRightColumn(right);
      assert left.items == LeftColumn(model, fileExists, imageError);
      assert right.items == RightColumn(model);
      container.Item(Row([AccentBar, Spacer, Stack(left.items), Stack(right.items)]));
    }

    method ComposeLeftColumn(column: Column, console: Console, fileExists: bool, imageError: Option<string>)
      modifies column, console
      ensures column.items == old(column.items) + LeftColumn(model, fileExists, imageError)
      ensures console.lines
              == old(console.lines) + PictureDiagnostics(model.profilePicturePath, fileExists, imageError)
    {
      ghost var before := column.items;
      ComposeProfilePicture(column, console, fileExists, imageError);
      ComposeSection(column, "Profile", ProfileText);
      ComposeSection(column, "Core Competencies", CompetencyList);
      ComposeSection(column, "Personal Data", PersonalDataList);
      assert column.items == before + [ProfilePicture(model.profilePicturePath, fileExists, imageError),
                                       Section("Profile", SectionItems(model, ProfileText)),
                                       Section("Core Competencies", SectionItems(model, CompetencyList)),
                                       Section("Personal Data", SectionItems(model, PersonalDataList))];
      if |model.attachments| != 0 {
        ComposeSection(column, "Attachments", AttachmentList);
      }
    }

    /** Image, "Photo" placeholder, or load-error placeholder; never fails. */
    method ComposeProfilePicture(container: Column, console: Console, fileExists: bool, imageError: Option<string>)
      modifies container, console
      ensures container.items
              == old(container.items) + [ProfilePicture(model.profilePicturePath, fileExists, imageError)]
      ensures console.lines
              == old(console.lines) + PictureDiagnostics(model.profilePicturePath, fileExists, imageError)
    {
      var path := model.profilePicturePath;
      if !IsNullOrEmpty(Some(path)) && fileExists {
        match imageError {
          case None =>
            container.Item(Image(path));
          case Some(message) =>
            console.WriteLine(LoadErrorMessage(path, message));
            container.Item(Placeholder(LoadErrorLabel));
        }
      } else {
        if !IsNullOrEmpty(Some(path)) {
          console.WriteLine(NotFoundWarning(path));
        }
        container.Item(Placeholder(PhotoLabel));
      }
    }

    /** The six labelled fields of the Personal Data section, in label order. */
    static method ComposePersonalDataRows(column: Column, pd: PersonalData)
      modifies column
      ensures column.items == old(column.items) + PersonalDataRows(pd)
    {
      ComposePersonalDataItem(column, "Street", pd.street);
      ComposePersonalDataItem(column, "City", pd.city);
      ComposePersonalDataItem(column, "Email", pd.email);
      ComposePersonalDataItem(column, "Phone", pd.phone);
      ComposePersonalDataItem(column, "Date/PoB", pd.dateOfBirth);
      ComposePersonalDataItem(column, "Nationality", pd.nationality);
    }

    /** Appends one labelled row, unless the value is blank. */
    static method ComposePersonalDataItem(column: Column, name: string, value: string)
      modifies column
      ensures column.items == old(column.items) + PersonalDataRow(name, value)
    {
      if IsNullOrWhiteSpace(Some(value)) {
        return;
      }
      column.Item(LabelRow(name, value));
    }

    method ComposeRightColumn(column: Column)
      modifies column
      ensures column.items == old(column.items) + RightColumn(model)
    {
      column.Item(Text(model.fullName));
      if |model.workExperience| != 0 {
        ComposeSection(column, "Work Experience", WorkExperienceList);
      }
      if |model.developmentAndEducation| != 0 {
        ComposeSection(column, "Development and Education", DevelopmentList);
      }
      if && |model.languageSkills| == 0
         && |model.hardSkills| == 0
         && |model.softSkills| == 0
         && IsNullOrWhiteSpace(Some(model.driversLicense))
      {
        return;
      }
      ComposeSection(column, "Skills and Knowledge", SkillsContent);
    }

    static method ComposeWorkExperienceEntry(container: Column, item: WorkExperienceItem)
      modifies container
      ensures container.items == old(container.items) + [WorkEntry(item)]
    {
      var column := new Column();
      var titleCol := new Column();
      titleCol.Item(Text(item.jobTitle));
      titleCol.Item(Text(item.company));
      assert titleCol.items == [Text(item.jobTitle), Text(item.company)];
      column.Item(Row([Text(item.dateRange), Stack(titleCol.items)]));
      if item.responsibilities.Some? && |item.responsibilities.value| != 0 {
        var respCol := new Column();
        ComposeBullets(respCol, item.responsibilities.value);
        assert respCol.items == Bullets(item.responsibilities.value);
        column.Item(Stack(respCol.items));
      }
      assert column.items == WorkEntry(item).items;
      container.Item(Stack(column.items));
    }

    static method ComposeDevelopmentEntry(container: Column, item: DevelopmentItem)
      modifies container
      ensures container.items == old(container.items) + [DevelopmentEntry(item)]
    {
      var column := new Column();
      var titleCol := new Column();
      titleCol.Item(Text(item.titleOrDescription));
      if !IsNullOrWhiteSpace(item.details) {
        titleCol.Item(Text(item.details.value));
      }
      assert titleCol.items == [Text(item.titleOrDescription)] + DetailsLine(item.details);
      column.Item(Row([Text(item.dateRange.GetOr("")), Stack(titleCol.items)]));
      assert column.items == DevelopmentEntry(item).items;
      container.Item(Stack(column.items));
    }

    method ComposeSkillsSectionContent(column: Column)
      modifies column
      ensures column.items == old(column.items) + SkillCategories(model)
    {
      if |model.languageSkills| != 0 {
        ComposeSkillCategory(column, "Languages", LanguageList);
      }
      if |model.hardSkills| != 0 {
        ComposeSkillCategory(column, "Hard Skills", HardSkillText);
      }
      if |model.softSkills| != 0 {
        ComposeSkillCategory(column, "Soft Skills", SoftSkillText);
      }
      if !IsNullOrWhiteSpace(Some(model.driversLicense)) {
        ComposeSkillCategory(column, "Driver's License", DriversLicenseText);
      }
    }

    /** A category label beside a content column filled by `content`. */
    method ComposeSkillCategory(container: Column, title: string, content: CategoryContent)
      modifies container
      ensures container.items == old(container.items) + [Category(title, CategoryItems(model, content))]
    {
      var innerCol := new Column();
      match content {
        case LanguageList => ComposeLanguageRows(innerCol, model.languageSkills);
        case HardSkillText => innerCol.Item(Text(Join(SkillSeparator, model.hardSkills)));
        case SoftSkillText => innerCol.Item(Text(Join(SkillSeparator, model.softSkills)));
        case DriversLicenseText => innerCol.Item(Text(model.driversLicense));
      }
      assert innerCol.items == CategoryItems(model, content);
      container.Item(Category(title, innerCol.items));
    }

    /**
     * Exactly one item: the title above a content column filled by `content`.
     * The section is appended even when its content column stays empty.
     */
    method ComposeSection(column: Column, title: string, content: SectionContent)
      modifies column
      ensures column.items == old(column.items) + [Section(title, SectionItems(model, content))]
    {
      var innerContentCol := new Column();
      match content {
        case ProfileText => innerContentCol.Item(Text(model.profileSummary));
        case CompetencyList => ComposeBullets(innerContentCol, model.coreCompetencies);
        case PersonalDataList => ComposePersonalDataRows(innerContentCol, model.personalData);
        case AttachmentList => ComposeLines(innerContentCol, model.attachments);
        case WorkExperienceList => ComposeWorkEntries(innerContentCol, model.workExperience);
        case DevelopmentList => ComposeDevelopmentEntries(innerContentCol, model.developmentAndEducation);
        case SkillsContent => ComposeSkillsSectionContent(innerContentCol);
      }
      assert innerContentCol.items == SectionItems(model, content);
      column.Item(Section(title, innerContentCol.items));
    }

    /** The page-number line; the numbers themselves come from pagination. */
    method ComposeFooter(container: Column)
      modifies container
      ensures container.items == old(container.items) + FooterItems()
    {
      container.Item(Paragraph([Text("Page "), PageNumber, Text(" of "), PageCount]));
    }

    // The `foreach` loops of the content composers.

    /** One bullet row per string, in input order. */
    static method ComposeBullets(column: Column, xs: seq<string>)
      modifies column
      ensures column.items == old(column.items) + Bullets(xs)
    {
      var i := 0;
      while i < |xs|
        invariant 0 <= i <= |xs|
        invariant column.items == old(column.items) + Bullets(xs[..i])
      {
        assert Bullets(xs[..i + 1]) == Bullets(xs[..i]) + [Bullet(xs[i])];
        column.Item(Bullet(xs[i]));
        i := i + 1;
      }
      assert xs[..i] == xs;
    }

    /** One text line per string, in input order. */
    static method ComposeLines(column: Column, xs: seq<string>)
      modifies column
      ensures column.items == old(column.items) + Lines(xs)
    {
      var i := 0;
      while i < |xs|
        invariant 0 <= i <= |xs|
        invariant column.items == old(column.items) + Lines(xs[..i])
      {
        assert Lines(xs[..i + 1]) == Lines(xs[..i]) + [Text(xs[i])];
        column.Item(Text(xs[i]));
        i := i + 1;
      }
      assert xs[..i] == xs;
    }

    static method ComposeWorkEntries(column: Column, xs: seq<WorkExperienceItem>)
      modifies column
      ensures column.items == old(column.items) + WorkEntries(xs)
    {
      var i := 0;
      while i < |xs|
        invariant 0 <= i <= |xs|
        invariant column.items == old(column.items) + WorkEntries(xs[..i])
      {
        assert WorkEntries(xs[..i + 1]) == WorkEntries(xs[..i]) + [WorkEntry(xs[i])];
        ComposeWorkExperienceEntry(column, xs[i]);
        i := i + 1;
      }
      assert xs[..i] == xs;
    }

    static method ComposeDevelopmentEntries(column: Column, xs: seq<DevelopmentItem>)
      modifies column
      ensures column.items == old(column.items) + DevelopmentEntries(xs)
    {
      var i := 0;
      while i < |xs|
        invariant 0 <= i <= |xs|
        invariant column.items == old(column.items) + DevelopmentEntries(xs[..i])
      {
        assert DevelopmentEntries(xs[..i + 1]) == DevelopmentEntries(xs[..i]) + [DevelopmentEntry(xs[i])];
        ComposeDevelopmentEntry(column, xs[i]);
        i := i + 1;
      }
      assert xs[..i] == xs;
    }

    static method ComposeLanguageRows(column: Column, xs: seq<LanguageSkill>)
      modifies column
      ensures column.items == old(column.items) + LanguageRows(xs)
    {
      var i := 0;
      while i < |xs|
        invariant 0 <= i <= |xs|
        invariant column.items == old(column.items) + LanguageRows(xs[..i])
      {
        assert LanguageRows(xs[..i + 1]) == LanguageRows(xs[..i]) + [LanguageRow(xs[i])];
        column.Item(LanguageRow(xs[i]));
        i := i + 1;
      }
      assert xs[..i] == xs;
    }
  }
}
