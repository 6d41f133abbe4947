/**
 * What the composer guarantees about the page, proved from the functions
 * of `Composition` (which the builder methods of `Rendering` are proved to
 * follow): which blocks exist, in what order, and with what text.
 */
module Properties {
  import opened Wrappers
  import opened Strings
  import opened Data
  import opened Layout
  import opened Composition

  // --------------------------------------------------------------- helpers

  lemma {:induction false} TitlesAppend(a: seq<Fragment>, b: seq<Fragment>)
    ensures Titles(a + b) == Titles(a) + Titles(b)
  {
    if |a| == 0 {
      assert a + b == b;
    } else {
      assert (a + b)[0] == a[0] && (a + b)[1..] == a[1..] + b;
      TitlesAppend(a[1..], b);
    }
  }

  lemma TitlesOfOne(f: Fragment)
    ensures f.Section? || f.Category? ==> Titles([f]) == [f.title]
    ensures !(f.Section? || f.Category?) ==> Titles([f]) == []
  {
    assert [f][1..] == [];
  }

  /** Every element is a section: its titles are then the element titles, one each. */
  lemma {:induction false} TitlesOfSections(fs: seq<Fragment>)
    requires forall i :: 0 <= i < |fs| ==> fs[i].Section?
    ensures |Titles(fs)| == |fs|
    ensures forall i :: 0 <= i < |fs| ==> Titles(fs)[i] == fs[i].title
  {
    if |fs| > 0 {
      TitlesOfSections(fs[1..]);
    }
  }

  // ---------------------------------------------------------------- header

  /**
   * The header always shows the street, city, email and phone values, in that
   * order, as four lines, whether or not they are blank.
   */
  lemma HeaderContactLines(pd: PersonalData)
    ensures |HeaderItems(pd)| == 2 && HeaderItems(pd)[1] == Divider
    ensures HeaderItems(pd)[0].Row? && |HeaderItems(pd)[0].cells| == 2
    ensures HeaderItems(pd)[0].cells[0] == Text(DocumentTitle)
    ensures HeaderItems(pd)[0].cells[1].Stack? && HeaderItems(pd)[0].cells[1].items == ContactLines(pd)
    ensures |ContactLines(pd)| == 4
    ensures forall i :: 0 <= i < 4 ==> ContactLines(pd)[i] == Text(PersonalDataValues(pd)[i])
  {
  }

  // --------------------------------------------------------- personal data

  /** Selecting one more position after a selection adds its row after the rows. */
  lemma SelectLast(labels: seq<string>, values: seq<string>, k: nat, idx: seq<nat>, rows: seq<Fragment>)
    requires |labels| == |values| && k < |values| && |rows| == |idx|
    requires forall i :: 0 <= i < |idx| ==>
               idx[i] < |values| && rows[i] == LabelRow(labels[idx[i]], values[idx[i]])
    ensures var idx', rows' := idx + [k], rows + [LabelRow(labels[k], values[k])];
            && |rows'| == |idx'|
            && forall i :: 0 <= i < |idx'| ==> rows'[i] == LabelRow(labels[idx'[i]], values[idx'[i]])
  {
  }

  lemma {:induction false} FieldRowsSelect(labels: seq<string>, values: seq<string>, n: nat)
    requires |labels| == |values| && n <= |values|
    ensures |FieldRows(labels, values, n)| == |NonBlankIndices(values, n)|
    ensures forall i :: 0 <= i < |NonBlankIndices(values, n)| ==>
              FieldRows(labels, values, n)[i]
              == LabelRow(labels[NonBlankIndices(values, n)[i]], values[NonBlankIndices(values, n)[i]])
  {
    if n > 0 {
      FieldRowsSelect(labels, values, n - 1);
      var idx, rows := NonBlankIndices(values, n - 1), FieldRows(labels, values, n - 1);
      if IsNullOrWhiteSpace(Some(values[n - 1])) {
        assert NonBlankIndices(values, n) == idx;
        assert FieldRows(labels, values, n) == rows + [] == rows;
      } else {
        assert NonBlankIndices(values, n) == idx + [n - 1];
        assert FieldRows(labels, values, n) == rows + [LabelRow(labels[n - 1], values[n - 1])];
        SelectLast(labels, values, n - 1, idx, rows);
      }
    }
  }

  /** The six calls of the section are the labelled fields, taken in label order. */
  lemma PersonalDataRowsAreFieldRows(pd: PersonalData)
    ensures PersonalDataRows(pd) == FieldRows(PersonalDataLabels, PersonalDataValues(pd), 6)
  {
    var labels, values := PersonalDataLabels, PersonalDataValues(pd);
    assert labels[0] == "Street" && labels[1] == "City" && labels[2] == "Email";
    assert labels[3] == "Phone" && labels[4] == "Date/PoB" && labels[5] == "Nationality";
    assert FieldRows(labels, values, 1) == [] + PersonalDataRow(labels[0], values[0]);
    assert FieldRows(labels, values, 2) == FieldRows(labels, values, 1) + PersonalDataRow(labels[1], values[1]);
    assert FieldRows(labels, values, 3) == FieldRows(labels, values, 2) + PersonalDataRow(labels[2], values[2]);
    assert FieldRows(labels, values, 4) == FieldRows(labels, values, 3) + PersonalDataRow(labels[3], values[3]);
    assert FieldRows(labels, values, 5) == FieldRows(labels, values, 4) + PersonalDataRow(labels[4], values[4]);
  }

  /**
   * The "Personal Data" rows are exactly the non-blank fields, one row each,
   * labelled Street, City, Email, Phone, Date/PoB, Nationality and kept in
   * that order (the indices NonBlankIndices gives are increasing and are all
   * the non-blank positions).
   */
  lemma PersonalDataRowsSelectNonBlank(pd: PersonalData)
    ensures var idx := NonBlankIndices(PersonalDataValues(pd), 6);
            && |PersonalDataRows(pd)| == |idx| <= 6
            && forall i :: 0 <= i < |idx| ==>
                 PersonalDataRows(pd)[i] == LabelRow(PersonalDataLabels[idx[i]], PersonalDataValues(pd)[idx[i]])
  {
    PersonalDataRowsAreFieldRows(pd);
    FieldRowsSelect(PersonalDataLabels, PersonalDataValues(pd), 6);
  }

  /** A single non-blank City gives exactly one row, and the section still appears. */
  lemma OnlyCityGivesOneRow(m: CvData, fileExists: bool, imageError: Option<string>)
    requires var pd := m.personalData;
             && IsNullOrWhiteSpace(Some(pd.street)) && !IsNullOrWhiteSpace(Some(pd.city))
             && IsNullOrWhiteSpace(Some(pd.email)) && IsNullOrWhiteSpace(Some(pd.phone))
             && IsNullOrWhiteSpace(Some(pd.dateOfBirth)) && IsNullOrWhiteSpace(Some(pd.nationality))
    ensures LeftColumn(m, fileExists, imageError)[3]
            == Section("Personal Data", [LabelRow("City", m.personalData.city)])
  {
  }

  // ----------------------------------------------------------- left column

  /**
   * The left column is the picture, then "Profile", "Core Competencies" and
   * "Personal Data" (each present even when its content is empty), then
   * "Attachments" exactly when there are attachments.
   */
  lemma LeftColumnLayout(m: CvData, fileExists: bool, imageError: Option<string>)
    ensures var col := LeftColumn(m, fileExists, imageError);
            && col[0] == ProfilePicture(m.profilePicturePath, fileExists, imageError)
            && (forall i :: 1 <= i < |col| ==> col[i].Section?)
            && Titles(col[1..]) == ["Profile", "Core Competencies", "Personal Data"]
                                   + (if |m.attachments| != 0 then ["Attachments"] else [])
            && |col| == 1 + |Titles(col[1..])|
            && col[3].content == PersonalDataRows(m.personalData)
            && (|m.attachments| != 0 ==> col[4].content == Lines(m.attachments))
  {
    var col := LeftColumn(m, fileExists, imageError);
    TitlesOfSections(col[1..]);
  }

  /** Core competencies and attachments keep one item per string, in input order. */
  lemma ListItemsInOrder(xs: seq<string>)
    ensures |Bullets(xs)| == |xs| && forall i :: 0 <= i < |xs| ==> Bullets(xs)[i] == Bullet(xs[i])
    ensures |Lines(xs)| == |xs| && forall i :: 0 <= i < |xs| ==> Lines(xs)[i] == Text(xs[i])
  {
  }

  // ---------------------------------------------------------- right column

  /**
   * The right column is the full name, then "Work Experience" iff there are
   * jobs, "Development and Education" iff there are development entries, and
   * "Skills and Knowledge" iff HasSkills.
   */
  lemma RightColumnLayout(m: CvData)
    ensures var col := RightColumn(m);
            && col[0] == Text(m.fullName)
            && (forall i :: 1 <= i < |col| ==> col[i].Section?)
            && Titles(col[1..]) == (if |m.workExperience| != 0 then ["Work Experience"] else [])
                                   + (if |m.developmentAndEducation| != 0 then ["Development and Education"] else [])
                                   + (if HasSkills(m) then ["Skills and Knowledge"] else [])
            && |col| == 1 + |Titles(col[1..])|
  {
    var col := RightColumn(m);
    TitlesOfSections(col[1..]);
  }

  /** Each entry section holds one entry per element, in input order. */
  lemma EntriesInInputOrder(m: CvData)
    ensures var col := RightColumn(m);
            |m.workExperience| != 0 ==>
              && col[1].title == "Work Experience"
              && |col[1].content| == |m.workExperience|
              && forall i :: 0 <= i < |m.workExperience| ==> col[1].content[i] == WorkEntry(m.workExperience[i])
    ensures var col := RightColumn(m);
            var d := if |m.workExperience| != 0 then 2 else 1;
            |m.developmentAndEducation| != 0 ==>
              && col[d].title == "Development and Education"
              && |col[d].content| == |m.developmentAndEducation|
              && forall i :: 0 <= i < |m.developmentAndEducation| ==>
                   col[d].content[i] == DevelopmentEntry(m.developmentAndEducation[i])
  {
  }

  // ----------------------------------------------------------------- skills

  /**
   * "Skills and Knowledge" is omitted iff there are no languages, hard or soft
   * skills and the driver's licence is blank.
   */
  lemma SkillsSectionPresence(m: CvData)
    ensures ("Skills and Knowledge" in Titles(RightColumn(m)))
            <==> !(|m.languageSkills| == 0 && |m.hardSkills| == 0 && |m.softSkills| == 0
                   && IsNullOrWhiteSpace(Some(m.driversLicense)))
  {
    RightColumnLayout(m);
    var col := RightColumn(m);
    assert col == [col[0]] + col[1..];
    TitlesAppend([col[0]], col[1..]);
    assert Titles([col[0]]) == [];
    assert "Work Experience" != "Skills and Knowledge";
    assert "Development and Education" != "Skills and Knowledge";
  }

  /**
   * The categories of a present section come in the fixed order Languages,
   * Hard Skills, Soft Skills, Driver's License, each iff its data is present,
   * so a present section has at least one.
   */
  lemma SkillCategoriesOrder(m: CvData)
    ensures HasSkills(m) <==> |SkillCategories(m)| >= 1
    ensures Titles(SkillCategories(m))
            == (if |m.languageSkills| != 0 then ["Languages"] else [])
               + (if |m.hardSkills| != 0 then ["Hard Skills"] else [])
               + (if |m.softSkills| != 0 then ["Soft Skills"] else [])
               + (if !IsNullOrWhiteSpace(Some(m.driversLicense)) then ["Driver's License"] else [])
  {
    var l := if |m.languageSkills| != 0 then [Category("Languages", CategoryItems(m, LanguageList))] else [];
    var h := if |m.hardSkills| != 0 then [Category("Hard Skills", CategoryItems(m, HardSkillText))] else [];
    var s := if |m.softSkills| != 0 then [Category("Soft Skills", CategoryItems(m, SoftSkillText))] else [];
    var d := if !IsNullOrWhiteSpace(Some(m.driversLicense))
             then [Category("Driver's License", CategoryItems(m, DriversLicenseText))] else [];
    assert SkillCategories(m) == l + h + s + d;
    if |l| == 1 { TitlesOfOne(l[0]); }
    if |h| == 1 { TitlesOfOne(h[0]); }
    if |s| == 1 { TitlesOfOne(s[0]); }
    if |d| == 1 { TitlesOfOne(d[0]); }
    TitlesAppend(l, h);
    TitlesAppend(l + h, s);
    TitlesAppend(l + h + s, d);
  }

  /** With only a driver's licence, the section holds exactly that one category. */
  lemma OnlyDriversLicense(m: CvData)
    requires |m.languageSkills| == 0 && |m.hardSkills| == 0 && |m.softSkills| == 0
    requires !IsNullOrWhiteSpace(Some(m.driversLicense))
    ensures HasSkills(m)
    ensures SkillCategories(m) == [Category("Driver's License", [Text(m.driversLicense)])]
  {
  }

  /**
   * The hard- and soft-skill texts are the skills joined with ", ": first and
   * last skill at the ends, one separator per neighbour pair, and, when no
   * skill contains ", ", splitting the text gives back the list.
   */
  lemma SkillTextIsJoin(skills: seq<string>)
    requires |skills| > 0
    ensures var t := Join(SkillSeparator, skills);
            && |t| == TotalLength(skills) + 2 * (|skills| - 1)
            && |skills[0]| <= |t| && |skills[|skills| - 1]| <= |t|
            && t[..|skills[0]|] == skills[0]
            && t[|t| - |skills[|skills| - 1]|..] == skills[|skills| - 1]
            && (|skills| == 1 ==> t == skills[0])
            && ((forall i :: 0 <= i < |skills| ==> FreeOfSeparator(skills[i])) ==> Split(t) == skills)
  {
    JoinLength(SkillSeparator, skills);
    JoinEnds(SkillSeparator, skills);
    if forall i :: 0 <= i < |skills| ==> FreeOfSeparator(skills[i]) {
      SplitJoin(skills);
    }
  }

  lemma HardAndSoftSkillTexts(m: CvData)
    ensures |m.hardSkills| != 0 ==>
              Category("Hard Skills", [Text(Join(SkillSeparator, m.hardSkills))]) in SkillCategories(m)
    ensures |m.softSkills| != 0 ==>
              Category("Soft Skills", [Text(Join(SkillSeparator, m.softSkills))]) in SkillCategories(m)
  {
  }

  // ---------------------------------------------------------------- entries

  /**
   * A job is its header row (date range, title, company) and, iff its
   * responsibilities are non-null and non-empty, one bullet per
   * responsibility in order.
   */
  lemma WorkEntryLayout(item: WorkExperienceItem)
    ensures var parts := WorkEntry(item).items;
            && parts[0] == Row([Text(item.dateRange), Stack([Text(item.jobTitle), Text(item.company)])])
            && (|parts| == 2 <==> item.responsibilities.Some? && |item.responsibilities.value| != 0)
            && (|parts| == 1 || |parts| == 2)
            && (|parts| == 2 ==>
                  && |parts[1].items| == |item.responsibilities.value|
                  && forall i :: 0 <= i < |parts[1].items| ==>
                       parts[1].items[i] == Bullet(item.responsibilities.value[i]))
  {
  }

  /**
   * A development entry shows a null date range as "", its title, and a
   * details line iff the details are not null or white space.
   */
  lemma DevelopmentEntryLayout(item: DevelopmentItem)
    ensures var row := EntryHeaderRow(DevelopmentEntry(item));
            && row.cells[0] == Text(if item.dateRange.None? then "" else item.dateRange.value)
            && row.cells[1].items[0] == Text(item.titleOrDescription)
            && (|row.cells[1].items| == 2 <==> !IsNullOrWhiteSpace(item.details))
            && (|row.cells[1].items| == 1 || |row.cells[1].items| == 2)
            && (|row.cells[1].items| == 2 ==> row.cells[1].items[1] == Text(item.details.value))
  {
  }

  /** The first item of an entry's column: its header row. */
  function EntryHeaderRow(entry: Fragment): Fragment
    requires entry.Stack? && |entry.items| > 0
  {
    entry.items[0]
  }

  // -------------------------------------------------------- profile picture

  /**
   * The four picture outcomes: an empty path gives the "Photo" placeholder
   * silently; a missing file gives it with one warning; an image call that
   * throws gives the load-error placeholder with one error line; otherwise
   * the image of that path, silently.
   */
  lemma PictureOutcomes(path: string, fileExists: bool, imageError: Option<string>)
    ensures var f, d := ProfilePicture(path, fileExists, imageError), PictureDiagnostics(path, fileExists, imageError);
            && (path == "" ==> f == Placeholder(PhotoLabel) && d == [])
            && (path != "" && !fileExists ==> f == Placeholder(PhotoLabel) && d == [NotFoundWarning(path)])
            && (path != "" && fileExists && imageError.Some? ==>
                  f == Placeholder(LoadErrorLabel) && d == [LoadErrorMessage(path, imageError.value)])
            && (path != "" && fileExists && imageError.None? ==> f == Image(path) && d == [])
            && (f.Image? <==> d == [] && path != "")
            && |d| <= 1
  {
  }

  /** Any non-empty path of blanks passes the emptiness test: it is looked up, and a missing file is reported. */
  lemma BlankPathIsLookedUp(path: string, fileExists: bool, imageError: Option<string>)
    requires path != "" && IsNullOrWhiteSpace(Some(path))
    ensures !fileExists ==> PictureDiagnostics(path, fileExists, imageError) == [NotFoundWarning(path)]
    ensures fileExists && imageError.None? ==> ProfilePicture(path, fileExists, imageError) == Image(path)
  {
  }

  /** The two .NET tests differ: a single space is blank but not empty. */
  lemma SpaceIsBlankNotEmpty()
    ensures IsNullOrWhiteSpace(Some(" ")) && !IsNullOrEmpty(Some(" "))
  {
  }

  // ------------------------------------------------------------------ page

  /**
   * Whatever the data (every list empty and every string blank included), the
   * page has the header with four contact lines, the content row whose right
   * column starts with the full name, and the page-number footer.
   */
  lemma PageSkeleton(m: CvData, fileExists: bool, imageError: Option<string>)
    ensures var page := DocumentPage(m, fileExists, imageError);
            && |page.header| == 2 && page.header[0].cells[0] == Text(DocumentTitle)
            && |page.header[0].cells[1].items| == 4
            && |page.content| == 1 && |page.content[0].cells| == 4
            && page.content[0].cells[2].items == LeftColumn(m, fileExists, imageError)
            && page.content[0].cells[3].items[0] == Text(m.fullName)
            && page.footer == [Paragraph([Text("Page "), PageNumber, Text(" of "), PageCount])]
  {
  }
}
