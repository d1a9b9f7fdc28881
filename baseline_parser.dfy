/** `CVParser` of `scripts/pdf_parser.py`: the older extractor.  It first
    normalises the whole text (`clean_text`), then locates each section by
    keyword (`_find_section`) and runs a keyword-driven extractor on it.
    The regular expressions that are costly to write out (email, phones,
    LinkedIn, websites, the three date patterns, the two company patterns,
    the location pattern) are abstract; the keyword tables are the
    source's, gathered in `Rules` and handed to the extractors. */
module BaselineParser {
  import opened Wrappers
  import opened Text
  import opened CvTypes
  import opened Search
  import opened ImprovedPatterns

  // =====================================================================
  // The keyword tables

  /** A section keyword or title: a plain word, or `a.*b` (`expe.*rience`,
      `compé.*tences`). */
  datatype Pattern = Word(w: String) | Gap(a: String, b: String)

  /** `re.search(pattern, lc)` for a one-line, lower-cased `lc`. */
  predicate MatchesPattern(lc: String, p: Pattern) {
    match p
    case Word(w) => Contains(lc, w)
    case Gap(a, b) => ContainsThen(lc, a, b)
  }

  predicate MatchesAnyPattern(lc: String, ps: seq<Pattern>) {
    exists k :: 0 <= k < |ps| && MatchesPattern(lc, ps[k])
  }

  /** One row of `common_languages`: the key and its fixed level. */
  datatype LangRow = LangRow(key: String, level: String)

  datatype BaselineRules = BaselineRules(
    experienceKeys: seq<Pattern>,
    educationKeys: seq<Pattern>,
    skillsKeys: seq<Pattern>,
    languagesKeys: seq<Pattern>,
    titles: seq<Pattern>,            // _is_new_section_title
    degrees: seq<String>,            // the two degree patterns' alternatives
    schools: seq<String>,            // institution keywords
    techSkills: set<String>,
    languages: seq<LangRow>,         // common_languages, in insertion order
    currentWords: seq<String>,       // words of an ongoing end date
    descriptionExclusions: seq<String>,
    excludedSites: seq<String>)

  const Rules := BaselineRules(
    [Word("expérience"), Word("experience"), Gap("expe", "rience"), Word("professionnel"), Word("emploi"),
     Word("poste"), Word("carrière"), Word("work"), Word("employment"), Word("projets")],
    [Word("formation"), Word("éducation"), Word("education"), Word("diplôme"), Word("université"),
     Word("école"), Word("studies"), Word("degree")],
    [Word("compétences"), Gap("compé", "tences"), Word("skills"), Word("technique"), Word("technical"),
     Word("outils"), Word("tools"), Word("technologies"), Word("langages"), Word("frameworks")],
    [Word("langues"), Word("languages"), Word("langue"), Word("idiomas")],
    [Word("formation"), Word("éducation"), Word("education"), Word("expérience"), Word("experience"),
     Gap("expe", "rience"), Word("compétences"), Gap("compé", "tences"), Word("skills"), Word("langues"),
     Word("languages"), Word("projets"), Word("certifications"), Word("loisirs"), Word("centres d'intérêt"),
     Word("références"), Word("divers")],
    ["master", "licence", "bac", "bachelor", "phd", "doctorat", "ingénieur", "bts", "dut",
     "m1", "m2", "l1", "l2", "l3"],
    ["université", "école", "institut", "college"],
    {"python", "javascript", "java", "react", "angular", "vue", "node", "docker", "kubernetes", "aws",
     "azure", "git", "sql", "nosql", "html", "css", "php", "ruby", "go", "rust", "typescript"},
    [LangRow("français", "native"), LangRow("french", "native"), LangRow("anglais", "B2"),
     LangRow("english", "B2"), LangRow("espagnol", "B1"), LangRow("spanish", "B1"),
     LangRow("allemand", "B1"), LangRow("german", "B1"), LangRow("italien", "B1"), LangRow("italian", "B1")],
    ["présent", "aujourd'hui", "actuel", "current"],
    ["entreprise", "company", "poste"],
    ["linkedin", "github"])

  // =====================================================================
  // clean_text

  /** The seven bullet glyphs replaced by '-'. */
  const Bullets: set<char> := {'\U{2022}', '\U{25E6}', '\U{25AA}', '\U{25AB}', '\U{27A4}', '\U{2023}', '\U{2043}'}

  /** Replaces every character of `cs` by `sub`. */
  function ReplaceChars(s: String, cs: set<char>, sub: char): (r: String)
    ensures |r| == |s|
    ensures forall i :: 0 <= i < |s| ==> r[i] == (if s[i] in cs then sub else s[i])
  {
    seq(|s|, i requires 0 <= i < |s| => if s[i] in cs then sub else s[i])
  }

  /** `re.sub(r'\s+', ' ', text)`, the bullets to '-', newlines to ' ',
      then `strip()`. */
  function CleanText(text: String): String {
    Strip(ReplaceChars(ReplaceChars(Collapse(text, " "), Bullets, '-'), {'\n'}, ' '))
  }

  predicate Avoids(s: String, cs: set<char>) {
    forall i :: 0 <= i < |s| ==> s[i] !in cs
  }

  /** Single spaces only, never two in a row, none of `cs`. */
  predicate Tidy(s: String, cs: set<char>) {
    OnlyBlank(s) && NoDoubleSpace(s) && Avoids(s, cs)
  }

  /** Replacing non-space characters by a non-space character keeps the
      spacing and removes the replaced characters. */
  lemma ReplaceKeepsSpacing(s: String, cs: set<char>, sub: char)
    requires !IsSpace(sub) && sub !in cs
    requires forall c :: c in cs ==> !IsSpace(c)
    requires OnlyBlank(s) && NoDoubleSpace(s)
    ensures Tidy(ReplaceChars(s, cs, sub), cs)
  {
    var r := ReplaceChars(s, cs, sub);
    assert forall i :: 0 <= i < |s| ==> (IsSpace(r[i]) <==> IsSpace(s[i]));
  }

  /** Replacing characters that do not occur changes nothing. */
  lemma ReplaceAbsent(s: String, cs: set<char>, sub: char)
    requires Avoids(s, cs)
    ensures ReplaceChars(s, cs, sub) == s
  {
  }

  /** `Strip` keeps a tidy text tidy. */
  lemma StripTidy(s: String, cs: set<char>)
    requires Tidy(s, cs)
    ensures Tidy(Strip(s), cs)
  {
    StripSlice(s);
    var a := |s| - |TrimStart(s)|;
    var c := Strip(s);
    assert forall i :: 0 <= i < |c| ==> c[i] == s[a + i];
  }

  /** The cleaned text has no newline, no whitespace other than single
      spaces, no bullet glyph, and no leading or trailing whitespace. */
  lemma CleanTextShape(text: String)
    ensures var c := CleanText(text);
      '\n' !in c && Tidy(c, Bullets) && (c == [] || (!IsSpace(c[0]) && !IsSpace(c[|c| - 1])))
  {
    var col := Collapse(text, " ");
    CollapseSpace(text);
    var b := ReplaceChars(col, Bullets, '-');
    ReplaceKeepsSpacing(col, Bullets, '-');
    assert Avoids(b, {'\n'}) by {
      forall i | 0 <= i < |b| ensures b[i] != '\n' {
        assert IsSpace(b[i]) ==> b[i] == ' ';
      }
    }
    ReplaceAbsent(b, {'\n'}, ' ');
    StripTidy(b, Bullets);
    StripEnds(b);
    var c := Strip(b);
    assert '\n' !in c by {
      forall i | 0 <= i < |c| ensures c[i] != '\n' {
        assert IsSpace(c[i]) ==> c[i] == ' ';
      }
    }
  }

  /** `clean_text` is why every line-based routine of this parser sees a
      single line: the cleaned text splits into itself. */
  lemma CleanTextOneLine(text: String)
    ensures Lines(CleanText(text)) == [CleanText(text)]
  {
    CleanTextShape(text);
    SingleLine(CleanText(text));
  }

  /** Stripping the cleaned text changes nothing. */
  lemma CleanTextStripped(text: String)
    ensures Strip(CleanText(text)) == CleanText(text)
  {
    StripIdempotent(ReplaceChars(ReplaceChars(Collapse(text, " "), Bullets, '-'), {'\n'}, ' '));
  }

  // =====================================================================
  // _find_section and _is_new_section_title

  /** `re.search(keyword, line, re.IGNORECASE)` for some keyword. */
  function HeaderTest(keys: seq<Pattern>): String -> bool {
    l => MatchesAnyPattern(Lower(l), keys)
  }

  /** `_is_new_section_title`: the stripped, lower-cased line contains a
      match of one of the titles. */
  predicate IsNewSectionTitle(line: String, titles: seq<Pattern>) {
    MatchesAnyPattern(Lower(Strip(line)), titles)
  }

  function TitleTest(titles: seq<Pattern>): String -> bool {
    l => IsNewSectionTitle(l, titles)
  }

  /** `"".join(l + "\n" for l in ls)`. */
  function Unlines(ls: seq<String>): String {
    if ls == [] then [] else ls[0] + "\n" + Unlines(ls[1..])
  }

  /** The lines collected after the header line, from line `j` on: the
      stripped non-blank lines up to the first section title. */
  function BodyLines(lines: seq<String>, j: nat, isTitle: String -> bool): seq<String>
    requires j <= |lines|
    decreases |lines| - j
  {
    if j == |lines| then []
    else
      var l := Strip(lines[j]);
      if l == "" then BodyLines(lines, j + 1, isTitle)
      else if isTitle(l) then []
      else [l] + BodyLines(lines, j + 1, isTitle)
  }

  /** No collected line is blank or a section title. */
  lemma {:induction false} BodyLinesOk(lines: seq<String>, j: nat, isTitle: String -> bool)
    requires j <= |lines|
    ensures forall k :: 0 <= k < |BodyLines(lines, j, isTitle)| ==>
              BodyLines(lines, j, isTitle)[k] != "" && !isTitle(BodyLines(lines, j, isTitle)[k])
    decreases |lines| - j
  {
    if j < |lines| {
      BodyLinesOk(lines, j + 1, isTitle);
      var b := BodyLines(lines, j, isTitle);
      var rest := BodyLines(lines, j + 1, isTitle);
      var l := Strip(lines[j]);
      if l == "" {
        assert b == rest;
      } else if isTitle(l) {
        assert b == [];
      } else {
        assert b == [l] + rest;
      }
    }
  }

  predicate IsHeaderLine(lines: seq<String>, k: nat, isHeader: String -> bool)
    requires k < |lines|
  {
    Strip(lines[k]) != "" && isHeader(Strip(lines[k]))
  }

  /** The section found scanning from line `i`: the first header line,
      stripped, with the lines collected after it. */
  function SectionFrom(lines: seq<String>, i: nat, isHeader: String -> bool, isTitle: String -> bool): String
    requires i <= |lines|
    decreases |lines| - i
  {
    if i == |lines| then ""
    else if IsHeaderLine(lines, i, isHeader) then Strip(lines[i]) + "\n" + Unlines(BodyLines(lines, i + 1, isTitle))
    else SectionFrom(lines, i + 1, isHeader, isTitle)
  }

  /** The section is empty exactly when no line is a header line. */
  lemma {:induction false} SectionEmpty(lines: seq<String>, i: nat, isHeader: String -> bool, isTitle: String -> bool)
    requires i <= |lines|
    ensures SectionFrom(lines, i, isHeader, isTitle) == "" <==> forall k :: i <= k < |lines| ==> !IsHeaderLine(lines, k, isHeader)
    decreases |lines| - i
  {
    if i < |lines| {
      SectionEmpty(lines, i + 1, isHeader, isTitle);
      if IsHeaderLine(lines, i, isHeader) {
        var s := SectionFrom(lines, i, isHeader, isTitle);
        assert |s| > 0;
      }
    }
  }

  /** A non-empty section starts at the first header line: that line,
      stripped, then the lines collected after it. */
  lemma {:induction false} SectionAtFirstHeader(lines: seq<String>, i: nat, isHeader: String -> bool, isTitle: String -> bool, k: nat)
    requires i <= k < |lines|
    requires IsHeaderLine(lines, k, isHeader)
    requires forall m :: i <= m < k ==> !IsHeaderLine(lines, m, isHeader)
    ensures SectionFrom(lines, i, isHeader, isTitle) == Strip(lines[k]) + "\n" + Unlines(BodyLines(lines, k + 1, isTitle))
    decreases k - i
  {
    if i < k {
      assert !IsHeaderLine(lines, i, isHeader);
      SectionAtFirstHeader(lines, i + 1, isHeader, isTitle, k);
    }
  }

  /** The inner loop of `_find_section`: the lines after the header. */
  method CollectBody(lines: seq<String>, j0: nat, isTitle: String -> bool) returns (body: String)
    requires j0 <= |lines|
    ensures body == Unlines(BodyLines(lines, j0, isTitle))
  {
    body := "";
    var j := j0;
    while j < |lines|
      invariant j0 <= j <= |lines|
      invariant body + Unlines(BodyLines(lines, j, isTitle)) == Unlines(BodyLines(lines, j0, isTitle))
    {
      var next := Strip(lines[j]);
      if next != "" {
        if isTitle(next) {
          return;
        }
        body := body + next + "\n";
      }
      j := j + 1;
    }
  }

  /** `_find_section` with its keyword test and its title test. */
  method FindSectionWith(text: String, isHeader: String -> bool, isTitle: String -> bool) returns (section: String)
    ensures section == SectionFrom(Lines(text), 0, isHeader, isTitle)
  {
    var lines := Lines(text);
    var i := 0;
    while i < |lines|
      invariant i <= |lines|
      invariant SectionFrom(lines, i, isHeader, isTitle) == SectionFrom(lines, 0, isHeader, isTitle)
    {
      var lineClean := Strip(lines[i]);
      if lineClean != "" && isHeader(lineClean) {
        var body := CollectBody(lines, i + 1, isTitle);
        return lineClean + "\n" + body;
      }
      i := i + 1;
    }
    return "";
  }

  /** `_find_section(text, kind)` with the keywords of that kind. */
  method FindSection(text: String, keys: seq<Pattern>, titles: seq<Pattern>) returns (section: String)
    ensures section == Section(text, keys, titles)
  {
    section := FindSectionWith(text, HeaderTest(keys), TitleTest(titles));
  }

  function Section(text: String, keys: seq<Pattern>, titles: seq<Pattern>): String {
    SectionFrom(Lines(text), 0, HeaderTest(keys), TitleTest(titles))
  }

  /** On a cleaned text every section is empty or the whole text followed
      by a newline. */
  lemma SectionOfCleaned(text: String, keys: seq<Pattern>, titles: seq<Pattern>)
    ensures var c := CleanText(text);
      Section(c, keys, titles) == "" || Section(c, keys, titles) == c + "\n"
  {
    CleanTextOneLine(text);
    CleanTextStripped(text);
    SectionOfOneLine(CleanText(text), HeaderTest(keys), TitleTest(titles));
  }

  /** A stripped text without line breaks is its own section or has none. */
  lemma SectionOfOneLine(c: String, isHeader: String -> bool, isTitle: String -> bool)
    requires Lines(c) == [c] && Strip(c) == c
    ensures var s := SectionFrom(Lines(c), 0, isHeader, isTitle); s == "" || s == c + "\n"
  {
    assert BodyLines([c], 1, isTitle) == [];
    assert Unlines([]) == [];
  }

  // =====================================================================
  // Personal information

  /** A match of `finditer`: its span and its groups. */
  datatype DateMatch = DateMatch(start: nat, end: nat, groups: seq<String>)

  datatype BaselinePatterns = BaselinePatterns(
    email: Finder,
    phones: seq<Finder>,                      // French, international, simple
    linkedin: Finder,
    websites: String -> seq<String>,          // findall of the website pattern
    dates: seq<String -> seq<DateMatch>>,     // finditer of the three date patterns
    companies: seq<Finder>,                   // the two company patterns, group 1
    location: Finder)                         // the location pattern, group 1

  /** A name line: 2 < length < 50, no email or phone match, no digit, and
      at least one space. */
  predicate IsNameLine(line: String, p: BaselinePatterns) {
    2 < |line| < 50 && p.email(line).None? && FirstMatchFrom(p.phones, line, 0).None? &&
    (forall i :: 0 <= i < |line| ==> !IsDigit(line[i])) && ' ' in line
  }

  /** The first name line of `ls[k..]`. */
  function NameFrom(ls: seq<String>, k: nat, p: BaselinePatterns): Option<String>
    requires k <= |ls|
    decreases |ls| - k
  {
    if k == |ls| then None
    else if IsNameLine(ls[k], p) then Some(ls[k])
    else NameFrom(ls, k + 1, p)
  }

  /** The name is a name line with none before it, and there is none
      exactly when no line qualifies. */
  lemma {:induction false} NameFirst(ls: seq<String>, k: nat, p: BaselinePatterns)
    requires k <= |ls|
    ensures var r := NameFrom(ls, k, p);
      r.Some? ==> exists j :: k <= j < |ls| && r.value == ls[j] && IsNameLine(ls[j], p) &&
                              forall m :: k <= m < j ==> !IsNameLine(ls[m], p)
    ensures NameFrom(ls, k, p).None? <==> forall j :: k <= j < |ls| ==> !IsNameLine(ls[j], p)
    decreases |ls| - k
  {
    if k < |ls| && !IsNameLine(ls[k], p) {
      NameFirst(ls, k + 1, p);
      var r := NameFrom(ls, k + 1, p);
      if r.Some? {
        var j :| k + 1 <= j < |ls| && r.value == ls[j] && IsNameLine(ls[j], p) &&
                 forall m :: k + 1 <= m < j ==> !IsNameLine(ls[m], p);
        assert forall m :: k <= m < j ==> !IsNameLine(ls[m], p);
      }
    }
  }

  /** The first five stripped non-blank lines. */
  function FirstLines(text: String): (r: seq<String>)
    ensures |r| <= 5
  {
    Slice(NonBlank(Lines(text)), 0, 5)
  }

  /** The first website match naming none of the excluded sites. */
  function SiteFrom(ws: seq<String>, k: nat, excluded: seq<String>): Option<String>
    requires k <= |ws|
    decreases |ws| - k
  {
    if k == |ws| then None
    else if !ContainsAny(Lower(ws[k]), excluded) then Some(ws[k])
    else SiteFrom(ws, k + 1, excluded)
  }

  lemma {:induction false} SiteFirst(ws: seq<String>, k: nat, excluded: seq<String>)
    requires k <= |ws|
    ensures var r := SiteFrom(ws, k, excluded);
      r.Some? ==> exists j :: k <= j < |ws| && r.value == ws[j] && !ContainsAny(Lower(ws[j]), excluded) &&
                              forall m :: k <= m < j ==> ContainsAny(Lower(ws[m]), excluded)
    ensures SiteFrom(ws, k, excluded).None? <==> forall j :: k <= j < |ws| ==> ContainsAny(Lower(ws[j]), excluded)
    decreases |ws| - k
  {
    if k < |ws| && ContainsAny(Lower(ws[k]), excluded) {
      SiteFirst(ws, k + 1, excluded);
      var r := SiteFrom(ws, k + 1, excluded);
      if r.Some? {
        var j :| k + 1 <= j < |ws| && r.value == ws[j] && !ContainsAny(Lower(ws[j]), excluded) &&
                 forall m :: k + 1 <= m < j ==> ContainsAny(Lower(ws[m]), excluded);
        assert forall m :: k <= m < j ==> ContainsAny(Lower(ws[m]), excluded);
      }
    }
  }

  /** The record `extract_personal_info` builds: each key present only when
      its search succeeds; it never sets a location. */
  function PersonalInfoOf(p: BaselinePatterns, excluded: seq<String>, text: String): (info: PersonalInfo)
    ensures info.email == p.email(text) && info.linkedin == p.linkedin(text) && info.location == None
    ensures info.phone == StripMatch(FirstMatchFrom(p.phones, text, 0))
  {
    PersonalInfo(NameFrom(FirstLines(text), 0, p), p.email(text),
                 StripMatch(FirstMatchFrom(p.phones, text, 0)), None, p.linkedin(text),
                 SiteFrom(p.websites(text), 0, excluded))
  }

  /** The name and the website are the first qualifying candidates. */
  lemma PersonalInfoChoices(p: BaselinePatterns, excluded: seq<String>, text: String)
    ensures var info := PersonalInfoOf(p, excluded, text);
      (info.name.Some? ==> info.name.value in FirstLines(text) && IsNameLine(info.name.value, p)) &&
      (info.name.None? <==> forall j :: 0 <= j < |FirstLines(text)| ==> !IsNameLine(FirstLines(text)[j], p)) &&
      (info.website.Some? ==> info.website.value in p.websites(text) && !ContainsAny(Lower(info.website.value), excluded)) &&
      (info.website.None? <==> forall j :: 0 <= j < |p.websites(text)| ==> ContainsAny(Lower(p.websites(text)[j]), excluded))
  {
    NameFirst(FirstLines(text), 0, p);
    SiteFirst(p.websites(text), 0, excluded);
  }

  /** `extract_personal_info`. */
  method ExtractPersonalInfo(p: BaselinePatterns, excluded: seq<String>, text: String) returns (info: PersonalInfo)
    ensures info == PersonalInfoOf(p, excluded, text)
  {
    var email := p.email(text);
    var phoneMatch := FirstMatch(p.phones, text);
    var phone := StripMatch(phoneMatch);
    var linkedin := p.linkedin(text);
    var websites := p.websites(text);
    var website: Option<String> := None;
    var k := 0;
    while k < |websites|
      invariant k <= |websites|
      invariant SiteFrom(websites, k, excluded) == SiteFrom(websites, 0, excluded)
    {
      if !ContainsAny(Lower(websites[k]), excluded) {
        website := Some(websites[k]);
        break;
      }
      k := k + 1;
    }
    var lines := FirstLines(text);
    var name: Option<String> := None;
    var j := 0;
    while j < |lines|
      invariant j <= |lines|
      invariant NameFrom(lines, j, p) == NameFrom(lines, 0, p)
    {
      if IsNameLine(lines[j], p) {
        name := Some(lines[j]);
        break;
      }
      j := j + 1;
    }
    info := PersonalInfo(name, email, phone, None, linkedin, website);
  }

  /** On a cleaned text the only candidate for the name is the whole text. */
  lemma NameOfCleaned(p: BaselinePatterns, excluded: seq<String>, text: String)
    ensures var c := CleanText(text);
      PersonalInfoOf(p, excluded, c).name.Some? ==> PersonalInfoOf(p, excluded, c).name.value == c
  {
    CleanTextOneLine(text);
    CleanTextStripped(text);
    NameOfOneLine(p, excluded, CleanText(text));
  }

  /** A stripped text without line breaks is the only name candidate. */
  lemma NameOfOneLine(p: BaselinePatterns, excluded: seq<String>, c: String)
    requires Lines(c) == [c] && Strip(c) == c
    ensures PersonalInfoOf(p, excluded, c).name.Some? ==> PersonalInfoOf(p, excluded, c).name.value == c
  {
    NonBlankOne(c);
    var ls := FirstLines(c);
    assert ls == [] || ls == [c];
    if ls == [c] {
      assert NameFrom(ls, 1, p) == None;
    }
  }

  /** A single stripped line is kept unless it is blank. */
  lemma NonBlankOne(c: String)
    requires Strip(c) == c
    ensures NonBlank([c]) == if c == "" then [] else [c]
  {
    assert [c][..0] == [];
    assert NonBlank([c]) == NonBlank([]) + (if Strip(c) != "" then [Strip(c)] else []);
  }

  // =====================================================================
  // Experiences

  /** A date block: the text window around a match, its groups, its start. */
  datatype Block = Block(text: String, dates: seq<String>, position: nat)

  /** The window of 200 characters on each side of a match, clamped to the
      section. */
  function BlockOf(section: String, m: DateMatch): (b: Block)
    ensures b.dates == m.groups && b.position == m.start
    ensures var a := Max(0, m.start - 200); var e := Min(|section|, m.end + 200);
      b.text == (if a < e then section[a..e] else [])
  {
    Block(Slice(section, Max(0, m.start - 200), m.end + 200), m.groups, m.start)
  }

  function MapBlocks(section: String, ms: seq<DateMatch>): (r: seq<Block>)
    ensures |r| == |ms|
  {
    seq(|ms|, i requires 0 <= i < |ms| => BlockOf(section, ms[i]))
  }

  /** The blocks of the patterns in order, each pattern's in match order. */
  function Blocks(section: String, fs: seq<String -> seq<DateMatch>>): seq<Block> {
    if fs == [] then [] else Blocks(section, fs[..|fs| - 1]) + MapBlocks(section, fs[|fs| - 1](section))
  }

  function MatchCount(section: String, fs: seq<String -> seq<DateMatch>>): nat {
    if fs == [] then 0 else MatchCount(section, fs[..|fs| - 1]) + |fs[|fs| - 1](section)|
  }

  /** One block per match of each pattern. */
  lemma {:induction false} BlocksCount(section: String, fs: seq<String -> seq<DateMatch>>)
    ensures |Blocks(section, fs)| == MatchCount(section, fs)
  {
    if fs != [] {
      BlocksCount(section, fs[..|fs| - 1]);
    }
  }

  /** The double loop that fills `date_blocks`. */
  method CollectBlocks(section: String, fs: seq<String -> seq<DateMatch>>) returns (blocks: seq<Block>)
    ensures blocks == Blocks(section, fs)
  {
    blocks := [];
    var k := 0;
    while k < |fs|
      invariant k <= |fs|
      invariant blocks == Blocks(section, fs[..k])
    {
      var ms := fs[k](section);
      var j := 0;
      while j < |ms|
        invariant j <= |ms|
        invariant blocks == Blocks(section, fs[..k]) + MapBlocks(section, ms[..j])
      {
        assert MapBlocks(section, ms[..j + 1]) == MapBlocks(section, ms[..j]) + [BlockOf(section, ms[j])];
        blocks := blocks + [BlockOf(section, ms[j])];
        j := j + 1;
      }
      assert ms[..j] == ms;
      assert fs[..k + 1][..k] == fs[..k];
      k := k + 1;
    }
    assert fs[..k] == fs;
  }

  /** `_parse_start_date`: the first group, or "". */
  function StartDate(dates: seq<String>): String {
    if |dates| > 0 then dates[0] else ""
  }

  /** `_is_current_position`: a second group naming an ongoing date. */
  predicate IsCurrentPosition(dates: seq<String>, words: seq<String>) {
    |dates| > 1 && ContainsAny(Lower(dates[1]), words)
  }

  /** `_parse_end_date`: "" for an ongoing or missing end, else the group. */
  function EndDate(dates: seq<String>, words: seq<String>): String {
    if |dates| > 1 then (if ContainsAny(Lower(dates[1]), words) then "" else dates[1]) else ""
  }

  /** The two end-date helpers agree: a current position has an empty end
      date, and otherwise the end date is the second group or "". */
  lemma EndDateCases(dates: seq<String>, words: seq<String>)
    ensures IsCurrentPosition(dates, words) ==> EndDate(dates, words) == ""
    ensures !IsCurrentPosition(dates, words) ==> EndDate(dates, words) == (if |dates| > 1 then dates[1] else "")
  {
  }

  /** `\d{4}` somewhere in the line. */
  predicate HasFourDigits(s: String) {
    exists k :: 0 <= k <= |s| && FourDigitsAt(s, k)
  }

  predicate IsPositionLine(l: String) {
    5 < |l| < 100 && !HasFourDigits(l)
  }

  /** `_extract_position` over the stripped non-blank lines `ls[k..]`. */
  function PositionFrom(ls: seq<String>, k: nat): String
    requires k <= |ls|
    decreases |ls| - k
  {
    if k == |ls| then "Poste"
    else if IsPositionLine(ls[k]) then ls[k]
    else PositionFrom(ls, k + 1)
  }

  /** The position is the first qualifying line, or "Poste" when none
      qualifies. */
  lemma {:induction false} PositionFirst(ls: seq<String>, k: nat, j: nat)
    requires k <= j <= |ls|
    requires forall m :: k <= m < j ==> !IsPositionLine(ls[m])
    ensures j == |ls| ==> PositionFrom(ls, k) == "Poste"
    ensures j < |ls| && IsPositionLine(ls[j]) ==> PositionFrom(ls, k) == ls[j]
    decreases j - k
  {
    if k < j {
      PositionFirst(ls, k + 1, j);
    }
  }

  predicate IsDescriptionLine(l: String, exclusions: seq<String>) {
    |l| > 20 && !HasFourDigits(l) && !ContainsAny(Lower(l), exclusions)
  }

  /** The stripped lines of `_extract_description` that are kept. */
  function DescriptionLines(ls: seq<String>, exclusions: seq<String>): (r: seq<String>)
    ensures |r| <= |ls|
  {
    if ls == [] then []
    else
      var l := Strip(ls[0]);
      (if IsDescriptionLine(l, exclusions) then [l] else []) + DescriptionLines(ls[1..], exclusions)
  }

  /** Every kept line is long, has no year and names no excluded word. */
  lemma {:induction false} DescriptionLinesOk(ls: seq<String>, exclusions: seq<String>)
    ensures forall k :: 0 <= k < |DescriptionLines(ls, exclusions)| ==>
              IsDescriptionLine(DescriptionLines(ls, exclusions)[k], exclusions)
  {
    if ls != [] {
      DescriptionLinesOk(ls[1..], exclusions);
      var l := Strip(ls[0]);
      var rest := DescriptionLines(ls[1..], exclusions);
      if IsDescriptionLine(l, exclusions) {
        assert DescriptionLines(ls, exclusions) == [l] + rest;
      } else {
        assert DescriptionLines(ls, exclusions) == rest;
      }
    }
  }

  /** `' '.join(description_lines[:3])`. */
  function DescriptionOf(text: String, exclusions: seq<String>): String {
    var d := DescriptionLines(Lines(text), exclusions);
    Join(d[..Min(3, |d|)], " ")
  }

  /** `_extract_company`: the first company pattern's group, stripped;
      "Entreprise" without a match. */
  function CompanyOf(text: String, companies: seq<Finder>): (r: String)
    ensures FirstMatchFrom(companies, text, 0).None? ==> r == "Entreprise"
    ensures FirstMatchFrom(companies, text, 0).Some? ==> r == Strip(FirstMatchFrom(companies, text, 0).value)
  {
    match FirstMatchFrom(companies, text, 0)
    case Some(m) => Strip(m)
    case None => "Entreprise"
  }

  /** The record of block `i`. */
  function ExperienceOfBlock(b: Block, i: nat, p: BaselinePatterns, rules: BaselineRules): (e: Experience)
    ensures e.id == Some(HashId("exp", b.text, i))
    ensures e.startDate == Some(StartDate(b.dates))
    ensures e.isCurrentPosition == Some(IsCurrentPosition(b.dates, rules.currentWords))
    ensures e.isCurrentPosition == Some(true) ==> e.endDate == Some("")
  {
    Experience(Some(HashId("exp", b.text, i)), Some(CompanyOf(b.text, p.companies)),
               Some(PositionFrom(NonBlank(Lines(b.text)), 0)), Some(p.location(b.text).GetOr("")),
               Some(StartDate(b.dates)), Some(EndDate(b.dates, rules.currentWords)),
               Some(DescriptionOf(b.text, rules.descriptionExclusions)),
               Some(IsCurrentPosition(b.dates, rules.currentWords)))
  }

  function ExperiencesOfBlocks(blocks: seq<Block>, p: BaselinePatterns, rules: BaselineRules): (r: seq<Experience>)
    ensures |r| == |blocks|
  {
    seq(|blocks|, i requires 0 <= i < |blocks| => ExperienceOfBlock(blocks[i], i, p, rules))
  }

  /** `extract_experiences`: nothing without a section, otherwise one entry
      per block. */
  function ExperiencesOf(p: BaselinePatterns, rules: BaselineRules, text: String): seq<Experience> {
    var section := Section(text, rules.experienceKeys, rules.titles);
    if section == "" then [] else ExperiencesOfBlocks(Blocks(section, p.dates), p, rules)
  }

  method ExtractExperiences(p: BaselinePatterns, rules: BaselineRules, text: String) returns (experiences: seq<Experience>)
    ensures experiences == ExperiencesOf(p, rules, text)
  {
    var section := FindSection(text, rules.experienceKeys, rules.titles);
    if section == "" {
      return [];
    }
    var blocks := CollectBlocks(section, p.dates);
    experiences := BlockExperiences(blocks, p, rules);
  }

  /** `for i, block in enumerate(date_blocks): experiences.append(...)`. */
  method BlockExperiences(blocks: seq<Block>, p: BaselinePatterns, rules: BaselineRules) returns (experiences: seq<Experience>)
    ensures experiences == ExperiencesOfBlocks(blocks, p, rules)
  {
    experiences := [];
    var i := 0;
    while i < |blocks|
      invariant i <= |blocks|
      invariant experiences == ExperiencesOfBlocks(blocks, p, rules)[..i]
    {
      experiences := experiences + [ExperienceOfBlock(blocks[i], i, p, rules)];
      i := i + 1;
    }
  }

  /** The experiences are the date blocks in order, one each: entry `i`
      carries block `i`'s window in its id and block `i`'s groups in its
      dates, and an ongoing end date empties the end date. */
  lemma ExperiencesFromBlocks(p: BaselinePatterns, rules: BaselineRules, text: String)
    ensures var section := Section(text, rules.experienceKeys, rules.titles);
      var es := ExperiencesOf(p, rules, text);
      (section == "" ==> es == []) &&
      (section != "" ==>
        var bs := Blocks(section, p.dates);
        |es| == MatchCount(section, p.dates) &&
        forall i :: 0 <= i < |es| ==>
          es[i].id == Some(HashId("exp", bs[i].text, i)) && es[i].startDate == Some(StartDate(bs[i].dates)) &&
          (es[i].isCurrentPosition == Some(true) ==> es[i].endDate == Some("")))
  {
    var section := Section(text, rules.experienceKeys, rules.titles);
    if section != "" {
      BlocksCount(section, p.dates);
    }
  }

  // =====================================================================
  // Education

  /** A line matching one of the two degree patterns. */
  function DegreeTest(degrees: seq<String>): String -> bool {
    l => ContainsAny(Lower(l), degrees)
  }

  /** A line naming a school. */
  function SchoolTest(schools: seq<String>): String -> bool {
    l => ContainsAny(Lower(l), schools)
  }

  /** The entry opened by a degree line. */
  function NewEducation(l: String, ordinal: nat): Education {
    Education(Some(HashId("edu", l, ordinal)), Some(""), Some(l), None, Some(""), Some(""), None)
  }

  /** `if current_education: education.append(current_education)`. */
  function Flush(cur: Option<Education>, acc: seq<Education>): seq<Education> {
    if cur.Some? then acc + [cur.value] else acc
  }

  /** Sets the institution of the open entry once, from a school line. */
  function SetInstitution(cur: Option<Education>, l: String, isSchool: String -> bool): Option<Education> {
    if cur.Some? && cur.value.institution == Some("") && isSchool(l)
    then Some(cur.value.(institution := Some(l)))
    else cur
  }

  /** The scan of `extract_education` over the section's lines from `i`,
      with the open entry `cur` and the flushed entries `acc`. */
  function EduScan(lines: seq<String>, i: nat, isDegree: String -> bool, isSchool: String -> bool,
                   cur: Option<Education>, acc: seq<Education>): seq<Education>
    requires i <= |lines|
    decreases |lines| - i
  {
    if i == |lines| then Flush(cur, acc)
    else
      var l := Strip(lines[i]);
      if l == "" then EduScan(lines, i + 1, isDegree, isSchool, cur, acc)
      else if isDegree(l) then
        var flushed := Flush(cur, acc);
        EduScan(lines, i + 1, isDegree, isSchool, SetInstitution(Some(NewEducation(l, |flushed|)), l, isSchool), flushed)
      else EduScan(lines, i + 1, isDegree, isSchool, SetInstitution(cur, l, isSchool), acc)
  }

  function EducationOf(rules: BaselineRules, text: String): seq<Education> {
    var section := Section(text, rules.educationKeys, rules.titles);
    if section == "" then [] else EduScan(Lines(section), 0, DegreeTest(rules.degrees), SchoolTest(rules.schools), None, [])
  }

  method ExtractEducation(rules: BaselineRules, text: String) returns (education: seq<Education>)
    ensures education == EducationOf(rules, text)
  {
    var section := FindSection(text, rules.educationKeys, rules.titles);
    if section == "" {
      return [];
    }
    education := ScanEducation(Lines(section), DegreeTest(rules.degrees), SchoolTest(rules.schools));
  }

  /** The loop of `extract_education` over the section's lines. */
  method ScanEducation(lines: seq<String>, isDegree: String -> bool, isSchool: String -> bool) returns (education: seq<Education>)
    ensures education == EduScan(lines, 0, isDegree, isSchool, None, [])
  {
    education := [];
    var current: Option<Education> := None;
    var i := 0;
    while i < |lines|
      invariant i <= |lines|
      invariant EduScan(lines, i, isDegree, isSchool, current, education) == EduScan(lines, 0, isDegree, isSchool, None, [])
    {
      var line := Strip(lines[i]);
      if line != "" {
        if isDegree(line) {
          if current.Some? {
            education := education + [current.value];
          }
          current := Some(NewEducation(line, |education|));
        }
        if current.Some? && current.value.institution == Some("") && isSchool(line) {
          current := Some(current.value.(institution := Some(line)));
        }
      }
      i := i + 1;
    }
    if current.Some? {
      education := education + [current.value];
    }
  }

  /** The stripped degree lines from line `i` on. */
  function DegreeLines(lines: seq<String>, i: nat, isDegree: String -> bool): seq<String>
    requires i <= |lines|
    decreases |lines| - i
  {
    if i == |lines| then []
    else
      var l := Strip(lines[i]);
      (if l != "" && isDegree(l) then [l] else []) + DegreeLines(lines, i + 1, isDegree)
  }

  /** An entry as `extract_education` leaves it: its ordinal in the id, the
      degree line as degree, and an institution that is empty or a school
      line. */
  predicate EduEntryOk(e: Education, k: nat, isSchool: String -> bool) {
    e.degree.Some? && e.id == Some(HashId("edu", e.degree.value, k)) && e.institution.Some? &&
    (e.institution.value == "" || isSchool(e.institution.value)) &&
    e.startDate == Some("") && e.endDate == Some("")
  }

  predicate EduEntriesOk(es: seq<Education>, isSchool: String -> bool) {
    forall k :: 0 <= k < |es| ==> EduEntryOk(es[k], k, isSchool)
  }

  function DegreesOf(es: seq<Education>): (r: seq<String>)
    ensures |r| == |es|
  {
    seq(|es|, k requires 0 <= k < |es| => es[k].degree.GetOr(""))
  }

  /** Every entry of the scan is well formed. */
  lemma {:induction false} EduScanOk(lines: seq<String>, i: nat, isDegree: String -> bool, isSchool: String -> bool,
                                     cur: Option<Education>, acc: seq<Education>)
    requires i <= |lines|
    requires EduEntriesOk(acc, isSchool)
    requires cur.Some? ==> EduEntryOk(cur.value, |acc|, isSchool)
    ensures EduEntriesOk(EduScan(lines, i, isDegree, isSchool, cur, acc), isSchool)
    decreases |lines| - i
  {
    if i < |lines| {
      var l := Strip(lines[i]);
      if l == "" {
        EduScanOk(lines, i + 1, isDegree, isSchool, cur, acc);
      } else if isDegree(l) {
        var flushed := Flush(cur, acc);
        var next := SetInstitution(Some(NewEducation(l, |flushed|)), l, isSchool);
        EduScanOk(lines, i + 1, isDegree, isSchool, next, flushed);
        assert EduScan(lines, i, isDegree, isSchool, cur, acc) == EduScan(lines, i + 1, isDegree, isSchool, next, flushed);
      } else {
        var next := SetInstitution(cur, l, isSchool);
        EduScanOk(lines, i + 1, isDegree, isSchool, next, acc);
        assert EduScan(lines, i, isDegree, isSchool, cur, acc) == EduScan(lines, i + 1, isDegree, isSchool, next, acc);
      }
    }
  }

  /** One entry per degree line, in order. */
  lemma {:induction false} EduScanDegrees(lines: seq<String>, i: nat, isDegree: String -> bool, isSchool: String -> bool,
                                          cur: Option<Education>, acc: seq<Education>)
    requires i <= |lines|
    ensures DegreesOf(EduScan(lines, i, isDegree, isSchool, cur, acc)) ==
            DegreesOf(Flush(cur, acc)) + DegreeLines(lines, i, isDegree)
    decreases |lines| - i
  {
    if i == |lines| {
      assert DegreeLines(lines, i, isDegree) == [];
    } else {
      var l := Strip(lines[i]);
      var rest := DegreeLines(lines, i + 1, isDegree);
      if l == "" {
        EduScanDegrees(lines, i + 1, isDegree, isSchool, cur, acc);
        assert DegreeLines(lines, i, isDegree) == rest;
      } else if isDegree(l) {
        var flushed := Flush(cur, acc);
        var next := SetInstitution(Some(NewEducation(l, |flushed|)), l, isSchool);
        EduScanDegrees(lines, i + 1, isDegree, isSchool, next, flushed);
        assert EduScan(lines, i, isDegree, isSchool, cur, acc) == EduScan(lines, i + 1, isDegree, isSchool, next, flushed);
        assert DegreeLines(lines, i, isDegree) == [l] + rest;
        DegreesSnoc(flushed, next.value, rest);
      } else {
        var next := SetInstitution(cur, l, isSchool);
        EduScanDegrees(lines, i + 1, isDegree, isSchool, next, acc);
        assert EduScan(lines, i, isDegree, isSchool, cur, acc) == EduScan(lines, i + 1, isDegree, isSchool, next, acc);
        assert DegreeLines(lines, i, isDegree) == rest;
        if cur.Some? {
          assert next.value.degree == cur.value.degree;
          DegreesSnoc(acc, next.value, rest);
          DegreesSnoc(acc, cur.value, rest);
        }
      }
    }
  }

  /** The degrees after one more entry, followed by `rest`. */
  lemma DegreesSnoc(es: seq<Education>, e: Education, rest: seq<String>)
    ensures DegreesOf(es + [e]) + rest == DegreesOf(es) + ([e.degree.GetOr("")] + rest)
  {
    assert DegreesOf(es + [e]) == DegreesOf(es) + [e.degree.GetOr("")];
  }

  /** The institutions of a list of entries, '' where there is none. */
  function Institutions(es: seq<Education>): (r: seq<String>)
    ensures |r| == |es|
  {
    seq(|es|, k requires 0 <= k < |es| => es[k].institution.GetOr(""))
  }

  /** The first school line from line `j` up to the next degree line, or ''
      when there is none. */
  function FirstSchoolFrom(lines: seq<String>, j: nat, isDegree: String -> bool, isSchool: String -> bool): (r: String)
    requires j <= |lines|
    ensures r == "" || (isSchool(r) && !isDegree(r))
    decreases |lines| - j
  {
    if j == |lines| then ""
    else
      var l := Strip(lines[j]);
      if l == "" then FirstSchoolFrom(lines, j + 1, isDegree, isSchool)
      else if isDegree(l) then ""
      else if isSchool(l) then l
      else FirstSchoolFrom(lines, j + 1, isDegree, isSchool)
  }

  /** The institution an entry opened at line `d` should get: the degree
      line itself when it names a school, else the first school line of
      the lines it owns. */
  function SpanSchool(lines: seq<String>, d: nat, isDegree: String -> bool, isSchool: String -> bool): String
    requires d < |lines|
  {
    var l := Strip(lines[d]);
    if isSchool(l) then l else FirstSchoolFrom(lines, d + 1, isDegree, isSchool)
  }

  /** The institution owed to each degree line from line `i` on. */
  function DegreeSchools(lines: seq<String>, i: nat, isDegree: String -> bool, isSchool: String -> bool): seq<String>
    requires i <= |lines|
    decreases |lines| - i
  {
    if i == |lines| then []
    else
      var l := Strip(lines[i]);
      (if l != "" && isDegree(l) then [SpanSchool(lines, i, isDegree, isSchool)] else []) +
      DegreeSchools(lines, i + 1, isDegree, isSchool)
  }

  /** The institution the open entry will end with, from line `i` on. */
  function OpenSchool(cur: Option<Education>, lines: seq<String>, i: nat, isDegree: String -> bool, isSchool: String -> bool): seq<String>
    requires i <= |lines|
  {
    if cur.None? then []
    else if cur.value.institution.GetOr("") != "" then [cur.value.institution.value]
    else [FirstSchoolFrom(lines, i, isDegree, isSchool)]
  }

  lemma InstitutionsSnoc(es: seq<Education>, e: Education)
    ensures Institutions(es + [e]) == Institutions(es) + [e.institution.GetOr("")]
  {
  }

  /** Each entry's institution is the first school line of the lines it
      owns, from its degree line up to the next one, and '' when there is
      none: the institution is set once, by the first school line. */
  lemma {:induction false} EduScanSchools(lines: seq<String>, i: nat, isDegree: String -> bool, isSchool: String -> bool,
                                          cur: Option<Education>, acc: seq<Education>)
    requires i <= |lines|
    requires cur.Some? ==> cur.value.institution.Some?
    ensures Institutions(EduScan(lines, i, isDegree, isSchool, cur, acc)) ==
            Institutions(acc) + OpenSchool(cur, lines, i, isDegree, isSchool) + DegreeSchools(lines, i, isDegree, isSchool)
    decreases |lines| - i
  {
    if i == |lines| {
      assert DegreeSchools(lines, i, isDegree, isSchool) == [];
      if cur.Some? {
        InstitutionsSnoc(acc, cur.value);
      }
    } else {
      var l := Strip(lines[i]);
      var rest := DegreeSchools(lines, i + 1, isDegree, isSchool);
      if l == "" {
        EduScanSchools(lines, i + 1, isDegree, isSchool, cur, acc);
        assert DegreeSchools(lines, i, isDegree, isSchool) == rest;
        assert FirstSchoolFrom(lines, i, isDegree, isSchool) == FirstSchoolFrom(lines, i + 1, isDegree, isSchool);
      } else if isDegree(l) {
        EduDegreeSchools(lines, i, isDegree, isSchool, cur, acc);
      } else {
        EduOtherSchools(lines, i, isDegree, isSchool, cur, acc);
      }
    }
  }

  /** A degree line flushes the open entry, whose span ends there, and
      opens one whose institution is its span's school. */
  lemma {:induction false} EduDegreeSchools(lines: seq<String>, i: nat, isDegree: String -> bool, isSchool: String -> bool,
                                            cur: Option<Education>, acc: seq<Education>)
    requires i < |lines| && Strip(lines[i]) != "" && isDegree(Strip(lines[i]))
    requires cur.Some? ==> cur.value.institution.Some?
    ensures Institutions(EduScan(lines, i, isDegree, isSchool, cur, acc)) ==
            Institutions(acc) + OpenSchool(cur, lines, i, isDegree, isSchool) + DegreeSchools(lines, i, isDegree, isSchool)
    decreases |lines| - i, 0
  {
    var l := Strip(lines[i]);
    var rest := DegreeSchools(lines, i + 1, isDegree, isSchool);
    var flushed := Flush(cur, acc);
    var next := SetInstitution(Some(NewEducation(l, |flushed|)), l, isSchool);
    EduScanSchools(lines, i + 1, isDegree, isSchool, next, flushed);
    assert EduScan(lines, i, isDegree, isSchool, cur, acc) == EduScan(lines, i + 1, isDegree, isSchool, next, flushed);
    assert DegreeSchools(lines, i, isDegree, isSchool) == [SpanSchool(lines, i, isDegree, isSchool)] + rest;
    assert OpenSchool(next, lines, i + 1, isDegree, isSchool) == [SpanSchool(lines, i, isDegree, isSchool)];
    if cur.Some? {
      InstitutionsSnoc(acc, cur.value);
      assert FirstSchoolFrom(lines, i, isDegree, isSchool) == "";
      assert Institutions(flushed) == Institutions(acc) + OpenSchool(cur, lines, i, isDegree, isSchool);
    }
  }

  /** Any other line sets the open entry's institution when it is the first
      school line of its span, and changes nothing else. */
  lemma {:induction false} EduOtherSchools(lines: seq<String>, i: nat, isDegree: String -> bool, isSchool: String -> bool,
                                           cur: Option<Education>, acc: seq<Education>)
    requires i < |lines| && Strip(lines[i]) != "" && !isDegree(Strip(lines[i]))
    requires cur.Some? ==> cur.value.institution.Some?
    ensures Institutions(EduScan(lines, i, isDegree, isSchool, cur, acc)) ==
            Institutions(acc) + OpenSchool(cur, lines, i, isDegree, isSchool) + DegreeSchools(lines, i, isDegree, isSchool)
    decreases |lines| - i, 0
  {
    var l := Strip(lines[i]);
    var next := SetInstitution(cur, l, isSchool);
    EduScanSchools(lines, i + 1, isDegree, isSchool, next, acc);
    assert EduScan(lines, i, isDegree, isSchool, cur, acc) == EduScan(lines, i + 1, isDegree, isSchool, next, acc);
    assert DegreeSchools(lines, i, isDegree, isSchool) == DegreeSchools(lines, i + 1, isDegree, isSchool);
    assert OpenSchool(next, lines, i + 1, isDegree, isSchool) == OpenSchool(cur, lines, i, isDegree, isSchool);
  }

  /** Every entry is opened by a degree line of the section, in order, and
      its institution is set at most once, from a school line. */
  lemma EducationEntries(rules: BaselineRules, text: String)
    ensures var section := Section(text, rules.educationKeys, rules.titles);
      var es := EducationOf(rules, text);
      EduEntriesOk(es, SchoolTest(rules.schools)) &&
      (section != "" ==> DegreesOf(es) == DegreeLines(Lines(section), 0, DegreeTest(rules.degrees))) &&
      (section != "" ==> Institutions(es) == DegreeSchools(Lines(section), 0, DegreeTest(rules.degrees), SchoolTest(rules.schools)))
  {
    var section := Section(text, rules.educationKeys, rules.titles);
    if section != "" {
      EduScanOk(Lines(section), 0, DegreeTest(rules.degrees), SchoolTest(rules.schools), None, []);
      EduScanDegrees(Lines(section), 0, DegreeTest(rules.degrees), SchoolTest(rules.schools), None, []);
      EduScanSchools(Lines(section), 0, DegreeTest(rules.degrees), SchoolTest(rules.schools), None, []);
      assert Institutions([]) + OpenSchool(None, Lines(section), 0, DegreeTest(rules.degrees), SchoolTest(rules.schools)) == [];
    }
  }

  /** On a cleaned text the section is at most one line, so at most one
      education entry comes out. */
  lemma EducationOfCleaned(rules: BaselineRules, text: String)
    ensures |EducationOf(rules, CleanText(text))| <= 1
  {
    var c := CleanText(text);
    SectionOfCleaned(text, rules.educationKeys, rules.titles);
    var section := Section(c, rules.educationKeys, rules.titles);
    if section != "" {
      CleanTextShape(text);
      LinesOfTerminated(c);
      EduScanOfTwoLines(c, DegreeTest(rules.degrees), SchoolTest(rules.schools));
    }
  }

  /** A line and an empty line give at most one entry. */
  lemma EduScanOfTwoLines(c: String, isDegree: String -> bool, isSchool: String -> bool)
    ensures |EduScan([c, ""], 0, isDegree, isSchool, None, [])| <= 1
  {
    var lines := [c, ""];
    EduScanDegrees(lines, 0, isDegree, isSchool, None, []);
    assert Strip(lines[1]) == "" by {
      assert lines[1] == [];
    }
    assert DegreeLines(lines, 2, isDegree) == [];
    assert DegreeLines(lines, 1, isDegree) == [];
  }

  // =====================================================================
  // Skills

  /** The words of the vocabulary, in text order, each occurrence kept. */
  function VocabularyWords(ws: seq<String>, vocabulary: set<String>): (r: seq<String>)
    ensures |r| <= |ws|
    ensures forall k :: 0 <= k < |r| ==> r[k] in vocabulary
  {
    if ws == [] then []
    else (if ws[0] in vocabulary then [ws[0]] else []) + VocabularyWords(ws[1..], vocabulary)
  }

  /** No occurrence of a vocabulary word is lost or merged: it is kept as
      often as it occurs, and every other word is dropped. */
  lemma {:induction false} VocabularyWordsCount(ws: seq<String>, vocabulary: set<String>, w: String)
    ensures multiset(VocabularyWords(ws, vocabulary))[w] == if w in vocabulary then multiset(ws)[w] else 0
  {
    if ws != [] {
      VocabularyWordsCount(ws[1..], vocabulary, w);
      assert ws == [ws[0]] + ws[1..];
    }
  }

  function SkillOf(w: String, ordinal: nat): Skill {
    Skill(Some(HashId("skill", w, ordinal)), Some(TitleWord(w)), Some("technical"), Some("intermediate"))
  }

  function SkillsOfWords(ws: seq<String>): (r: seq<Skill>)
    ensures |r| == |ws|
    ensures forall k :: 0 <= k < |ws| ==> r[k] == SkillOf(ws[k], k)
  {
    seq(|ws|, k requires 0 <= k < |ws| => SkillOf(ws[k], k))
  }

  /** `extract_skills`. */
  function SkillsOf(rules: BaselineRules, text: String): seq<Skill> {
    var section := Section(text, rules.skillsKeys, rules.titles);
    if section == "" then [] else SkillsOfWords(VocabularyWords(Words(Lower(section)), rules.techSkills))
  }

  lemma {:induction false} VocabularyWordsSnoc(ws: seq<String>, w: String, vocabulary: set<String>)
    ensures VocabularyWords(ws + [w], vocabulary) ==
            VocabularyWords(ws, vocabulary) + (if w in vocabulary then [w] else [])
  {
    if ws != [] {
      assert (ws + [w])[1..] == ws[1..] + [w];
      VocabularyWordsSnoc(ws[1..], w, vocabulary);
    } else {
      assert VocabularyWords([w], vocabulary) == (if w in vocabulary then [w] else []) + VocabularyWords([], vocabulary);
    }
  }

  method ExtractSkills(rules: BaselineRules, text: String) returns (skills: seq<Skill>)
    ensures skills == SkillsOf(rules, text)
  {
    var section := FindSection(text, rules.skillsKeys, rules.titles);
    if section == "" {
      return [];
    }
    skills := CollectSkills(Words(Lower(section)), rules.techSkills);
  }

  /** `for word in words: if word in tech_skills: skills.append(...)`. */
  method CollectSkills(words: seq<String>, vocabulary: set<String>) returns (skills: seq<Skill>)
    ensures skills == SkillsOfWords(VocabularyWords(words, vocabulary))
  {
    skills := [];
    var k := 0;
    while k < |words|
      invariant k <= |words|
      invariant skills == SkillsOfWords(VocabularyWords(words[..k], vocabulary))
    {
      VocabularyWordsSnoc(words[..k], words[k], vocabulary);
      assert words[..k + 1] == words[..k] + [words[k]];
      if words[k] in vocabulary {
        skills := skills + [SkillOf(words[k], |skills|)];
      }
      k := k + 1;
    }
    assert words[..k] == words;
  }

  /** Every occurrence of a vocabulary word gives one entry, repeats
      included; the entries are technical and intermediate. */
  lemma SkillsPerOccurrence(rules: BaselineRules, text: String, w: String)
    ensures var section := Section(text, rules.skillsKeys, rules.titles);
      var ss := SkillsOf(rules, text);
      section != "" ==>
        var vs := VocabularyWords(Words(Lower(section)), rules.techSkills);
        |ss| == |vs| &&
        multiset(vs)[w] == (if w in rules.techSkills then multiset(Words(Lower(section)))[w] else 0) &&
        forall k :: 0 <= k < |ss| ==>
          vs[k] in rules.techSkills && ss[k] == SkillOf(vs[k], k)
  {
    var section := Section(text, rules.skillsKeys, rules.titles);
    if section != "" {
      VocabularyWordsCount(Words(Lower(section)), rules.techSkills, w);
    }
  }

  // =====================================================================
  // Languages

  /** `re.search(r'\b' + key + r'\b', ...)` succeeding at `k`. */
  predicate WordAt(lc: String, key: String, k: nat) {
    OccursAt(lc, key, k) && (k == 0 || !IsWordChar(lc[k - 1])) &&
    (k + |key| == |lc| || !IsWordChar(lc[k + |key|]))
  }

  /** The section mentions the (lower-case) key as a whole word, ignoring
      case. */
  predicate MentionsWord(section: String, key: String) {
    exists k :: 0 <= k <= |section| && WordAt(Lower(section), key, k)
  }

  /** The rows of the table whose key the section mentions, in table order. */
  function FoundRows(section: String, rows: seq<LangRow>): (r: seq<LangRow>)
    ensures |r| <= |rows|
  {
    if rows == [] then []
    else (if MentionsWord(section, rows[0].key) then [rows[0]] else []) + FoundRows(section, rows[1..])
  }

  /** A row is reported exactly when the section mentions its key, and no
      row more often than the table holds it. */
  lemma {:induction false} FoundRowsExact(section: String, rows: seq<LangRow>, row: LangRow)
    ensures multiset(FoundRows(section, rows))[row] ==
            if MentionsWord(section, row.key) then multiset(rows)[row] else 0
  {
    if rows != [] {
      var h := rows[0];
      var t := rows[1..];
      var front := if MentionsWord(section, h.key) then [h] else [];
      FoundRowsExact(section, t, row);
      assert FoundRows(section, rows) == front + FoundRows(section, t);
      assert multiset(FoundRows(section, rows)) == multiset(front) + multiset(FoundRows(section, t));
      assert rows == [h] + t;
      assert multiset(rows) == multiset{h} + multiset(t);
      if h == row {
        assert multiset(front)[row] == if MentionsWord(section, row.key) then 1 else 0;
      } else {
        assert multiset(front)[row] == 0;
      }
    }
  }

  function LanguageOf(row: LangRow, ordinal: nat): Language {
    Language(Some(HashId("lang", row.key, ordinal)), Some(TitleWord(row.key)), Some(row.level))
  }

  function LanguagesOfRows(rows: seq<LangRow>): (r: seq<Language>)
    ensures |r| == |rows|
    ensures forall k :: 0 <= k < |rows| ==> r[k] == LanguageOf(rows[k], k)
  {
    seq(|rows|, k requires 0 <= k < |rows| => LanguageOf(rows[k], k))
  }

  /** `extract_languages`. */
  function LanguagesOf(rules: BaselineRules, text: String): seq<Language> {
    var section := Section(text, rules.languagesKeys, rules.titles);
    if section == "" then [] else LanguagesOfRows(FoundRows(section, rules.languages))
  }

  lemma {:induction false} FoundRowsSnoc(section: String, rows: seq<LangRow>, row: LangRow)
    ensures FoundRows(section, rows + [row]) ==
            FoundRows(section, rows) + (if MentionsWord(section, row.key) then [row] else [])
  {
    if rows != [] {
      assert (rows + [row])[1..] == rows[1..] + [row];
      FoundRowsSnoc(section, rows[1..], row);
    } else {
      assert FoundRows(section, [row]) == (if MentionsWord(section, row.key) then [row] else []) + FoundRows(section, []);
    }
  }

  /** `for lang, level in common_languages.items(): if re.search(...)`. */
  method ScanTable(section: String, rows: seq<LangRow>) returns (languages: seq<Language>)
    ensures languages == LanguagesOfRows(FoundRows(section, rows))
  {
    languages := [];
    var k := 0;
    while k < |rows|
      invariant k <= |rows|
      invariant languages == LanguagesOfRows(FoundRows(section, rows[..k]))
    {
      FoundRowsSnoc(section, rows[..k], rows[k]);
      assert rows[..k + 1] == rows[..k] + [rows[k]];
      if MentionsWord(section, rows[k].key) {
        languages := languages + [LanguageOf(rows[k], |languages|)];
      }
      k := k + 1;
    }
    assert rows[..k] == rows;
  }

  method ExtractLanguages(rules: BaselineRules, text: String) returns (languages: seq<Language>)
    ensures languages == LanguagesOf(rules, text)
  {
    var section := FindSection(text, rules.languagesKeys, rules.titles);
    if section == "" {
      return [];
    }
    languages := ScanTable(section, rules.languages);
  }

  /** Each language found is a table row the section mentions, carrying
      that row's key, title-cased, and its fixed level; a row of a
      table without repeats is reported at most once. */
  lemma LanguagesFromTable(rules: BaselineRules, text: String, row: LangRow)
    ensures var section := Section(text, rules.languagesKeys, rules.titles);
      var ls := LanguagesOf(rules, text);
      section != "" ==>
        var found := FoundRows(section, rules.languages);
        |ls| == |found| &&
        multiset(found)[row] == (if MentionsWord(section, row.key) then multiset(rules.languages)[row] else 0) &&
        forall k :: 0 <= k < |ls| ==> ls[k] == LanguageOf(found[k], k)
  {
    var section := Section(text, rules.languagesKeys, rules.titles);
    if section != "" {
      FoundRowsExact(section, rules.languages, row);
    }
  }

  // =====================================================================
  // parse_cv

  /** `parse_cv` once the text is extracted: the empty record for an empty
      text, otherwise every extractor on the cleaned text. */
  function ParseCvOf(p: BaselinePatterns, rules: BaselineRules, text: String): CVFormData {
    if text == "" then EmptyCV
    else
      var c := CleanText(text);
      CVFormData(PersonalInfoOf(p, rules.excludedSites, c), ExperiencesOf(p, rules, c), EducationOf(rules, c),
                 SkillsOf(rules, c), LanguagesOf(rules, c))
  }

  /** `parse_cv` with the source's tables. */
  method ParseCv(p: BaselinePatterns, text: String) returns (cv: CVFormData)
    ensures cv == ParseCvOf(p, Rules, text)
  {
    if text == "" {
      return EmptyCV;
    }
    var rules := Rules;
    var cleaned := CleanText(text);
    var info := ExtractPersonalInfo(p, rules.excludedSites, cleaned);
    var experiences := ExtractExperiences(p, rules, cleaned);
    var education := ExtractEducation(rules, cleaned);
    var skills := ExtractSkills(rules, cleaned);
    var languages := ExtractLanguages(rules, cleaned);
    cv := CVFormData(info, experiences, education, skills, languages);
  }

  /** Because every extractor sees the cleaned one-line text, the name can
      only be the whole cleaned text and there is at most one education
      entry; an empty text gives the empty record. */
  lemma ParseCvSeesOneLine(p: BaselinePatterns, rules: BaselineRules, text: String)
    ensures text == "" ==> ParseCvOf(p, rules, text) == EmptyCV
    ensures var cv := ParseCvOf(p, rules, text);
      |cv.education| <= 1 && (cv.personalInfo.name.Some? ==> cv.personalInfo.name.value == CleanText(text))
  {
    if text != "" {
      EducationOfCleaned(rules, text);
      NameOfCleaned(p, rules.excludedSites, text);
    }
  }
}
