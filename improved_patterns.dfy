/** The regular expressions of `scripts/pdf_parser_improved.py` that are
    cheap enough to write out as recognisers.  Each one is applied, as in
    the source, to a line that has already been stripped; case-insensitive
    patterns are matched against `Lower(line)`, which keeps every position. */
module ImprovedPatterns {
  import opened Wrappers
  import opened Text

  // ---------------------------------------------------------------------
  // Building blocks

  /** The length of the whitespace run starting at `from` (`\s*`). */
  function SpaceRun(s: String, from: nat): (n: nat)
    requires from <= |s|
    ensures from + n <= |s|
    ensures from + n < |s| ==> !IsSpace(s[from + n])
    decreases |s| - from
  {
    if from < |s| && IsSpace(s[from]) then 1 + SpaceRun(s, from + 1) else 0
  }

  /** The run `SpaceRun` measures is all whitespace. */
  lemma {:induction false} SpaceRunSpaces(s: String, from: nat)
    requires from <= |s|
    ensures forall k :: from <= k < from + SpaceRun(s, from) ==> IsSpace(s[k])
    decreases |s| - from
  {
    if from < |s| && IsSpace(s[from]) {
      SpaceRunSpaces(s, from + 1);
    }
  }

  /** `a\s+b` matches at `k` (b starts with a non-space, so `\s+` is greedy). */
  predicate SpacedAt(s: String, k: nat, a: String, b: String) {
    OccursAt(s, a, k) && SpaceRun(s, k + |a|) > 0 && OccursAt(s, b, k + |a| + SpaceRun(s, k + |a|))
  }

  predicate ContainsSpaced(s: String, a: String, b: String) {
    exists k :: 0 <= k <= |s| && SpacedAt(s, k, a, b)
  }

  /** `COMPÉ?TENCES\s+<b>` at the start of a lower-cased line. */
  predicate CompetencesThen(lc: String, b: String) {
    SpacedAt(lc, 0, "compétences", b) || SpacedAt(lc, 0, "comptences", b)
  }

  // ---------------------------------------------------------------------
  // Experience section

  /** `^EXPÉRIENCES?$`, ignoring case. */
  predicate IsExperienceHeader(line: String) {
    Lower(line) == "expérience" || Lower(line) == "expériences"
  }

  /** `^PROJETS?\s+PERSONNELS?$`, ignoring case. */
  predicate IsProjectsHeader(line: String) {
    var lc := Lower(line);
    StartsWith(lc, "projet") &&
    (var a := if StartsWith(lc, "projets") then 7 else 6;
     SpaceRun(lc, a) > 0 &&
     (lc[a + SpaceRun(lc, a)..] == "personnel" || lc[a + SpaceRun(lc, a)..] == "personnels"))
  }

  /** `^(FORMATION|COMPÉ?TENCES\s+TECHNIQUES|LANGUES)`, ignoring case. */
  predicate IsExperienceBreak(line: String) {
    var lc := Lower(line);
    StartsWith(lc, "formation") || CompetencesThen(lc, "techniques") || StartsWith(lc, "langues")
  }

  /** The sub-labels that are never a position title (ignoring case). */
  const ExperienceSubLabels: seq<String> :=
    ["fonctionnalités", "technologies", "compétences", "déploiement", "certificats"]

  /** A stripped line that may title an experience or a project. */
  predicate IsCandidate(line: String) {
    line != "" && !IsDigits(line) && |line| > 5 && !StartsWithAny(Lower(line), ExperienceSubLabels)
  }

  /** `\b(20\d{2})\b` matches at `k`. */
  predicate YearAt(s: String, k: nat) {
    k + 4 <= |s| && s[k] == '2' && s[k + 1] == '0' && IsDigit(s[k + 2]) && IsDigit(s[k + 3]) &&
    (k == 0 || !IsWordChar(s[k - 1])) && (k + 4 == |s| || !IsWordChar(s[k + 4]))
  }

  /** A four-character year of this century, as the pattern captures it. */
  predicate IsYear20(y: String) {
    |y| == 4 && y[0] == '2' && y[1] == '0' && IsDigit(y[2]) && IsDigit(y[3])
  }

  function FindYearFrom(s: String, k: nat): (r: Option<String>)
    requires k <= |s|
    ensures r.Some? ==> IsYear20(r.value)
    decreases |s| - k
  {
    if YearAt(s, k) then Some(s[k..k + 4])
    else if k == |s| then None
    else FindYearFrom(s, k + 1)
  }

  /** `FindYearFrom` returns the leftmost year from `k` on, and nothing
      only when there is none. */
  lemma {:induction false} FindYearLeftmost(s: String, k: nat)
    requires k <= |s|
    ensures var r := FindYearFrom(s, k);
      r.Some? ==> exists j :: k <= j && YearAt(s, j) && r.value == s[j..j + 4] &&
                    forall i :: k <= i < j ==> !YearAt(s, i)
    ensures FindYearFrom(s, k).None? <==> forall j :: k <= j <= |s| ==> !YearAt(s, j)
    decreases |s| - k
  {
    if !YearAt(s, k) && k < |s| {
      FindYearLeftmost(s, k + 1);
    }
  }

  /** The leftmost `\b(20\d{2})\b` of a line, group 1. */
  function FindYear(s: String): (r: Option<String>)
    ensures r.Some? ==> IsYear20(r.value)
  {
    FindYearFrom(s, 0)
  }

  /** The lines that may become part of an experience description. */
  const DescriptionLabels: seq<String> := ["Fonctionnalités", "Technologies", "Compétences", "Déploiement"]

  predicate IsUpperOrSpace(c: char) { IsAsciiUpper(c) || IsSpace(c) }

  /** `^[A-Z\s]+$` (case-sensitive). */
  predicate IsCapitalsLine(s: String) {
    s != [] && forall i :: 0 <= i < |s| ==> IsUpperOrSpace(s[i])
  }

  /** `^[A-Z\s]+:?$` (case-sensitive). */
  predicate IsCapitalsHeading(s: String) {
    IsCapitalsLine(s) || (|s| >= 2 && s[|s| - 1] == ':' && IsCapitalsLine(s[..|s| - 1]))
  }

  /** `^(FORMATION|COMPÉ?TENCES|CERTIFICATS)`, ignoring case. */
  predicate StopsExperienceDescription(line: String) {
    var lc := Lower(line);
    StartsWith(lc, "formation") || StartsWith(lc, "compétences") || StartsWith(lc, "comptences") ||
    StartsWith(lc, "certificats")
  }

  // ---------------------------------------------------------------------
  // Education section

  /** `^FORMATION$`, ignoring case. */
  predicate IsFormationHeader(line: String) {
    Lower(line) == "formation"
  }

  /** `^(PROJETS|COMPÉ?TENCES|EXPÉRIENCES|CERTIFICATS)`, ignoring case. */
  predicate IsEducationStop(line: String) {
    var lc := Lower(line);
    StartsWith(lc, "projets") || StartsWith(lc, "compétences") || StartsWith(lc, "comptences") ||
    StartsWith(lc, "expériences") || StartsWith(lc, "certificats")
  }

  /** `^(PROJETS|COMPÉ?TENCES|EXPÉRIENCES)`, ignoring case. */
  predicate StopsEducationDescription(line: String) {
    var lc := Lower(line);
    StartsWith(lc, "projets") || StartsWith(lc, "compétences") || StartsWith(lc, "comptences") ||
    StartsWith(lc, "expériences")
  }

  /** The constants of the institution search that follows a date line: the
      alternatives of `INSA|université|école|institut` (lower-cased, since
      the search ignores case), the line that is skipped, and the degree
      given to an institution line without a dash. */
  datatype InstitutionRule = InstitutionRule(words: seq<String>, skip: String, degree: String)

  const Institutions := InstitutionRule(["insa", "université", "école", "institut"], "CONTACT", "Études d'ingénieur")

  /** `re.search(r'INSA|université|école|institut', line, re.IGNORECASE)`. */
  predicate NamesInstitution(line: String, rule: InstitutionRule) {
    ContainsAny(Lower(line), rule.words)
  }

  predicate IsFourDigits(s: String) {
    |s| == 4 && forall i :: 0 <= i < 4 ==> IsDigit(s[i])
  }

  predicate FourDigitsAt(s: String, k: nat) {
    k + 4 <= |s| && IsDigit(s[k]) && IsDigit(s[k + 1]) && IsDigit(s[k + 2]) && IsDigit(s[k + 3])
  }

  /** `(\d{4})\s*-\s*(\d{4}|présent)` matched at `k` of a lower-cased line:
      the two groups, the second already lower-cased. */
  function DateRangeAt(lc: String, k: nat): (r: Option<(String, String)>)
    ensures r.Some? ==> IsFourDigits(r.value.0)
    ensures r.Some? ==> r.value.1 == "présent" || IsFourDigits(r.value.1)
  {
    if !FourDigitsAt(lc, k) then None
    else
      var p := k + 4 + SpaceRun(lc, k + 4);
      if p == |lc| || lc[p] != '-' then None
      else
        var q := p + 1 + SpaceRun(lc, p + 1);
        if FourDigitsAt(lc, q) then Some((lc[k..k + 4], lc[q..q + 4]))
        else if OccursAt(lc, "présent", q) then Some((lc[k..k + 4], "présent"))
        else None
  }

  function FindDateRangeFrom(lc: String, k: nat): (r: Option<(String, String)>)
    requires k <= |lc|
    ensures r.Some? ==> IsFourDigits(r.value.0) && (r.value.1 == "présent" || IsFourDigits(r.value.1))
    decreases |lc| - k
  {
    if DateRangeAt(lc, k).Some? then DateRangeAt(lc, k)
    else if k == |lc| then None
    else FindDateRangeFrom(lc, k + 1)
  }

  /** `FindDateRangeFrom` is the leftmost match from `k` on. */
  lemma {:induction false} FindDateRangeLeftmost(lc: String, k: nat)
    requires k <= |lc|
    ensures var r := FindDateRangeFrom(lc, k);
      r.Some? ==> exists j :: k <= j <= |lc| && DateRangeAt(lc, j) == r &&
                    forall i :: k <= i < j ==> DateRangeAt(lc, i).None?
    decreases |lc| - k
  {
    var m := DateRangeAt(lc, k);
    if m.Some? {
      assert FindDateRangeFrom(lc, k) == m;
    } else if k < |lc| {
      var r := FindDateRangeFrom(lc, k + 1);
      assert FindDateRangeFrom(lc, k) == r;
      FindDateRangeLeftmost(lc, k + 1);
      if r.Some? {
        var j :| k + 1 <= j <= |lc| && DateRangeAt(lc, j) == r &&
                 forall i :: k + 1 <= i < j ==> DateRangeAt(lc, i).None?;
        assert forall i :: k <= i < j ==> DateRangeAt(lc, i).None?;
      }
    }
  }

  /** No match from `k` on means none at any position from `k` on. */
  lemma {:induction false} FindDateRangeNone(lc: String, k: nat)
    requires k <= |lc|
    requires FindDateRangeFrom(lc, k).None?
    ensures forall j :: k <= j <= |lc| ==> DateRangeAt(lc, j).None?
    decreases |lc| - k
  {
    assert DateRangeAt(lc, k).None?;
    if k < |lc| {
      assert FindDateRangeFrom(lc, k + 1).None?;
      FindDateRangeNone(lc, k + 1);
    }
  }


  /** The leftmost date range of a line, searched ignoring case. */
  function FindDateRange(line: String): (r: Option<(String, String)>)
    ensures r.Some? ==> IsFourDigits(r.value.0) && (r.value.1 == "présent" || IsFourDigits(r.value.1))
  {
    FindDateRangeFrom(Lower(line), 0)
  }

  // ---------------------------------------------------------------------
  // Languages section

  /** `COMPÉ?TENCES\s+LINGUISTIQUES?|LINGUISTIQUES\s+TRANSVERSALES|LANGUES?`,
      searched anywhere in the line, ignoring case. */
  predicate IsLanguagesHeader(line: String) {
    var lc := Lower(line);
    ContainsSpaced(lc, "compétences", "linguistique") || ContainsSpaced(lc, "comptences", "linguistique") ||
    ContainsSpaced(lc, "linguistiques", "transversales") || Contains(lc, "langue")
  }

  /** `^(FORMATION|COMPÉ?TENCES\s+TECHNIQUES|EXPÉRIENCES)`, ignoring case. */
  predicate IsLanguagesStop(line: String) {
    var lc := Lower(line);
    StartsWith(lc, "formation") || CompetencesThen(lc, "techniques") || StartsWith(lc, "expériences")
  }

  /** One of the four language patterns: `(<stem><opt>?)\s*:\s*([^(]+)`
      optionally followed by `(?:\(([^)]+)\))?` when `paren` holds. */
  datatype LangPattern = LangPattern(stem: String, optional: char, name: String, paren: bool)

  const LangPatterns: seq<LangPattern> := [
    LangPattern("françai", 's', "Français", true),
    LangPattern("anglai", 's', "Anglais", true),
    LangPattern("vietnamie", 'n', "Vietnamien", false),
    LangPattern("espagno", 'l', "Espagnol", true)
  ]

  /** The number of characters other than `c` from `from` on. */
  function RunWithout(s: String, from: nat, c: char): (n: nat)
    requires from <= |s|
    ensures from + n <= |s|
    ensures from + n < |s| ==> s[from + n] == c
    decreases |s| - from
  {
    if from < |s| && s[from] != c then 1 + RunWithout(s, from + 1, c) else 0
  }

  lemma {:induction false} RunWithoutAvoids(s: String, from: nat, c: char)
    requires from <= |s|
    ensures forall k :: from <= k < from + RunWithout(s, from, c) ==> s[k] != c
    decreases |s| - from
  {
    if from < |s| && s[from] != c {
      RunWithoutAvoids(s, from + 1, c);
    }
  }

  /** The groups 2 and 3 when the pattern matches at `k`.  `lc` is the
      lower-cased `line`; groups are cut from `line`, keeping its case.
      When nothing but an opening parenthesis (or nothing) follows the
      spaces after the colon, `[^(]+` takes back the last space. */
  function LangMatchAt(line: String, lc: String, k: nat, p: LangPattern): (r: Option<(String, Option<String>)>)
    requires lc == Lower(line)
    ensures r.Some? ==> r.value.0 != ""
    ensures r.Some? && r.value.1.Some? ==> p.paren && r.value.1.value != "" && ')' !in r.value.1.value
  {
    if !OccursAt(lc, p.stem, k) then None
    else
      var a := k + |p.stem|;
      var b := if a < |lc| && lc[a] == p.optional then a + 1 else a;
      var c := b + SpaceRun(lc, b);
      if c == |lc| || lc[c] != ':' then None
      else
        var w := SpaceRun(lc, c + 1);
        var d := c + 1 + w;
        if d == |lc| || lc[d] == '(' then
          if w == 0 then None
          else Some((line[d - 1..d], ParenGroup(line, lc, d, p)))
        else
          var e := d + RunWithout(lc, d, '(');
          Some((line[d..e], ParenGroup(line, lc, e, p)))
  }

  /** `(?:\(([^)]+)\))?` at `e`: the text inside the parentheses. */
  function ParenGroup(line: String, lc: String, e: nat, p: LangPattern): (r: Option<String>)
    requires lc == Lower(line) && e <= |lc|
    ensures r.Some? ==> p.paren && r.value != "" && ')' !in r.value
  {
    if !p.paren || e == |lc| || lc[e] != '(' then None
    else
      var n := RunWithout(lc, e + 1, ')');
      if n > 0 && e + 1 + n < |lc| then
        RunWithoutAvoids(lc, e + 1, ')');
        assert forall i :: e + 1 <= i < e + 1 + n ==> line[i] != ')' by {
          forall i | e + 1 <= i < e + 1 + n ensures line[i] != ')' {
            assert lc[i] == LowerChar(line[i]);
          }
        }
        Some(line[e + 1..e + 1 + n])
      else None
  }

  /** The match at the first position from `k` on where the pattern
      matches. */
  function FindLangFrom(line: String, lc: String, k: nat, p: LangPattern): (r: Option<(String, Option<String>)>)
    requires lc == Lower(line) && k <= |lc|
    decreases |lc| - k
  {
    if LangMatchAt(line, lc, k, p).Some? then LangMatchAt(line, lc, k, p)
    else if k == |lc| then None
    else FindLangFrom(line, lc, k + 1, p)
  }

  /** `FindLangFrom` is the leftmost match: a found match is the one at
      some position with no match before it, and no match means none at
      any position. */
  lemma {:induction false} FindLangLeftmost(line: String, lc: String, k: nat, p: LangPattern)
    requires lc == Lower(line) && k <= |lc|
    ensures var r := FindLangFrom(line, lc, k, p);
      r.Some? ==> exists j :: k <= j <= |lc| && LangMatchAt(line, lc, j, p) == r &&
                    NoLangBetween(line, lc, k, j, p)
    decreases |lc| - k
  {
    var m := LangMatchAt(line, lc, k, p);
    if m.Some? {
      assert FindLangFrom(line, lc, k, p) == m;
      assert NoLangBetween(line, lc, k, k, p);
    } else if k < |lc| {
      var r := FindLangFrom(line, lc, k + 1, p);
      assert FindLangFrom(line, lc, k, p) == r;
      FindLangLeftmost(line, lc, k + 1, p);
      if r.Some? {
        var j :| k + 1 <= j <= |lc| && LangMatchAt(line, lc, j, p) == r &&
                 NoLangBetween(line, lc, k + 1, j, p);
        forall i | k <= i < j ensures LangMatchAt(line, lc, i, p).None? {
          if i == k { assert LangMatchAt(line, lc, i, p) == m; }
        }
        assert NoLangBetween(line, lc, k, j, p);
      }
    }
  }

  /** No match at any position from `k` to before `j`. */
  predicate NoLangBetween(line: String, lc: String, k: nat, j: nat, p: LangPattern)
    requires lc == Lower(line)
  {
    forall i :: k <= i < j ==> LangMatchAt(line, lc, i, p).None?
  }

  /** No match from `k` on means none at any position from `k` on. */
  lemma {:induction false} FindLangNone(line: String, lc: String, k: nat, p: LangPattern)
    requires lc == Lower(line) && k <= |lc|
    requires FindLangFrom(line, lc, k, p).None?
    ensures forall j :: k <= j <= |lc| ==> LangMatchAt(line, lc, j, p).None?
    decreases |lc| - k
  {
    var m := LangMatchAt(line, lc, k, p);
    assert m.None?;
    if k < |lc| {
      assert FindLangFrom(line, lc, k + 1, p).None?;
      FindLangNone(line, lc, k + 1, p);
    }
    forall j | k <= j <= |lc| ensures LangMatchAt(line, lc, j, p).None? {
      if j == k { assert LangMatchAt(line, lc, j, p) == m; }
    }
  }


  /** `re.search(pattern, line, re.IGNORECASE)`: groups 2 and 3. */
  function FindLang(line: String, p: LangPattern): Option<(String, Option<String>)> {
    FindLangFrom(line, Lower(line), 0, p)
  }

  // ---------------------------------------------------------------------
  // Skills section (the line is already lower-cased)

  /** `<a>.*<b>` somewhere in a one-line text. */
  predicate ContainsThen(s: String, a: String, b: String) {
    match IndexOf(s, a)
    case None => false
    case Some(k) => Contains(s[k + |a|..], b)
  }

  /** `langages?\s*:` matches at `k`. */
  predicate LangagesColonAt(s: String, k: nat) {
    OccursAt(s, "langage", k) &&
    (var b := if k + 7 < |s| && s[k + 7] == 's' then k + 8 else k + 7;
     b + SpaceRun(s, b) < |s| && s[b + SpaceRun(s, b)] == ':')
  }

  /** `re.search(r'langages?\s*:', line)`. */
  predicate ContainsLangagesColon(s: String) {
    exists k :: 0 <= k <= |s| && LangagesColonAt(s, k)
  }

  /** `compé?tences.*technique` searched, or `^langages?\s*:`. */
  predicate IsSkillsHeader(lc: String) {
    ContainsThen(lc, "compétences", "technique") || ContainsThen(lc, "comptences", "technique") ||
    LangagesColonAt(lc, 0)
  }

  /** `^(formation|langues|expé?rience|certificats)`. */
  predicate IsSkillsStop(lc: String) {
    StartsWith(lc, "formation") || StartsWith(lc, "langues") || StartsWith(lc, "expérience") ||
    StartsWith(lc, "exprience") || StartsWith(lc, "certificats")
  }

  /** The 32 technologies the skills extractor recognises. */
  const TechKeywords: set<String> := {
    "java", "python", "javascript", "typescript", "dart", "sql", "html", "css", "c",
    "react", "angular", "vue", "next", "flutter", "spring", "hibernate",
    "docker", "kubernetes", "git", "jenkins", "supabase", "firebase",
    "apache", "camel", "bootstrap", "node", "express", "mongodb", "postgresql",
    "tailwindcss", "prisma", "stripe"
  }

  /** Every vocabulary word is lower-case ASCII, so title-casing it and
      lower-casing the result gives it back. */
  lemma TitleLowerKeyword(w: String)
    requires w in TechKeywords
    ensures Lower(TitleWord(w)) == w
  {
    KeywordsLower(w);
    TitleLowerAscii(w);
  }

  predicate AllAsciiLower(w: String) {
    forall i :: 0 <= i < |w| ==> IsAsciiLower(w[i])
  }

  /** The vocabulary is written in lower-case ASCII. */
  lemma KeywordsLower(w: String)
    requires w in TechKeywords
    ensures AllAsciiLower(w)
  {
  }

  /** Title-casing a lower-case ASCII word and lower-casing it again gives
      the word back. */
  lemma TitleLowerAscii(w: String)
    requires AllAsciiLower(w)
    ensures Lower(TitleWord(w)) == w
  {
    var t := TitleWord(w);
    forall i | 0 <= i < |w| ensures Lower(t)[i] == w[i] {
      assert IsAsciiLower(w[i]);
      if i > 0 {
        assert t[i] == w[i];
      }
    }
  }
}
