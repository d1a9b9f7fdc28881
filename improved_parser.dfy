/** `ImprovedCVParser` of `scripts/pdf_parser_improved.py`: the production
    extractor.  Each extractor is a line-scanning method; the scan it
    performs is also written as a forward-recursive function over the line
    index (the state of the flags and the list built so far), and the
    method is proved to compute exactly that function.  The properties of
    the extractors are lemmas about the functions. */
module ImprovedParser {
  import opened Wrappers
  import opened Text
  import opened CvTypes
  import opened ImprovedPatterns
  import opened Search

  datatype InfoPatterns = InfoPatterns(
    email: Finder,
    phones: seq<Finder>,        // French family, then international
    linkedin: Finder,
    github: Finder,
    deployedSite: Finder,
    locations: seq<Finder>)     // Campus / "City, France|Vietnam" / INSA, group 1

  // =====================================================================
  // Personal information

  /** An unschemed LinkedIn match gets `https://linkedin.com/` when it starts
      with `in/` and `https://www.` otherwise. */
  function NormalizeLinkedIn(u: String): (r: String)
    ensures EndsWith(r, u)
    ensures StartsWith(u, "http") <==> r == u
    ensures !StartsWith(u, "http") ==> StartsWith(r, "https://")
    ensures !StartsWith(u, "http") ==> (StartsWith(u, "in/") <==> StartsWith(r, "https://linkedin.com/"))
    ensures !StartsWith(u, "http") && StartsWith(u, "in/") ==> r == "https://linkedin.com/" + u
    ensures !StartsWith(u, "http") && !StartsWith(u, "in/") ==> r == "https://www." + u
  {
    if StartsWith(u, "http") then u
    else if StartsWith(u, "in/") then
      var r := "https://linkedin.com/" + u;
      assert r[|r| - |u|..] == u;
      r
    else
      var r := "https://www." + u;
      assert r[|r| - |u|..] == u;
      assert r[8] == 'w' && "https://linkedin.com/"[8] == 'l';
      r
  }

  /** The pattern also accepts a match that starts with `www.`; it is then
      given a second `www.`. */
  lemma LinkedInWwwDoubled(u: String)
    requires StartsWith(u, "www.")
    ensures NormalizeLinkedIn(u) == "https://www." + u
    ensures StartsWith(NormalizeLinkedIn(u), "https://www.www.")
  {
    assert u[0] == u[..4][0] == 'w';
    assert !StartsWith(u, "http") by { assert u[..4][0] != "http"[0]; }
    assert !StartsWith(u, "in/") by { assert u[..3][0] != "in/"[0]; }
    var r := "https://www." + u;
    assert r[..16] == "https://www." + u[..4];
  }

  /** A GitHub match without a scheme gets `https://`. */
  function WithHttps(u: String): (r: String)
    ensures EndsWith(r, u) && (StartsWith(u, "http") <==> r == u)
    ensures !StartsWith(u, "http") ==> StartsWith(r, "https://")
  {
    if StartsWith(u, "http") then u
    else
      var r := "https://" + u;
      assert r[|r| - |u|..] == u;
      r
  }

  /** `extract_personal_info`: the name is the stripped first line when it is
      non-empty without '@' or '+'; email is the first match; the phone
      comes from the first family that matches; website is the GitHub
      match, else the deployed-site match; location is the first location
      pattern's group, stripped. */
  function PersonalInfoOf(p: InfoPatterns, text: String): PersonalInfo {
    var first := Strip(Lines(text)[0]);
    var lm := p.linkedin(text);
    var gm := p.github(text);
    PersonalInfo(
      if first != "" && '@' !in first && '+' !in first then Some(first) else None,
      p.email(text),
      FirstMatchFrom(p.phones, text, 0),
      StripMatch(FirstMatchFrom(p.locations, text, 0)),
      if lm.Some? then Some(NormalizeLinkedIn(lm.value)) else None,
      if gm.Some? then Some(WithHttps(gm.value)) else p.deployedSite(text))
  }

  /** `extract_personal_info`, step by step as the source sets each field. */
  method ExtractPersonalInfo(p: InfoPatterns, text: String) returns (info: PersonalInfo)
    ensures info == PersonalInfoOf(p, text)
    ensures var first := Strip(Lines(text)[0]);
      info.name == (if first != "" && '@' !in first && '+' !in first then Some(first) else None)
    ensures info.email == p.email(text)
    ensures info.phone == FirstMatchFrom(p.phones, text, 0)
    ensures info.linkedin.Some? <==> p.linkedin(text).Some?
    ensures info.linkedin.Some? ==> info.linkedin.value == NormalizeLinkedIn(p.linkedin(text).value)
    ensures p.github(text).Some? ==> info.website == Some(WithHttps(p.github(text).value))
    ensures p.github(text).None? ==> info.website == p.deployedSite(text)
    ensures info.location == StripMatch(FirstMatchFrom(p.locations, text, 0))
  {
    var lines := Lines(text);
    var name: Option<String> := None;
    var first := Strip(lines[0]);
    if first != "" && '@' !in first && '+' !in first {
      name := Some(first);
    }
    var email := p.email(text);

    var phone := FirstMatch(p.phones, text);

    var linkedin: Option<String> := None;
    var lm := p.linkedin(text);
    if lm.Some? {
      linkedin := Some(NormalizeLinkedIn(lm.value));
    }

    var website: Option<String> := None;
    var gm := p.github(text);
    if gm.Some? {
      website := Some(WithHttps(gm.value));
    }
    if website.None? {
      website := p.deployedSite(text);
    }

    var rawLocation := FirstMatch(p.locations, text);
    var location := StripMatch(rawLocation);
    info := PersonalInfo(name, email, phone, location, linkedin, website);
  }

  // =====================================================================
  // Experiences

  /** The look-ahead window of a candidate at `i`: the raw lines i+1 .. i+7. */
  function Window(lines: seq<String>, i: nat): (w: seq<String>)
    ensures |w| <= 7
  {
    Slice(lines, i + 1, i + 8)
  }

  method CollectNextLines(lines: seq<String>, i: nat) returns (next: seq<String>)
    requires i < |lines|
    ensures next == NonBlank(Window(lines, i))
  {
    var hi := Min(i + 8, |lines|);
    next := [];
    var j := i + 1;
    while j < hi
      invariant i + 1 <= j <= hi
      invariant next == NonBlank(lines[i + 1..j])
    {
      ghost var seen := lines[i + 1..j];
      assert lines[i + 1..j + 1] == seen + [lines[j]];
      NonBlankSnoc(seen, lines[j]);
      var s := Strip(lines[j]);
      if s != "" {
        next := next + [s];
      }
      j := j + 1;
    }
    if j == i + 1 {
      assert Window(lines, i) == [] == lines[i + 1..j];
    } else {
      assert Window(lines, i) == lines[i + 1..j];
    }
  }

  /** The year of the first line of `ls[j..]` that has one. */
  function FirstYearFrom(ls: seq<String>, j: nat): (r: Option<String>)
    requires j <= |ls|
    ensures r.Some? ==> IsYear20(r.value)
    decreases |ls| - j
  {
    if j == |ls| then None
    else if FindYear(ls[j]).Some? then FindYear(ls[j])
    else FirstYearFrom(ls, j + 1)
  }

  method FindFirstYear(ls: seq<String>) returns (year: Option<String>)
    ensures year == FirstYearFrom(ls, 0)
  {
    year := None;
    var j := 0;
    while j < |ls|
      invariant j <= |ls|
      invariant FirstYearFrom(ls, j) == FirstYearFrom(ls, 0)
    {
      var m := FindYear(ls[j]);
      if m.Some? {
        year := m;
        return;
      }
      j := j + 1;
    }
  }

  /** The 'projet' fallback: after a line mentioning 'projet' that is not
      the last one, search the lines that follow it. */
  function FallbackFrom(ls: seq<String>, j: nat): Option<String>
    requires j <= |ls|
    decreases |ls| - j
  {
    if j == |ls| then None
    else if Contains(Lower(ls[j]), "projet") && j < |ls| - 1 then
      match FirstYearFrom(ls[j + 1..], 0)
      case Some(y) => Some(y)
      case None => FallbackFrom(ls, j + 1)
    else FallbackFrom(ls, j + 1)
  }

  method FallbackYear(ls: seq<String>) returns (year: Option<String>)
    ensures year == FallbackFrom(ls, 0)
  {
    year := None;
    var j := 0;
    while j < |ls|
      invariant j <= |ls|
      invariant FallbackFrom(ls, j) == FallbackFrom(ls, 0)
    {
      if Contains(Lower(ls[j]), "projet") && j < |ls| - 1 {
        var found := FindFirstYear(ls[j + 1..]);
        if found.Some? {
          year := found;
          return;
        }
      }
      j := j + 1;
    }
  }

  lemma {:induction false} NoYearFrom(ls: seq<String>, j: nat)
    requires j <= |ls|
    ensures FirstYearFrom(ls, j).None? <==> forall k :: j <= k < |ls| ==> FindYear(ls[k]).None?
    decreases |ls| - j
  {
    if j < |ls| {
      NoYearFrom(ls, j + 1);
    }
  }

  lemma {:induction false} FallbackAfterNoYear(ls: seq<String>, j: nat)
    requires j <= |ls|
    requires forall k :: 0 <= k < |ls| ==> FindYear(ls[k]).None?
    ensures FallbackFrom(ls, j).None?
    decreases |ls| - j
  {
    if j < |ls| {
      if Contains(Lower(ls[j]), "projet") && j < |ls| - 1 {
        var rest := ls[j + 1..];
        assert forall k :: 0 <= k < |rest| ==> rest[k] == ls[j + 1 + k];
        NoYearFrom(rest, 0);
      }
      FallbackAfterNoYear(ls, j + 1);
    }
  }

  /** The fallback only searches suffixes of the lines the first search has
      already scanned, so it never finds a year the first search missed. */
  lemma FallbackFindsNothingNew(ls: seq<String>)
    requires FirstYearFrom(ls, 0).None?
    ensures FallbackFrom(ls, 0).None?
  {
    NoYearFrom(ls, 0);
    FallbackAfterNoYear(ls, 0);
  }

  /** Company and location from the first look-ahead line that mentions
      'projet' or holds a '-': split at every '-', pieces 0 and 1. */
  function CompanyFrom(ls: seq<String>, j: nat): (r: (String, String))
    requires j <= |ls|
    ensures '-' !in r.1
    ensures r != ("", "") ==> exists k :: j <= k < |ls| && (Contains(Lower(ls[k]), "projet") || '-' in ls[k])
    decreases |ls| - j
  {
    if j == |ls| then ("", "")
    else
      var l := ls[j];
      if Contains(Lower(l), "projet") || '-' in l then
        if '-' in l then
          var parts := SplitSeq(l, "-");
          SplitPiecesAvoid(l, '-');
          StripChars(if |parts| > 1 then parts[1] else "");
          (Strip(parts[0]), if |parts| > 1 then Strip(parts[1]) else "")
        else (l, "")
      else CompanyFrom(ls, j + 1)
  }

  method ExtractCompany(ls: seq<String>) returns (company: String, location: String)
    ensures (company, location) == CompanyFrom(ls, 0)
  {
    company, location := "", "";
    var j := 0;
    while j < |ls|
      invariant j <= |ls|
      invariant CompanyFrom(ls, j) == CompanyFrom(ls, 0)
    {
      var l := ls[j];
      if Contains(Lower(l), "projet") || '-' in l {
        if '-' in l {
          var parts := SplitSeq(l, "-");
          company := Strip(parts[0]);
          if |parts| > 1 {
            location := Strip(parts[1]);
          }
        } else {
          company := l;
        }
        return;
      }
      j := j + 1;
    }
  }

  /** What a description loop does with one stripped line. */
  datatype DescLine = DescSkip | DescStop | DescKeep

  /** Experience descriptions: blank and all-capitals lines are skipped, a
      FORMATION/COMPÉTENCES/CERTIFICATS line ends the description, and only
      lines starting with one of the four labels are kept. */
  function ExpDescLine(d: String): DescLine {
    if d == "" || IsCapitalsLine(d) then DescSkip
    else if StopsExperienceDescription(d) then DescStop
    else if StartsWithAny(d, DescriptionLabels) then DescKeep
    else DescSkip
  }

  /** The description lines from `j` up to `hi` as `classify` sorts them:
      a kept line is added stripped, a stop line ends the description.
      Experiences use `ExpDescLine` on lines i+2 .. i+9, education entries
      `EduDescLine` on lines i+2 .. i+7. */
  function DescFrom(lines: seq<String>, j: nat, hi: nat, acc: seq<String>, classify: String -> DescLine): (r: seq<String>)
    requires j <= hi <= |lines|
    ensures acc <= r && |r| <= |acc| + (hi - j)
    decreases hi - j
  {
    if j == hi then acc
    else
      var d := Strip(lines[j]);
      match classify(d)
      case DescStop => acc
      case DescKeep => DescFrom(lines, j + 1, hi, acc + [d], classify)
      case DescSkip => DescFrom(lines, j + 1, hi, acc, classify)
  }

  function ExpDescription(lines: seq<String>, i: nat): seq<String>
    requires i < |lines|
  {
    var hi := Min(i + 10, |lines|);
    DescFrom(lines, Min(i + 2, hi), hi, [], ExpDescLine)
  }

  method CollectExpDescription(lines: seq<String>, i: nat) returns (parts: seq<String>)
    requires i < |lines|
    ensures parts == ExpDescription(lines, i)
  {
    var hi := Min(i + 10, |lines|);
    parts := CollectDescFrom(lines, Min(i + 2, hi), hi, ExpDescLine);
  }

  /** The loop over lines j .. hi-1 of a description, shared by the
      experience and education extractors. */
  method CollectDescFrom(lines: seq<String>, j0: nat, hi: nat, classify: String -> DescLine) returns (parts: seq<String>)
    requires j0 <= hi <= |lines|
    ensures parts == DescFrom(lines, j0, hi, [], classify)
  {
    var j := j0;
    parts := [];
    while j < hi
      invariant j <= hi
      invariant DescFrom(lines, j, hi, parts, classify) == DescFrom(lines, j0, hi, [], classify)
    {
      var d := Strip(lines[j]);
      var kind := classify(d);
      if kind == DescStop {
        return;
      } else if kind == DescKeep {
        parts := parts + [d];
      }
      j := j + 1;
    }
  }

  /** The record the source builds for a candidate line with a year. */
  function MakeExperience(line: String, year: String, company: String, location: String,
                          parts: seq<String>, ordinal: nat): (e: Experience)
    ensures e.id == Some(HashId("exp", line + company, ordinal))
    ensures e.company.Some? && e.company.value != ""
    ensures company != "" ==> e.company == Some(company)
    ensures e.endDate == Some("") && e.isCurrentPosition == Some(false)
  {
    Experience(Some(HashId("exp", line + company, ordinal)),
               Some(if company == "" then "Projet personnel" else company),
               Some(line), Some(location), Some(year), Some(""), Some(Join(parts, " ")), Some(false))
  }

  /** The entry a candidate line at `i` gives, if a year is found. */
  function ExperienceAt(lines: seq<String>, i: nat, ordinal: nat): Option<Experience>
    requires i < |lines|
  {
    var line := Strip(lines[i]);
    var next := NonBlank(Window(lines, i));
    var year := if FirstYearFrom(next, 0).Some? then FirstYearFrom(next, 0) else FallbackFrom(next, 0);
    if year.None? then None
    else
      var company := CompanyFrom(next, 0);
      Some(MakeExperience(line, year.value, company.0, company.1, ExpDescription(lines, i), ordinal))
  }

  /** How `extract_experiences` treats a stripped line, checked in the
      source's order; `active` is whether an experience or projects section
      is open. */
  datatype ExpLine = ExpBlank | ExpHeader | ProjHeader | ExpBreak | ExpCandidate | ExpOther

  function ExpLineKind(line: String, active: bool): ExpLine {
    if line == "" then ExpBlank
    else if IsExperienceHeader(line) then ExpHeader
    else if IsProjectsHeader(line) then ProjHeader
    else if IsExperienceBreak(line) then ExpBreak
    else if active && IsCandidate(line) then ExpCandidate
    else ExpOther
  }

  /** One round of the loop of `extract_experiences` on line `i`: the
      headers set the flags, a stop line clears them, and a candidate line
      inside a section may add an entry. */
  function ExpStep(lines: seq<String>, i: nat, inExp: bool, inProj: bool, acc: seq<Experience>): (r: (bool, bool, seq<Experience>))
    requires i < |lines|
    ensures r.2 == acc ||
      (ExpLineKind(Strip(lines[i]), inExp || inProj) == ExpCandidate && (inExp || inProj) &&
       ExperienceAt(lines, i, |acc|).Some? && r.2 == acc + [ExperienceAt(lines, i, |acc|).value])
  {
    match ExpLineKind(Strip(lines[i]), inExp || inProj)
    case ExpHeader => (true, false, acc)
    case ProjHeader => (false, true, acc)
    case ExpBreak => (false, false, acc)
    case ExpCandidate =>
      (match ExperienceAt(lines, i, |acc|)
       case None => (inExp, inProj, acc)
       case Some(e) => (inExp, inProj, acc + [e]))
    case _ => (inExp, inProj, acc)
  }

  /** The scan of `extract_experiences` from line `i`, with the two flags
      and the entries found so far. */
  function ExpScan(lines: seq<String>, i: nat, inExp: bool, inProj: bool, acc: seq<Experience>): seq<Experience>
    requires i <= |lines|
    decreases |lines| - i
  {
    if i == |lines| then acc
    else
      var st := ExpStep(lines, i, inExp, inProj, acc);
      ExpScan(lines, i + 1, st.0, st.1, st.2)
  }

  function Experiences(text: String): seq<Experience> {
    ExpScan(Lines(text), 0, false, false, [])
  }

  method ExtractExperiences(text: String) returns (experiences: seq<Experience>)
    ensures experiences == Experiences(text)
  {
    var lines := Lines(text);
    var inExp, inProj := false, false;
    experiences := [];
    var i := 0;
    ghost var target := ExpScan(lines, i, inExp, inProj, experiences);
    while i < |lines|
      invariant i <= |lines|
      invariant ExpScan(lines, i, inExp, inProj, experiences) == target
    {
      inExp, inProj, experiences := ExpRound(lines, i, inExp, inProj, experiences);
      i := i + 1;
    }
  }

  /** One round of the loop of `extract_experiences`, on line `i`: the
      headers set the flags, a stop line clears them, and a candidate line
      inside a section may add an entry. */
  method ExpRound(lines: seq<String>, i: nat, inExp: bool, inProj: bool, acc: seq<Experience>)
    returns (inExp': bool, inProj': bool, acc': seq<Experience>)
    requires i < |lines|
    ensures (inExp', inProj', acc') == ExpStep(lines, i, inExp, inProj, acc)
  {
    inExp', inProj', acc' := inExp, inProj, acc;
    var line := Strip(lines[i]);
    var kind := ExpLineKind(line, inExp || inProj);
    if kind == ExpHeader {
      inExp', inProj' := true, false;
    } else if kind == ProjHeader {
      inExp', inProj' := false, true;
    } else if kind == ExpBreak {
      inExp', inProj' := false, false;
    } else if kind == ExpCandidate {
      var e := ExperienceAtLine(lines, i, |acc|);
      if e.Some? {
        acc' := acc + [e.value];
      }
    }
  }

  /** The body of the loop for a candidate line: the look-ahead, the year
      with its fallback, the company and the description. */
  method ExperienceAtLine(lines: seq<String>, i: nat, ordinal: nat) returns (e: Option<Experience>)
    requires i < |lines|
    ensures e == ExperienceAt(lines, i, ordinal)
  {
    var line := Strip(lines[i]);
    var next := CollectNextLines(lines, i);
    var year := FindFirstYear(next);
    if year.None? {
      year := FallbackYear(next);
    }
    if year.None? {
      return None;
    }
    var company, location := ExtractCompany(next);
    var parts := CollectExpDescription(lines, i);
    e := Some(MakeExperience(line, year.value, company, location, parts, ordinal));
  }

  /** What every experience entry satisfies, `k` being its index. */
  predicate ExperienceOk(e: Experience, k: nat) {
    e.id.Some? && e.id.value.HashId? && e.id.value.prefix == "exp" && e.id.value.ordinal == k &&
    e.position.Some? && IsCandidate(e.position.value) &&
    !IsExperienceHeader(e.position.value) && !IsProjectsHeader(e.position.value) &&
    !IsExperienceBreak(e.position.value) &&
    e.startDate.Some? && IsYear20(e.startDate.value) &&
    e.endDate == Some("") && e.isCurrentPosition == Some(false) &&
    e.company.Some? && e.company.value != "" &&
    e.description.Some? && e.location.Some?
  }

  predicate ExperiencesOk(es: seq<Experience>) {
    forall k :: 0 <= k < |es| ==> ExperienceOk(es[k], k)
  }

  lemma {:induction false} ExpScanOk(lines: seq<String>, i: nat, inExp: bool, inProj: bool, acc: seq<Experience>)
    requires i <= |lines|
    requires ExperiencesOk(acc)
    ensures acc <= ExpScan(lines, i, inExp, inProj, acc) && ExperiencesOk(ExpScan(lines, i, inExp, inProj, acc))
    decreases |lines| - i
  {
    if i < |lines| {
      var st := ExpStep(lines, i, inExp, inProj, acc);
      ExpStepOk(lines, i, inExp, inProj, acc);
      ExpScanOk(lines, i + 1, st.0, st.1, st.2);
    }
  }

  /** One round only appends, and only well-formed entries. */
  lemma ExpStepOk(lines: seq<String>, i: nat, inExp: bool, inProj: bool, acc: seq<Experience>)
    requires i < |lines|
    requires ExperiencesOk(acc)
    ensures var st := ExpStep(lines, i, inExp, inProj, acc);
      acc <= st.2 && ExperiencesOk(st.2)
  {
    var st := ExpStep(lines, i, inExp, inProj, acc);
    if st.2 != acc {
      ExperienceAtOk(lines, i, |acc|);
      ExperiencesOkSnoc(acc, ExperienceAt(lines, i, |acc|).value);
    }
  }

  /** An entry built from a candidate line is well formed. */
  lemma ExperienceAtOk(lines: seq<String>, i: nat, ordinal: nat)
    requires i < |lines|
    requires ExpLineKind(Strip(lines[i]), true) == ExpCandidate
    requires ExperienceAt(lines, i, ordinal).Some?
    ensures ExperienceOk(ExperienceAt(lines, i, ordinal).value, ordinal)
  {
    var next := NonBlank(Window(lines, i));
    if FirstYearFrom(next, 0).None? {
      FallbackFindsNothingNew(next);
    }
  }

  lemma ExperiencesOkSnoc(acc: seq<Experience>, e: Experience)
    requires ExperiencesOk(acc) && ExperienceOk(e, |acc|)
    ensures ExperiencesOk(acc + [e])
  {
    assert forall k :: 0 <= k < |acc| ==> (acc + [e])[k] == acc[k];
  }

  /** Every entry is built from a candidate line with a found year: the
      year is its start date, its end date is empty, it is not current, it
      has a company, and its id carries its index. */
  lemma ExperienceEntriesOk(text: String)
    ensures ExperiencesOk(Experiences(text))
  {
    ExpScanOk(Lines(text), 0, false, false, []);
  }

  lemma {:induction false} ExpScanClosed(lines: seq<String>, i: nat, acc: seq<Experience>)
    requires i <= |lines|
    requires forall k :: i <= k < |lines| ==> !IsExperienceHeader(Strip(lines[k])) && !IsProjectsHeader(Strip(lines[k]))
    ensures ExpScan(lines, i, false, false, acc) == acc
    decreases |lines| - i
  {
    if i < |lines| {
      var line := Strip(lines[i]);
      assert !IsExperienceHeader(line) && !IsProjectsHeader(line);
      assert ExpStep(lines, i, false, false, acc) == (false, false, acc);
      ExpScanClosed(lines, i + 1, acc);
    }
  }

  /** Lines outside an EXPÉRIENCE(S) or PROJETS PERSONNELS section are
      ignored: without such a header there is no entry. */
  lemma NoHeaderNoExperience(text: String)
    requires forall k :: 0 <= k < |Lines(text)| ==>
      !IsExperienceHeader(Strip(Lines(text)[k])) && !IsProjectsHeader(Strip(Lines(text)[k]))
    ensures Experiences(text) == []
  {
    ExpScanClosed(Lines(text), 0, []);
  }

  // =====================================================================
  // Education

  /** A following line that names an institution (INSA, université, école,
      institut), split once at its first '-' into institution and degree;
      without a dash the whole line is the institution. */
  function InstitutionLine(l: String, rule: InstitutionRule): Option<(String, String)> {
    if l == "" || l == rule.skip || !NamesInstitution(l, rule) then None
    else
      match IndexOf(l, "-")
      case Some(k) => Some((Strip(l[..k]), Strip(l[k + 1..])))
      case None => Some((l, rule.degree))
  }

  /** Institution and degree from lines j .. hi-1: the first line naming an
      institution, or two empty strings. */
  function InstitutionFrom(lines: seq<String>, j: nat, hi: nat, rule: InstitutionRule): (String, String)
    requires j <= hi <= |lines|
    decreases hi - j
  {
    if j == hi then ("", "")
    else
      match InstitutionLine(Strip(lines[j]), rule)
      case Some(found) => found
      case None => InstitutionFrom(lines, j + 1, hi, rule)
  }

  /** With no line of the window naming an institution, both are empty. */
  lemma {:induction false} InstitutionNone(lines: seq<String>, j: nat, hi: nat, rule: InstitutionRule)
    requires j <= hi <= |lines|
    requires forall k :: j <= k < hi ==> InstitutionLine(Strip(lines[k]), rule).None?
    ensures InstitutionFrom(lines, j, hi, rule) == ("", "")
    decreases hi - j
  {
    if j < hi {
      assert InstitutionLine(Strip(lines[j]), rule).None?;
      InstitutionNone(lines, j + 1, hi, rule);
    }
  }

  /** The institution comes from the first line of the window that names
      one. */
  lemma {:induction false} InstitutionFirst(lines: seq<String>, j: nat, hi: nat, rule: InstitutionRule, k: nat)
    requires j <= k < hi <= |lines|
    requires InstitutionLine(Strip(lines[k]), rule).Some?
    requires forall m :: j <= m < k ==> InstitutionLine(Strip(lines[m]), rule).None?
    ensures InstitutionFrom(lines, j, hi, rule) == InstitutionLine(Strip(lines[k]), rule).value
    decreases k - j
  {
    if j < k {
      assert InstitutionLine(Strip(lines[j]), rule).None?;
      InstitutionFirst(lines, j + 1, hi, rule, k);
    }
  }

  method FindInstitution(lines: seq<String>, i: nat) returns (institution: String, degree: String)
    requires i < |lines|
    ensures (institution, degree) == InstitutionFrom(lines, i + 1, Min(i + 6, |lines|), Institutions)
  {
    var hi := Min(i + 6, |lines|);
    institution, degree := FindInstitutionFrom(lines, i + 1, hi, Institutions);
  }

  /** `for j in range(j0, hi): ... break` over the following lines. */
  method FindInstitutionFrom(lines: seq<String>, j0: nat, hi: nat, rule: InstitutionRule)
    returns (institution: String, degree: String)
    requires j0 <= hi <= |lines|
    ensures (institution, degree) == InstitutionFrom(lines, j0, hi, rule)
  {
    institution, degree := "", "";
    var j := j0;
    while j < hi
      invariant j0 <= j <= hi
      invariant InstitutionFrom(lines, j, hi, rule) == InstitutionFrom(lines, j0, hi, rule)
    {
      var found := InstitutionLine(Strip(lines[j]), rule);
      if found.Some? {
        institution, degree := found.value.0, found.value.1;
        return;
      }
      j := j + 1;
    }
  }

  /** The description lines of a date line at `i`: up to a PROJETS,
      COMPÉTENCES or EXPÉRIENCES line, skipping blank and capitals lines. */
  function EduDescLine(d: String): DescLine {
    if d == "" || IsCapitalsHeading(d) then DescSkip
    else if StopsEducationDescription(d) then DescStop
    else DescKeep
  }

  function EduDescription(lines: seq<String>, i: nat): seq<String>
    requires i < |lines|
  {
    var hi := Min(i + 8, |lines|);
    DescFrom(lines, Min(i + 2, hi), hi, [], EduDescLine)
  }

  method CollectEduDescription(lines: seq<String>, i: nat) returns (parts: seq<String>)
    requires i < |lines|
    ensures parts == EduDescription(lines, i)
  {
    var hi := Min(i + 8, |lines|);
    parts := CollectDescFrom(lines, Min(i + 2, hi), hi, EduDescLine);
  }

  /** The record built for a date line: defaults for a missing degree or
      institution, the fixed field, an empty end date for 'présent', and at
      most three description lines. */
  function MakeEducation(start: String, endToken: String, institution: String, degree: String,
                         parts: seq<String>, ordinal: nat): (e: Education)
    requires endToken == "présent" || IsFourDigits(endToken)
    ensures e.id == Some(HashId("edu", degree + institution, ordinal))
    ensures e.degree.Some? && e.degree.value != "" && e.institution.Some? && e.institution.value != ""
    ensures degree != "" ==> e.degree == Some(degree)
    ensures institution != "" ==> e.institution == Some(institution)
    ensures e.field == Some("Informatique") && e.startDate == Some(start)
    ensures e.endDate == Some("") <==> endToken == "présent"
    ensures endToken != "présent" ==> e.endDate == Some(endToken)
    ensures |parts| <= 3 ==> e.description == Some(Join(parts, " "))
    ensures |parts| > 3 ==> e.description == Some(Join(parts[..3], " "))
  {
    var n := Min(3, |parts|);
    assert |parts| <= 3 ==> parts[..n] == parts;
    Education(Some(HashId("edu", degree + institution, ordinal)),
              Some(if institution == "" then "INSA Toulouse" else institution),
              Some(if degree == "" then "Formation en cours" else degree),
              Some("Informatique"), Some(start),
              Some(if endToken == "présent" then "" else endToken),
              Some(Join(parts[..n], " ")))
  }

  function EducationAt(lines: seq<String>, i: nat, ordinal: nat): Option<Education>
    requires i < |lines|
  {
    match FindDateRange(Strip(lines[i]))
    case None => None
    case Some(dates) =>
      var inst := InstitutionFrom(lines, i + 1, Min(i + 6, |lines|), Institutions);
      Some(MakeEducation(dates.0, dates.1, inst.0, inst.1, EduDescription(lines, i), ordinal))
  }

  /** How `extract_education` treats a stripped line, in the source's
      order of tests. */
  datatype EduLine = EduSkip | EduHeader | EduStop | EduEntry

  function EduLineKind(line: String, inSection: bool): EduLine {
    if line == "" then EduSkip
    else if IsFormationHeader(line) then EduHeader
    else if inSection && IsEducationStop(line) then EduStop
    else if inSection then EduEntry
    else EduSkip
  }

  /** The scan of `extract_education` from line `i`. */
  function EduScan(lines: seq<String>, i: nat, inSection: bool, acc: seq<Education>): seq<Education>
    requires i <= |lines|
    decreases |lines| - i
  {
    if i == |lines| then acc
    else
      match EduLineKind(Strip(lines[i]), inSection)
      case EduSkip => EduScan(lines, i + 1, inSection, acc)
      case EduHeader => EduScan(lines, i + 1, true, acc)
      case EduStop => acc
      case EduEntry =>
        match EducationAt(lines, i, |acc|)
        case None => EduScan(lines, i + 1, inSection, acc)
        case Some(e) => EduScan(lines, i + 1, inSection, acc + [e])
  }

  function EducationOf(text: String): seq<Education> {
    EduScan(Lines(text), 0, false, [])
  }

  method ExtractEducation(text: String) returns (education: seq<Education>)
    ensures education == EducationOf(text)
  {
    var lines := Lines(text);
    var inSection := false;
    education := [];
    var i := 0;
    ghost var target := EduScan(lines, i, inSection, education);
    while i < |lines|
      invariant i <= |lines|
      invariant EduScan(lines, i, inSection, education) == target
    {
      var stop;
      stop, inSection, education := EduRound(lines, i, inSection, education);
      if stop {
        return;
      }
      i := i + 1;
    }
  }

  /** One round of the loop of `extract_education`, on line `i`: the
      FORMATION header opens the section, a stop line inside it ends the
      scan (`stop`), and any other line of the section may add an entry. */
  method EduRound(lines: seq<String>, i: nat, inSection: bool, acc: seq<Education>)
    returns (stop: bool, inSection': bool, acc': seq<Education>)
    requires i < |lines|
    ensures stop ==> acc' == EduScan(lines, i, inSection, acc)
    ensures !stop ==> EduScan(lines, i + 1, inSection', acc') == EduScan(lines, i, inSection, acc)
  {
    inSection', acc' := inSection, acc;
    var kind := EduLineKind(Strip(lines[i]), inSection);
    stop := kind == EduStop;
    if kind == EduHeader {
      inSection' := true;
    } else if kind == EduEntry {
      var e := EducationAtLine(lines, i, |acc|);
      if e.Some? {
        acc' := acc + [e.value];
      }
    }
  }

  /** The body of the loop for a line of the section: the date range, then
      the institution and the description. */
  method EducationAtLine(lines: seq<String>, i: nat, ordinal: nat) returns (e: Option<Education>)
    requires i < |lines|
    ensures e == EducationAt(lines, i, ordinal)
  {
    var dates := FindDateRange(Strip(lines[i]));
    if dates.None? {
      return None;
    }
    var institution, degree := FindInstitution(lines, i);
    var parts := CollectEduDescription(lines, i);
    e := Some(MakeEducation(dates.value.0, dates.value.1, institution, degree, parts, ordinal));
  }

  predicate EducationOk(e: Education, k: nat) {
    e.id.Some? && e.id.value.HashId? && e.id.value.prefix == "edu" && e.id.value.ordinal == k &&
    e.field == Some("Informatique") &&
    e.degree.Some? && e.degree.value != "" && e.institution.Some? && e.institution.value != "" &&
    e.startDate.Some? && IsFourDigits(e.startDate.value) &&
    e.endDate.Some? && (e.endDate.value == "" || IsFourDigits(e.endDate.value))
  }

  predicate EducationsOk(es: seq<Education>) {
    forall k :: 0 <= k < |es| ==> EducationOk(es[k], k)
  }

  lemma {:induction false} EduScanOk(lines: seq<String>, i: nat, inSection: bool, acc: seq<Education>)
    requires i <= |lines|
    requires EducationsOk(acc)
    ensures acc <= EduScan(lines, i, inSection, acc) && EducationsOk(EduScan(lines, i, inSection, acc))
    decreases |lines| - i
  {
    if i < |lines| {
      match EduLineKind(Strip(lines[i]), inSection)
      case EduSkip => EduScanOk(lines, i + 1, inSection, acc);
      case EduHeader => EduScanOk(lines, i + 1, true, acc);
      case EduStop =>
      case EduEntry =>
        match EducationAt(lines, i, |acc|)
        case None =>
          EduScanOk(lines, i + 1, inSection, acc);
        case Some(e) =>
          assert EducationOk(e, |acc|);
          EduScanOk(lines, i + 1, inSection, acc + [e]);
    }
  }

  /** Every education entry has the fixed field, a four-digit start year,
      an end date that is empty or four digits, and non-empty degree and
      institution. */
  lemma EducationEntriesOk(text: String)
    ensures EducationsOk(EducationOf(text))
  {
    EduScanOk(Lines(text), 0, false, []);
  }

  lemma {:induction false} EduScanClosed(lines: seq<String>, i: nat, acc: seq<Education>)
    requires i <= |lines|
    requires forall k :: i <= k < |lines| ==> !IsFormationHeader(Strip(lines[k]))
    ensures EduScan(lines, i, false, acc) == acc
    decreases |lines| - i
  {
    if i < |lines| {
      EduScanClosed(lines, i + 1, acc);
    }
  }

  /** The scan only starts after a line that is exactly FORMATION. */
  lemma NoFormationNoEducation(text: String)
    requires forall k :: 0 <= k < |Lines(text)| ==> !IsFormationHeader(Strip(Lines(text)[k]))
    ensures EducationOf(text) == []
  {
    EduScanClosed(Lines(text), 0, []);
  }

  // =====================================================================
  // Languages

  /** The level of a matched language line: parenthesised text first, then
      natale/native, then courant (B2, C2 or C1 by what the line says),
      otherwise B1. */
  function LevelOf(paren: Option<String>, group2: String, line: String): (level: String)
    ensures paren.Some? && paren.value != "" ==> level == Strip(paren.value)
    ensures (paren.None? || paren.value == "") ==> level in {"native", "B2", "C2", "C1", "B1"}
    ensures (paren.None? || paren.value == "") && level == "native" ==>
              Contains(Lower(Strip(group2)), "natale") || Contains(Lower(Strip(group2)), "native")
    ensures (paren.None? || paren.value == "") && level in {"B2", "C2", "C1"} ==>
              Contains(Lower(Strip(group2)), "courant")
    ensures (paren.None? || paren.value == "") && level == "B2" ==> Contains(Lower(line), "b2")
  {
    var levelText := Lower(Strip(group2));
    if paren.Some? && paren.value != "" then Strip(paren.value)
    else if Contains(levelText, "natale") || Contains(levelText, "native") then "native"
    else if Contains(levelText, "courant") then
      if Contains(Lower(line), "b2") then "B2"
      else if Contains(Lower(line), "c2") then "C2"
      else "C1"
    else "B1"
  }

  /** The entry a matched pattern adds: the pattern's language name, the
      level from the groups, the id from the name and the entry's index. */
  function LanguageEntry(p: LangPattern, groups: (String, Option<String>), line: String, ordinal: nat): Language {
    Language(Some(HashId("lang", p.name, ordinal)), Some(p.name), Some(LevelOf(groups.1, groups.0, line)))
  }

  /** Every pattern of `ps[k..]` is tried on a line, each adding one entry
      when it matches.  The source's patterns are `LangPatterns`; the scan
      takes them as a parameter so that its proofs do not depend on them. */
  function LangLineFrom(line: String, ps: seq<LangPattern>, k: nat, acc: seq<Language>): (r: seq<Language>)
    requires k <= |ps|
    ensures acc <= r && |r| <= |acc| + (|ps| - k)
    decreases |ps| - k
  {
    if k == |ps| then acc
    else
      match FindLang(line, ps[k])
      case None => LangLineFrom(line, ps, k + 1, acc)
      case Some(groups) => LangLineFrom(line, ps, k + 1, acc + [LanguageEntry(ps[k], groups, line, |acc|)])
  }

  method MatchLanguages(line: String, ps: seq<LangPattern>, languages: seq<Language>) returns (r: seq<Language>)
    ensures r == LangLineFrom(line, ps, 0, languages)
  {
    r := languages;
    var k := 0;
    while k < |ps|
      invariant k <= |ps|
      invariant LangLineFrom(line, ps, k, r) == LangLineFrom(line, ps, 0, languages)
    {
      var m := FindLang(line, ps[k]);
      if m.Some? {
        r := r + [LanguageEntry(ps[k], m.value, line, |r|)];
      }
      k := k + 1;
    }
  }

  /** How `extract_languages` treats a stripped line: the header test runs
      on every line first, then the stop test, then the patterns. */
  datatype LangLine = LangSkip | LangHeader | LangStop | LangEntry

  function LangLineKind(line: String, inSection: bool): LangLine {
    if IsLanguagesHeader(line) then LangHeader
    else if inSection && IsLanguagesStop(line) then LangStop
    else if inSection && line != "" then LangEntry
    else LangSkip
  }

  /** The scan of `extract_languages` from line `i`. */
  function LangScan(lines: seq<String>, ps: seq<LangPattern>, i: nat, inSection: bool, acc: seq<Language>): seq<Language>
    requires i <= |lines|
    decreases |lines| - i
  {
    if i == |lines| then acc
    else
      var line := Strip(lines[i]);
      match LangLineKind(line, inSection)
      case LangHeader => LangScan(lines, ps, i + 1, true, acc)
      case LangStop => acc
      case LangEntry => LangScan(lines, ps, i + 1, inSection, LangLineFrom(line, ps, 0, acc))
      case LangSkip => LangScan(lines, ps, i + 1, inSection, acc)
  }

  function LanguagesOf(text: String): seq<Language> {
    LangScan(Lines(text), LangPatterns, 0, false, [])
  }

  method ExtractLanguages(text: String) returns (languages: seq<Language>)
    ensures languages == LanguagesOf(text)
  {
    languages := ScanLanguages(Lines(text), LangPatterns);
  }

  /** The loop of `extract_languages` over the lines. */
  method ScanLanguages(lines: seq<String>, ps: seq<LangPattern>) returns (languages: seq<Language>)
    ensures languages == LangScan(lines, ps, 0, false, [])
  {
    var inSection := false;
    languages := [];
    var i := 0;
    while i < |lines|
      invariant i <= |lines|
      invariant LangScan(lines, ps, i, inSection, languages) == LangScan(lines, ps, 0, false, [])
    {
      var line := Strip(lines[i]);
      var kind := LangLineKind(line, inSection);
      ghost var rest := LangScan(lines, ps, i, inSection, languages);
      if kind == LangHeader {
        assert rest == LangScan(lines, ps, i + 1, true, languages);
        inSection := true;
      } else if kind == LangStop {
        assert rest == languages;
        return;
      } else if kind == LangEntry {
        assert rest == LangScan(lines, ps, i + 1, inSection, LangLineFrom(line, ps, 0, languages));
        languages := MatchLanguages(line, ps, languages);
      } else {
        assert rest == LangScan(lines, ps, i + 1, inSection, languages);
      }
      i := i + 1;
    }
  }

  /** The language names of a list of patterns. */
  function PatternNames(ps: seq<LangPattern>): set<String> {
    set k | 0 <= k < |ps| :: ps[k].name
  }

  /** The names the four patterns of the source give. */
  lemma LangPatternNames()
    ensures PatternNames(LangPatterns) == {"Français", "Anglais", "Vietnamien", "Espagnol"}
  {
    var ps := LangPatterns;
    assert ps[0].name == "Français" && ps[1].name == "Anglais" && ps[2].name == "Vietnamien" && ps[3].name == "Espagnol";
    forall n | n in PatternNames(ps) ensures n in {"Français", "Anglais", "Vietnamien", "Espagnol"} {
      var k :| 0 <= k < |ps| && ps[k].name == n;
      assert k == 0 || k == 1 || k == 2 || k == 3;
    }
  }

  /** What every language entry satisfies, `k` being its index: it is named
      after one of the patterns and its id is built from that name. */
  predicate LanguageOk(l: Language, k: nat, names: set<String>) {
    l.id.Some? && l.id.value.HashId? && l.id.value.prefix == "lang" && l.id.value.ordinal == k &&
    l.name.Some? && l.name.value in names && l.id.value.key == l.name.value && l.level.Some?
  }

  predicate LanguagesOk(ls: seq<Language>, names: set<String>) {
    forall j :: 0 <= j < |ls| ==> LanguageOk(ls[j], j, names)
  }

  lemma {:induction false} LangLineOk(line: String, ps: seq<LangPattern>, k: nat, acc: seq<Language>)
    requires k <= |ps|
    requires LanguagesOk(acc, PatternNames(ps))
    ensures LanguagesOk(LangLineFrom(line, ps, k, acc), PatternNames(ps))
    decreases |ps| - k
  {
    if k < |ps| {
      var found := FindLang(line, ps[k]);
      if found.None? {
        assert LangLineFrom(line, ps, k, acc) == LangLineFrom(line, ps, k + 1, acc);
        LangLineOk(line, ps, k + 1, acc);
      } else {
        var e := LanguageEntry(ps[k], found.value, line, |acc|);
        assert LangLineFrom(line, ps, k, acc) == LangLineFrom(line, ps, k + 1, acc + [e]);
        assert ps[k].name in PatternNames(ps);
        LanguagesOkSnoc(acc, e, PatternNames(ps));
        LangLineOk(line, ps, k + 1, acc + [e]);
      }
    }
  }

  lemma LanguagesOkSnoc(acc: seq<Language>, e: Language, names: set<String>)
    requires LanguagesOk(acc, names) && LanguageOk(e, |acc|, names)
    ensures LanguagesOk(acc + [e], names)
  {
    assert forall j :: 0 <= j < |acc| ==> (acc + [e])[j] == acc[j];
  }

  lemma {:induction false} LangScanOk(lines: seq<String>, ps: seq<LangPattern>, i: nat, inSection: bool, acc: seq<Language>)
    requires i <= |lines|
    requires LanguagesOk(acc, PatternNames(ps))
    ensures LanguagesOk(LangScan(lines, ps, i, inSection, acc), PatternNames(ps))
    decreases |lines| - i
  {
    if i < |lines| {
      var line := Strip(lines[i]);
      match LangLineKind(line, inSection)
      case LangHeader => LangScanOk(lines, ps, i + 1, true, acc);
      case LangStop =>
      case LangEntry =>
        LangLineOk(line, ps, 0, acc);
        LangScanOk(lines, ps, i + 1, inSection, LangLineFrom(line, ps, 0, acc));
      case LangSkip => LangScanOk(lines, ps, i + 1, inSection, acc);
    }
  }

  /** Every language entry is one of the four languages the patterns name,
      with the id built from that name and its index. */
  lemma LanguageEntriesOk(text: String)
    ensures LanguagesOk(LanguagesOf(text), {"Français", "Anglais", "Vietnamien", "Espagnol"})
  {
    LangScanOk(Lines(text), LangPatterns, 0, false, []);
    LangPatternNames();
  }

  lemma {:induction false} LangScanClosed(lines: seq<String>, ps: seq<LangPattern>, i: nat, acc: seq<Language>)
    requires i <= |lines|
    requires forall k :: i <= k < |lines| ==> !IsLanguagesHeader(Strip(lines[k]))
    ensures LangScan(lines, ps, i, false, acc) == acc
    decreases |lines| - i
  {
    if i < |lines| {
      LangScanClosed(lines, ps, i + 1, acc);
    }
  }

  /** Without a languages header no line is examined. */
  lemma NoHeaderNoLanguage(text: String)
    requires forall k :: 0 <= k < |Lines(text)| ==> !IsLanguagesHeader(Strip(Lines(text)[k]))
    ensures LanguagesOf(text) == []
  {
    LangScanClosed(Lines(text), LangPatterns, 0, []);
  }

  // =====================================================================
  // Skills

  function MakeSkill(word: String, ordinal: nat): Skill {
    Skill(Some(HashId("skill", word, ordinal)), Some(TitleWord(word)), Some("technical"), Some("intermediate"))
  }

  /** `any(skill['name'].lower() == word for skill in skills)`. */
  predicate HasSkillNamed(skills: seq<Skill>, w: String) {
    exists k :: 0 <= k < |skills| && skills[k].name.Some? && Lower(skills[k].name.value) == w
  }

  /** The words of a line, in order, each vocabulary word added unless a
      skill of that name exists. */
  function AddSkillWords(acc: seq<Skill>, words: seq<String>, j: nat): (r: seq<Skill>)
    requires j <= |words|
    ensures acc <= r
    decreases |words| - j
  {
    if j == |words| then acc
    else
      var w := words[j];
      if w in TechKeywords && !HasSkillNamed(acc, w) then AddSkillWords(acc + [MakeSkill(w, |acc|)], words, j + 1)
      else AddSkillWords(acc, words, j + 1)
  }

  method AddLineSkills(skills: seq<Skill>, words: seq<String>) returns (r: seq<Skill>)
    ensures r == AddSkillWords(skills, words, 0)
  {
    r := skills;
    var j := 0;
    while j < |words|
      invariant j <= |words|
      invariant AddSkillWords(r, words, j) == AddSkillWords(skills, words, 0)
    {
      var w := words[j];
      if w in TechKeywords && !HasSkillNamed(r, w) {
        r := r + [MakeSkill(w, |r|)];
      }
      j := j + 1;
    }
  }

  datatype SkillLine = SkillSkip | SkillStop | SkillWords

  /** A lower-cased line once the header test has updated the flag: a stop
      line inside the section ends the scan; a non-empty line inside the
      section, or one holding 'langages:', contributes its words. */
  function SkillLineKind(lc: String, inSection: bool): SkillLine {
    if inSection && IsSkillsStop(lc) then SkillStop
    else if (inSection || ContainsLangagesColon(lc)) && lc != "" then SkillWords
    else SkillSkip
  }

  /** The scan of `extract_skills` over lower-cased stripped lines. */
  function SkillScan(lines: seq<String>, i: nat, inSection: bool, acc: seq<Skill>): seq<Skill>
    requires i <= |lines|
    decreases |lines| - i
  {
    if i == |lines| then acc
    else
      var lc := Lower(Strip(lines[i]));
      var inSection' := inSection || IsSkillsHeader(lc);
      match SkillLineKind(lc, inSection')
      case SkillStop => acc
      case SkillWords => SkillScan(lines, i + 1, inSection', AddSkillWords(acc, Words(lc), 0))
      case SkillSkip => SkillScan(lines, i + 1, inSection', acc)
  }

  function SkillsOf(text: String): seq<Skill> {
    SkillScan(Lines(text), 0, false, [])
  }

  method ExtractSkills(text: String) returns (skills: seq<Skill>)
    ensures skills == SkillsOf(text)
  {
    var lines := Lines(text);
    var inSection := false;
    skills := [];
    var i := 0;
    ghost var target := SkillScan(lines, i, inSection, skills);
    while i < |lines|
      invariant i <= |lines|
      invariant SkillScan(lines, i, inSection, skills) == target
    {
      var stop;
      stop, inSection, skills := SkillRound(lines, i, inSection, skills);
      if stop {
        return;
      }
      i := i + 1;
    }
  }

  /** One round of the loop of `extract_skills`, on line `i`: the header
      opens the section, a stop line inside it ends the scan (`stop`), and
      a line that contributes adds its words. */
  method SkillRound(lines: seq<String>, i: nat, inSection: bool, acc: seq<Skill>)
    returns (stop: bool, inSection': bool, acc': seq<Skill>)
    requires i < |lines|
    ensures stop ==> acc' == SkillScan(lines, i, inSection, acc)
    ensures !stop ==> SkillScan(lines, i + 1, inSection', acc') == SkillScan(lines, i, inSection, acc)
  {
    var lc := Lower(Strip(lines[i]));
    inSection', acc' := inSection, acc;
    if IsSkillsHeader(lc) {
      inSection' := true;
    }
    var kind := SkillLineKind(lc, inSection');
    stop := kind == SkillStop;
    if kind == SkillWords {
      acc' := AddLineSkills(acc, Words(lc));
    }
  }

  /** The extracted skills: vocabulary words, title-cased, technical and
      intermediate, ids carrying the index, and no name twice. */
  predicate SkillsOk(skills: seq<Skill>) {
    (forall k :: 0 <= k < |skills| ==>
       skills[k].name.Some? && Lower(skills[k].name.value) in TechKeywords &&
       skills[k] == MakeSkill(Lower(skills[k].name.value), k)) &&
    (forall a, b :: 0 <= a < b < |skills| ==> skills[a].name != skills[b].name)
  }

  lemma {:induction false} AddSkillWordsOk(acc: seq<Skill>, words: seq<String>, j: nat)
    requires j <= |words|
    requires SkillsOk(acc)
    ensures SkillsOk(AddSkillWords(acc, words, j))
    decreases |words| - j
  {
    if j < |words| {
      var w := words[j];
      if w in TechKeywords && !HasSkillNamed(acc, w) {
        var s := MakeSkill(w, |acc|);
        TitleLowerKeyword(w);
        var acc' := acc + [s];
        forall a, b | 0 <= a < b < |acc'| ensures acc'[a].name != acc'[b].name {
          if b == |acc| {
            assert Lower(acc[a].name.value) != w;
          }
        }
        AddSkillWordsOk(acc', words, j + 1);
      } else {
        AddSkillWordsOk(acc, words, j + 1);
      }
    }
  }

  lemma {:induction false} SkillScanOk(lines: seq<String>, i: nat, inSection: bool, acc: seq<Skill>)
    requires i <= |lines|
    requires SkillsOk(acc)
    ensures SkillsOk(SkillScan(lines, i, inSection, acc))
    decreases |lines| - i
  {
    if i < |lines| {
      var lc := Lower(Strip(lines[i]));
      var inSection' := inSection || IsSkillsHeader(lc);
      match SkillLineKind(lc, inSection')
      case SkillStop =>
      case SkillWords =>
        AddSkillWordsOk(acc, Words(lc), 0);
        SkillScanOk(lines, i + 1, inSection', AddSkillWords(acc, Words(lc), 0));
      case SkillSkip => SkillScanOk(lines, i + 1, inSection', acc);
    }
  }

  /** Only vocabulary words are kept, each at most once. */
  lemma SkillsDistinctFromVocabulary(text: String)
    ensures SkillsOk(SkillsOf(text))
  {
    SkillScanOk(Lines(text), 0, false, []);
  }

  // =====================================================================
  // Whole CV

  /** `_empty_cv_data`. */
  function EmptyCvData(): (cv: CVFormData)
    ensures cv.personalInfo == NoPersonalInfo
    ensures cv.experiences == [] && cv.education == [] && cv.skills == [] && cv.languages == []
  {
    EmptyCV
  }

  /** `parse_cv` once the text is extracted: the empty record for an empty
      text, otherwise the five extractors. */
  method ParseCv(p: InfoPatterns, text: String) returns (cv: CVFormData)
    ensures text == "" ==> cv == EmptyCvData()
    ensures text != "" ==> cv.experiences == Experiences(text) && cv.education == EducationOf(text) &&
                           cv.skills == SkillsOf(text) && cv.languages == LanguagesOf(text) &&
                           cv.personalInfo == PersonalInfoOf(p, text)
  {
    if text == "" {
      return EmptyCvData();
    }
    var info := ExtractPersonalInfo(p, text);
    var experiences := ExtractExperiences(text);
    var education := ExtractEducation(text);
    var skills := ExtractSkills(text);
    var languages := ExtractLanguages(text);
    cv := CVFormData(info, experiences, education, skills, languages);
  }
}
