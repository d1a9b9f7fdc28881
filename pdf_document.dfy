/** What the PDF generator (app/api/cv/generate/route.ts) writes: the
    storage path of the file and the texts drawn on the page, section by
    section. The page is modelled by the sequence of texts drawn on it, in
    order; fonts, sizes and positions are not part of this model. Every
    text goes through `wrapText` as written (`ProgramLines`); the texts
    are also defined for any other breaking, such as the corrected one. */
module PdfDocument {
  import opened Wrappers
  import opened Text
  import opened CvTypes
  import opened PdfLayout
  import opened SkillGroups

  // ---------------------------------------------------------------------
  // generateFilePath

  /** `name?.replace(/\s+/g, "_") || "CV"`. */
  function SanitizedName(name: Option<String>): String {
    if name.Some? && Collapse(name.value, "_") != "" then Collapse(name.value, "_") else "CV"
  }

  /** The sanitised name is never empty and has no whitespace; a missing or
      empty name gives "CV", any other name its whitespace runs replaced. */
  lemma SanitizedShape(name: Option<String>)
    ensures SanitizedName(name) != ""
    ensures forall i :: 0 <= i < |SanitizedName(name)| ==> !IsSpace(SanitizedName(name)[i])
    ensures name.None? || name == Some("") ==> SanitizedName(name) == "CV"
    ensures name.Some? && name.value != "" ==> SanitizedName(name) == Collapse(name.value, "_")
  {
    if name.Some? && name.value != "" {
      assert StartsWith("_", "_");
    }
  }

  /** A word without whitespace is left as it is. */
  lemma {:induction false} CollapseNoSpace(w: String, rep: String)
    requires forall i :: 0 <= i < |w| ==> !IsSpace(w[i])
    ensures Collapse(w, rep) == w
    decreases |w|
  {
    if w != [] {
      CollapseNoSpace(w[1..], rep);
      assert [w[0]] + w[1..] == w;
    }
  }

  /** One space before a rest that does not start with whitespace. */
  lemma CollapseOneSpace(rest: String, rep: String)
    requires rest == [] || !IsSpace(rest[0])
    ensures Collapse(" " + rest, rep) == rep + Collapse(rest, rep)
  {
    var s := " " + rest;
    assert s[1..] == rest;
    assert TrimStart(s) == TrimStart(rest) == rest;
  }

  /** A first character that is not whitespace is kept as it is. */
  lemma CollapseCons(x: char, t: String, rep: String)
    requires !IsSpace(x)
    ensures Collapse([x] + t, rep) == [x] + Collapse(t, rep)
  {
    assert ([x] + t)[1..] == t;
  }

  /** A prefix without whitespace is kept as it is. */
  lemma {:induction false} CollapsePrefix(w: String, t: String, rep: String)
    requires forall i :: 0 <= i < |w| ==> !IsSpace(w[i])
    ensures Collapse(w + t, rep) == w + Collapse(t, rep)
    decreases |w|
  {
    if w == [] {
      assert w + t == t;
    } else {
      var u := w[1..];
      var c := Collapse(t, rep);
      assert forall i :: 0 <= i < |u| ==> u[i] == w[i + 1];
      CollapsePrefix(u, t, rep);
      ConsAssoc(w[0], u, t);
      CollapseCons(w[0], u + t, rep);
      ConsAssoc(w[0], u, c);
      assert [w[0]] + u == w;
    }
  }

  /** `[x] + (a + b)` regrouped. */
  lemma ConsAssoc<T>(x: T, a: seq<T>, b: seq<T>)
    ensures [x] + (a + b) == ([x] + a) + b
  {
  }

  /** A word, one space, and a rest not starting with whitespace. */
  lemma CollapseWord(w: String, rest: String, rep: String)
    requires forall i :: 0 <= i < |w| ==> !IsSpace(w[i])
    requires rest == [] || !IsSpace(rest[0])
    ensures Collapse(w + " " + rest, rep) == w + rep + Collapse(rest, rep)
  {
    assert w + " " + rest == w + (" " + rest);
    CollapsePrefix(w, " " + rest, rep);
    CollapseOneSpace(rest, rep);
  }

  /** Three words separated by single spaces are joined by underscores. */
  lemma SanitizedWords(a: String, b: String, c: String)
    requires a != [] && b != [] && c != []
    requires forall i :: 0 <= i < |a| ==> !IsSpace(a[i])
    requires forall i :: 0 <= i < |b| ==> !IsSpace(b[i])
    requires forall i :: 0 <= i < |c| ==> !IsSpace(c[i])
    ensures SanitizedName(Some(a + " " + b + " " + c)) == a + "_" + b + "_" + c
  {
    var bc := b + " " + c;
    assert a + " " + b + " " + c == a + " " + bc;
    assert bc[0] == b[0];
    CollapseNoSpace(c, "_");
    CollapseWord(b, c, "_");
    assert Collapse(bc, "_") == b + "_" + c;
    CollapseWord(a, bc, "_");
    assert Collapse(a + " " + bc, "_") == a + "_" + (b + "_" + c);
    assert a + "_" + (b + "_" + c) == a + "_" + b + "_" + c;
  }

  /** `Math.floor(Math.random() * 100)`, for the random number in [0, 1). */
  function RandomSuffix(random: real): (r: nat)
    requires 0.0 <= random < 1.0
    ensures r <= 99
  {
    (random * 100.0).Floor
  }

  /** `${userId}/CV_${name}__${suffix}_${timestamp}.pdf`. */
  function FilePath(userId: String, name: Option<String>, random: real, now: nat): String
    requires 0.0 <= random < 1.0
  {
    userId + "/CV_" + SanitizedName(name) + "__" + NatToString(RandomSuffix(random)) + "_" +
    NatToString(now) + ".pdf"
  }

  /** A number below 100 is written with one or two digits. */
  lemma SmallNatDigits(n: nat)
    requires n <= 99
    ensures 1 <= |NatToString(n)| <= 2
  {
    if n >= 10 {
      assert n / 10 < 10;
      assert NatToString(n) == [DigitChar(n / 10)] + [DigitChar(n % 10)];
    }
  }

  /** The three pieces of a concatenation sit where they were put. */
  lemma Pieces3(head: String, d: String, tail: String)
    ensures var p := head + d + tail;
      StartsWith(p, head) && EndsWith(p, tail) && |p| == |head| + |d| + |tail| &&
      p[|head|..|head| + |d|] == d
  {
    var p := head + d + tail;
    assert p[..|head|] == head;
    assert p[|head|..|head| + |d|] == d;
    assert p[|p| - |tail|..] == tail;
  }

  /** The path starts with the user's folder, "/CV_", the sanitised name and
      "__", is followed by a suffix of one or two digits, and ends with "_",
      the timestamp's digits and ".pdf". */
  lemma FilePathShape(userId: String, name: Option<String>, random: real, now: nat)
    requires 0.0 <= random < 1.0
    ensures var p := FilePath(userId, name, random, now);
      var head := userId + "/CV_" + SanitizedName(name) + "__";
      var d := NatToString(RandomSuffix(random));
      var tail := "_" + NatToString(now) + ".pdf";
      StartsWith(p, head) && EndsWith(p, tail) && |p| == |head| + |d| + |tail| &&
      p[|head|..|head| + |d|] == d && IsDigits(d) && 1 <= |d| <= 2
  {
    var head := userId + "/CV_" + SanitizedName(name) + "__";
    var d := NatToString(RandomSuffix(random));
    var tail := "_" + NatToString(now) + ".pdf";
    var n := NatToString(now);
    Append3(head + d, "_", n);
    Append3(head + d, "_" + n, ".pdf");
    assert FilePath(userId, name, random, now) == head + d + tail;
    Pieces3(head, d, tail);
    SmallNatDigits(RandomSuffix(random));
  }

  // ---------------------------------------------------------------------
  // The strings of each section

  /** `values.filter(info => info && info.trim())`: the values that are not
      blank, untrimmed, in order. */
  function Present(values: seq<Option<String>>): seq<String>
    decreases |values|
  {
    if values == [] then []
    else
      var v := values[|values| - 1];
      Present(values[..|values| - 1]) + (if v.Some? && Strip(v.value) != "" then [v.value] else [])
  }

  /** Filing one more value. */
  lemma PresentSnoc(values: seq<Option<String>>, v: Option<String>)
    ensures Present(values + [v]) == Present(values) + (if v.Some? && Strip(v.value) != "" then [v.value] else [])
  {
    assert (values + [v])[..|values|] == values;
  }

  /** Every kept value is non-blank, and at most one is kept per value. */
  lemma {:induction false} PresentKept(values: seq<Option<String>>)
    ensures |Present(values)| <= |values|
    ensures forall k :: 0 <= k < |Present(values)| ==> Strip(Present(values)[k]) != ""
    decreases |values|
  {
    if values != [] {
      PresentKept(values[..|values| - 1]);
    }
  }

  /** With no non-blank value nothing is kept. */
  lemma {:induction false} PresentNone(values: seq<Option<String>>)
    requires forall k :: 0 <= k < |values| ==> values[k].None? || Strip(values[k].value) == ""
    ensures Present(values) == []
    decreases |values|
  {
    if values != [] {
      PresentNone(values[..|values| - 1]);
    }
  }

  /** With every value non-blank all are kept, in order. */
  lemma {:induction false} PresentAll(values: seq<Option<String>>)
    requires forall k :: 0 <= k < |values| ==> values[k].Some? && Strip(values[k].value) != ""
    ensures |Present(values)| == |values|
    ensures forall k :: 0 <= k < |values| ==> Present(values)[k] == values[k].value
    decreases |values|
  {
    if values != [] {
      var n := |values| - 1;
      var init := values[..n];
      assert forall k :: 0 <= k < n ==> init[k] == values[k];
      PresentAll(init);
      assert values == init + [values[n]];
      PresentSnoc(init, values[n]);
    }
  }

  lemma JoinPair(a: String, b: String, sep: String)
    ensures Join([a, b], sep) == a + sep + b
  {
    assert [a, b][1..] == [b];
  }

  /** The contact line: email, phone, location, LinkedIn and website, the
      non-blank ones joined by " | ". */
  function ContactLine(p: PersonalInfo): String {
    Join(Present([p.email, p.phone, p.location, p.linkedin, p.website]), " | ")
  }

  /** Blank or missing fields are left out of the contact line. */
  lemma ContactSkipsBlank(p: PersonalInfo)
    requires p.email.Some? && Strip(p.email.value) != ""
    requires p.phone.None? || Strip(p.phone.value) == ""
    requires p.location.None? || Strip(p.location.value) == ""
    requires p.linkedin.Some? && Strip(p.linkedin.value) != ""
    requires p.website.None?
    ensures ContactLine(p) == p.email.value + " | " + p.linkedin.value
  {
    var v1 := [] + [p.email];
    var v2 := v1 + [p.phone];
    var v3 := v2 + [p.location];
    var v4 := v3 + [p.linkedin];
    var v5 := v4 + [p.website];
    PresentSnoc([], p.email);
    PresentSnoc(v1, p.phone);
    PresentSnoc(v2, p.location);
    PresentSnoc(v3, p.linkedin);
    PresentSnoc(v4, p.website);
    assert Present(v5) == [p.email.value, p.linkedin.value];
    assert v5 == [p.email, p.phone, p.location, p.linkedin, p.website];
    JoinPair(p.email.value, p.linkedin.value, " | ");
  }

  /** The end date shown: the end date, else "Présent" for a current position. */
  function EndDateText(e: Experience): (r: String)
    ensures Truthy(e.endDate) ==> r == e.endDate.value
    ensures !Truthy(e.endDate) && e.isCurrentPosition == Some(true) ==> r == "Présent"
    ensures !Truthy(e.endDate) && e.isCurrentPosition != Some(true) ==> r == ""
  {
    if Truthy(e.endDate) then e.endDate.value
    else if e.isCurrentPosition == Some(true) then "Présent" else ""
  }

  function DateLocation(e: Experience): String {
    Join(Present([e.startDate, Some(EndDateText(e)), e.location]), " | ")
  }

  /** A current position without an end date shows "Présent" after its
      start date. */
  lemma CurrentShowsPresent(e: Experience)
    requires !Truthy(e.endDate) && e.isCurrentPosition == Some(true)
    requires e.startDate.Some? && Strip(e.startDate.value) != "" && e.location.None?
    ensures DateLocation(e) == e.startDate.value + " | Présent"
  {
    var p := Some("Présent");
    assert Strip("Présent") == "Présent" by {
      StripNoSpace("Présent");
    }
    var v1 := [] + [e.startDate];
    var v2 := v1 + [p];
    var v3 := v2 + [e.location];
    PresentSnoc([], e.startDate);
    PresentSnoc(v1, p);
    PresentSnoc(v2, e.location);
    assert Present(v3) == [e.startDate.value, "Présent"];
    assert v3 == [e.startDate, Some(EndDateText(e)), e.location];
    JoinPair(e.startDate.value, "Présent", " | ");
  }

  /** A section title: the plural form exactly when there is more than one
      entry. */
  function SectionTitle(n: nat, one: String, many: String): (r: String)
    ensures n > 1 ==> r == many
    ensures n <= 1 ==> r == one
  {
    if n > 1 then many else one
  }

  function ExperienceTitle(n: nat): String {
    SectionTitle(n, "EXPÉRIENCE PROFESSIONNELLE", "EXPÉRIENCES PROFESSIONNELLES")
  }

  function EducationTitle(n: nat): String {
    SectionTitle(n, "FORMATION", "FORMATIONS")
  }

  /** An experience is drawn only with both a company and a position. */
  predicate Drawn(e: Experience) {
    Truthy(e.company) && Truthy(e.position)
  }

  predicate DrawnEducation(e: Education) {
    Truthy(e.institution) && Truthy(e.degree)
  }

  /** `${name} (${level})`, or the name alone without a level. */
  function LanguageText(l: Language): (r: String)
    ensures StartsWith(r, OrEmpty(l.name))
    ensures Truthy(l.level) ==> r[|OrEmpty(l.name)|..] == " (" + l.level.value + ")"
    ensures !Truthy(l.level) ==> r == OrEmpty(l.name)
  {
    OrEmpty(l.name) + (if Truthy(l.level) then " (" + l.level.value + ")" else "")
  }

  // ---------------------------------------------------------------------
  // The texts of the page

  /** How a text is broken into the lines drawn for it. */
  type Wrapper = String -> seq<String>

  /** The breaking the generator uses: `wrapText` as written, at
      `maxLineLength`. */
  function ProgramLines(text: String): seq<String> {
    WrapText(text, MaxLineLength)
  }

  /** The breaking with the corrected fit test, which counts the space. */
  function FixedLines(text: String): seq<String> {
    WrapTextFixed(text, MaxLineLength)
  }

  /** The lines each text is broken into, one text after the other. */
  function Wrapped(texts: seq<String>, wrap: Wrapper): seq<String>
    decreases |texts|
  {
    if |texts| == 0 then []
    else Wrapped(texts[..|texts| - 1], wrap) + wrap(texts[|texts| - 1])
  }

  /** The bullet points drawn for a description; none without one. */
  function DescriptionPoints(d: Option<String>): seq<String> {
    if Truthy(d) then BulletPoints(d.value) else []
  }

  /** What an experience or an education entry shows: a bold header, a
      line of details (drawn only when not empty) and the bullet points of
      its description. */
  datatype Entry = Entry(header: String, detail: String, points: seq<String>)

  function EntryTexts(en: Entry, wrap: Wrapper): seq<String> {
    wrap(en.header) + (if en.detail != "" then wrap(en.detail) else []) + Wrapped(en.points, wrap)
  }

  /** The entries that are drawn, one after the other; `None` draws nothing. */
  function EntriesTexts(ens: seq<Option<Entry>>, wrap: Wrapper): seq<String>
    decreases |ens|
  {
    if ens == [] then []
    else
      var en := ens[|ens| - 1];
      EntriesTexts(ens[..|ens| - 1], wrap) + (if en.Some? then EntryTexts(en.value, wrap) else [])
  }

  /** An experience is skipped without a company or a position; otherwise
      it shows "position - company", then start date, end date and
      location. */
  function ExperienceEntry(e: Experience): Option<Entry> {
    if !Drawn(e) then None
    else Some(Entry(e.position.value + " - " + e.company.value, DateLocation(e), DescriptionPoints(e.description)))
  }

  function EducationDetails(e: Education): String {
    Join(Present([e.field, e.startDate, e.endDate]), " | ")
  }

  /** An education is skipped without an institution or a degree;
      otherwise it shows "degree - institution", then field and dates. */
  function EducationEntry(e: Education): Option<Entry> {
    if !DrawnEducation(e) then None
    else Some(Entry(e.degree.value + " - " + e.institution.value, EducationDetails(e), DescriptionPoints(e.description)))
  }

  function ExperienceEntries(es: seq<Experience>): seq<Option<Entry>> {
    seq(|es|, i requires 0 <= i < |es| => ExperienceEntry(es[i]))
  }

  function EducationEntries(es: seq<Education>): seq<Option<Entry>> {
    seq(|es|, i requires 0 <= i < |es| => EducationEntry(es[i]))
  }

  /** `list.join(", ")` renders a missing name as the empty string. */
  function Names(list: seq<Option<String>>): seq<String> {
    seq(|list|, k requires 0 <= k < |list| => OrEmpty(list[k]))
  }

  function GroupTexts(g: Group, wrap: Wrapper): seq<String> {
    wrap(g.cat + ":") + wrap(Join(Names(g.list), ", "))
  }

  function GroupsTexts(gs: seq<Group>, wrap: Wrapper): seq<String>
    decreases |gs|
  {
    if gs == [] then [] else GroupsTexts(gs[..|gs| - 1], wrap) + GroupTexts(gs[|gs| - 1], wrap)
  }

  function LanguagesTexts(ls: seq<Language>, wrap: Wrapper): seq<String>
    decreases |ls|
  {
    if ls == [] then []
    else
      var l := ls[|ls| - 1];
      LanguagesTexts(ls[..|ls| - 1], wrap) + (if Truthy(l.name) then wrap(LanguageText(l)) else [])
  }

  function SkillsHeading(): String { "COMPÉTENCES" }
  function LanguagesHeading(): String { "LANGUES" }

  /** Everything `generatePDF` draws, in order: the name, the contact line,
      then each non-empty section under its uppercased title. */
  function Document(cv: CVFormData, le: (String, String) -> bool, wrap: Wrapper): seq<String> {
    [OrEmpty(cv.personalInfo.name)] +
    wrap(ContactLine(cv.personalInfo)) +
    (if |cv.experiences| > 0 then [Upper(ExperienceTitle(|cv.experiences|))] + EntriesTexts(ExperienceEntries(cv.experiences), wrap) else []) +
    (if |cv.education| > 0 then [Upper(EducationTitle(|cv.education|))] + EntriesTexts(EducationEntries(cv.education), wrap) else []) +
    (if |cv.skills| > 0 then [Upper(SkillsHeading())] + GroupsTexts(GroupByCat(Some(cv.skills), le), wrap) else []) +
    (if |cv.languages| > 0 then [Upper(LanguagesHeading())] + LanguagesTexts(cv.languages, wrap) else [])
  }

  /** Entries lacking a required field draw nothing; a drawn entry starts
      with its header "position - company" or "degree - institution", which
      is the whole first line when it fits. */
  lemma SkippedEntries(e: Experience, d: Education, l: Language)
    ensures !Drawn(e) ==> ExperienceEntry(e).None? && EntriesTexts([ExperienceEntry(e)], ProgramLines) == []
    ensures !DrawnEducation(d) ==> EducationEntry(d).None? && EntriesTexts([EducationEntry(d)], ProgramLines) == []
    ensures !Truthy(l.name) ==> LanguagesTexts([l], ProgramLines) == []
    ensures var h := OrEmpty(e.position) + " - " + OrEmpty(e.company);
      Drawn(e) && |h| <= MaxLineLength ==> EntriesTexts([ExperienceEntry(e)], ProgramLines)[0] == h
    ensures var h := OrEmpty(d.degree) + " - " + OrEmpty(d.institution);
      DrawnEducation(d) && |h| <= MaxLineLength ==> EntriesTexts([EducationEntry(d)], ProgramLines)[0] == h
  {
    assert [l][..0] == [];
    assert [ExperienceEntry(e)][..0] == [];
    assert [EducationEntry(d)][..0] == [];
    if Drawn(e) {
      var h := OrEmpty(e.position) + " - " + OrEmpty(e.company);
      if |h| <= MaxLineLength {
        WrapShort(h, MaxLineLength, false);
      }
    }
    if DrawnEducation(d) {
      var h := OrEmpty(d.degree) + " - " + OrEmpty(d.institution);
      if |h| <= MaxLineLength {
        WrapShort(h, MaxLineLength, false);
      }
    }
  }

  /** Every line the generator draws is at most one character over
      `maxLineLength`, or a single word without spaces: the fit test does
      not count the joining space. */
  lemma {:induction false} WrappedBound(texts: seq<String>)
    ensures forall i :: 0 <= i < |Wrapped(texts, ProgramLines)| ==>
      (|Wrapped(texts, ProgramLines)[i]| <= MaxLineLength + 1 || ' ' !in Wrapped(texts, ProgramLines)[i])
    decreases |texts|
  {
    if texts != [] {
      WrappedBound(texts[..|texts| - 1]);
      WrapBound(texts[|texts| - 1], MaxLineLength, false);
    }
  }

  /** The bound is reached: two words of 100 characters in all, joined by
      one space, are drawn as one line of 101 characters. */
  lemma ProgramLinesOverflow(a: String, b: String)
    requires a != "" && b != "" && ' ' !in a && ' ' !in b && |a| + |b| == MaxLineLength
    ensures ProgramLines(a + " " + b) == [a + " " + b]
    ensures |ProgramLines(a + " " + b)[0]| == MaxLineLength + 1
  {
    SplitWord(a, b);
    SplitNoSpace(b);
    assert SplitSeq(a + " " + b, " ") == [a, b];
    FoldSnoc([], a, MaxLineLength, false);
    assert [] + [a] == [a];
    FoldSnoc([a], b, MaxLineLength, false);
    assert [a] + [b] == [a, b];
    var w1 := Step(Wrapping([], ""), a, MaxLineLength, false);
    assert w1 == Wrapping([], a);
    assert Step(w1, b, MaxLineLength, false) == Wrapping([], a + " " + b);
  }

  /** With the corrected fit test every drawn line is at most
      `maxLineLength` characters, or a single word without spaces. */
  lemma {:induction false} WrappedFixedBound(texts: seq<String>)
    ensures forall i :: 0 <= i < |Wrapped(texts, FixedLines)| ==>
      (|Wrapped(texts, FixedLines)[i]| <= MaxLineLength || ' ' !in Wrapped(texts, FixedLines)[i])
    decreases |texts|
  {
    if texts != [] {
      WrappedFixedBound(texts[..|texts| - 1]);
      WrapBound(texts[|texts| - 1], MaxLineLength, true);
    }
  }

  /** With no section data the page holds the name and the contact line. */
  lemma EmptyDocument(p: PersonalInfo, le: (String, String) -> bool)
    requires |ContactLine(p)| <= MaxLineLength
    ensures Document(CVFormData(p, [], [], [], []), le, ProgramLines) == [OrEmpty(p.name), ContactLine(p)]
  {
    WrapShort(ContactLine(p), MaxLineLength, false);
  }

  // ---------------------------------------------------------------------
  // The page

  lemma Append3<T>(t: seq<T>, a: seq<T>, b: seq<T>)
    ensures t + a + b == t + (a + b)
  {
  }

  lemma Append7<T>(t: seq<T>, a: seq<T>, b: seq<T>, c: seq<T>, d: seq<T>, e: seq<T>, f: seq<T>)
    ensures t + a + b + c + d + e + f == t + (a + b + c + d + e + f)
  {
  }

  lemma Append4<T>(t: seq<T>, a: seq<T>, b: seq<T>, c: seq<T>)
    ensures t + a + b + c == t + (a + b + c)
  {
  }

  lemma GroupsTextsStep(gs: seq<Group>, i: nat, wrap: Wrapper)
    requires i < |gs|
    ensures GroupsTexts(gs[..i + 1], wrap) == GroupsTexts(gs[..i], wrap) + GroupTexts(gs[i], wrap)
  {
    assert gs[..i + 1][..i] == gs[..i];
  }

  lemma EntriesTextsStep(ens: seq<Option<Entry>>, i: nat, wrap: Wrapper)
    requires i < |ens|
    ensures EntriesTexts(ens[..i + 1], wrap) ==
      EntriesTexts(ens[..i], wrap) + (if ens[i].Some? then EntryTexts(ens[i].value, wrap) else [])
  {
    assert ens[..i + 1][..i] == ens[..i];
  }

  /** The document being drawn; `texts` are the texts drawn so far, in order. */
  class Page {
    var texts: seq<String>

    constructor ()
      ensures texts == []
    {
      texts := [];
    }

    /** `addWrappedText`: one text per line of the broken text. */
    method AddWrappedText(text: String, wrap: Wrapper)
      modifies this
      ensures texts == old(texts) + wrap(text)
    {
      var lines := wrap(text);
      for i := 0 to |lines|
        invariant texts == old(texts) + lines[..i]
      {
        texts := texts + [lines[i]];
      }
      assert lines[..|lines|] == lines;
    }

    /** Each text broken into lines and drawn in turn. */
    method AddWrappedTexts(ts: seq<String>, wrap: Wrapper)
      modifies this
      ensures texts == old(texts) + Wrapped(ts, wrap)
    {
      for i := 0 to |ts|
        invariant texts == old(texts) + Wrapped(ts[..i], wrap)
      {
        assert ts[..i + 1][..i] == ts[..i];
        AddWrappedText(ts[i], wrap);
      }
      assert ts[..|ts|] == ts;
    }

    /** `addBulletPoints`: nothing for the empty text, else each bullet
        drawn in turn. */
    method AddBulletPoints(text: String, wrap: Wrapper)
      modifies this
      ensures texts == old(texts) + Wrapped(BulletPoints(text), wrap)
    {
      if text == "" {
        assert BulletPoints(text) == [];
        return;
      }
      AddWrappedTexts(BulletPoints(text), wrap);
    }

    /** `addSectionHeader`: the title uppercased. */
    method AddSectionHeader(title: String)
      modifies this
      ensures texts == old(texts) + [Upper(title)]
    {
      texts := texts + [Upper(title)];
    }

    /** One drawn entry of the experience or education loop. */
    method AddEntry(e: Entry, wrap: Wrapper)
      modifies this
      ensures texts == old(texts) + EntryTexts(e, wrap)
    {
      ghost var t0 := texts;
      AddWrappedText(e.header, wrap);
      if e.detail != "" {
        AddWrappedText(e.detail, wrap);
      }
      AddWrappedTexts(e.points, wrap);
      Append4(t0, wrap(e.header), if e.detail != "" then wrap(e.detail) else [], Wrapped(e.points, wrap));
    }

    /** A section of entries under its title. */
    method AddEntries(title: String, ens: seq<Option<Entry>>, wrap: Wrapper)
      modifies this
      ensures texts == old(texts) + [Upper(title)] + EntriesTexts(ens, wrap)
    {
      AddSectionHeader(title);
      ghost var start := texts;
      for i := 0 to |ens|
        invariant texts == start + EntriesTexts(ens[..i], wrap)
      {
        EntriesTextsStep(ens, i, wrap);
        if ens[i].Some? {
          AddEntry(ens[i].value, wrap);
          Append3(start, EntriesTexts(ens[..i], wrap), EntryTexts(ens[i].value, wrap));
        }
      }
      assert ens[..|ens|] == ens;
    }

    method AddExperiences(es: seq<Experience>, wrap: Wrapper)
      modifies this
      ensures texts == old(texts) +
        (if |es| > 0 then [Upper(ExperienceTitle(|es|))] + EntriesTexts(ExperienceEntries(es), wrap) else [])
    {
      if |es| > 0 {
        AddEntries(ExperienceTitle(|es|), ExperienceEntries(es), wrap);
      }
    }

    method AddEducations(es: seq<Education>, wrap: Wrapper)
      modifies this
      ensures texts == old(texts) +
        (if |es| > 0 then [Upper(EducationTitle(|es|))] + EntriesTexts(EducationEntries(es), wrap) else [])
    {
      if |es| > 0 {
        AddEntries(EducationTitle(|es|), EducationEntries(es), wrap);
      }
    }

    /** The two lines of one group: its title and its names. */
    method AddGroup(g: Group, wrap: Wrapper)
      modifies this
      ensures texts == old(texts) + GroupTexts(g, wrap)
    {
      AddWrappedText(g.cat + ":", wrap);
      AddWrappedText(Join(Names(g.list), ", "), wrap);
      Append3(old(texts), wrap(g.cat + ":"), wrap(Join(Names(g.list), ", ")));
    }

    /** The groups, each drawn in turn. */
    method AddGroups(groups: seq<Group>, wrap: Wrapper)
      modifies this
      ensures texts == old(texts) + GroupsTexts(groups, wrap)
    {
      for i := 0 to |groups|
        invariant texts == old(texts) + GroupsTexts(groups[..i], wrap)
      {
        GroupsTextsStep(groups, i, wrap);
        AddGroup(groups[i], wrap);
        Append3(old(texts), GroupsTexts(groups[..i], wrap), GroupTexts(groups[i], wrap));
      }
      assert groups[..|groups|] == groups;
    }

    method AddSkills(skills: seq<Skill>, le: (String, String) -> bool, wrap: Wrapper)
      modifies this
      ensures texts == old(texts) +
        (if |skills| > 0 then [Upper(SkillsHeading())] + GroupsTexts(GroupByCat(Some(skills), le), wrap) else [])
    {
      if |skills| == 0 {
        return;
      }
      AddSectionHeader(SkillsHeading());
      var groups := GroupByCat(Some(skills), le);
      AddGroups(groups, wrap);
      Append3(old(texts), [Upper(SkillsHeading())], GroupsTexts(groups, wrap));
    }

    method AddLanguages(ls: seq<Language>, wrap: Wrapper)
      modifies this
      ensures texts == old(texts) + (if |ls| > 0 then [Upper(LanguagesHeading())] + LanguagesTexts(ls, wrap) else [])
    {
      if |ls| == 0 {
        return;
      }
      AddSectionHeader(LanguagesHeading());
      ghost var start := texts;
      for i := 0 to |ls|
        invariant texts == start + LanguagesTexts(ls[..i], wrap)
      {
        assert ls[..i + 1][..i] == ls[..i];
        if Truthy(ls[i].name) {
          AddWrappedText(LanguageText(ls[i]), wrap);
          Append3(start, LanguagesTexts(ls[..i], wrap), wrap(LanguageText(ls[i])));
        }
      }
      assert ls[..|ls|] == ls;
      Append3(old(texts), [Upper(LanguagesHeading())], LanguagesTexts(ls, wrap));
    }

    /** `generatePDF`: the page ends up holding `Document(cv)`. */
    method Generate(cv: CVFormData, le: (String, String) -> bool)
      modifies this
      ensures texts == old(texts) + Document(cv, le, ProgramLines)
    {
      var p := cv.personalInfo;
      texts := texts + [OrEmpty(p.name)];
      AddWrappedText(ContactLine(p), ProgramLines);
      AddExperiences(cv.experiences, ProgramLines);
      AddEducations(cv.education, ProgramLines);
      AddSkills(cv.skills, le, ProgramLines);
      AddLanguages(cv.languages, ProgramLines);
      Append7(old(texts), [OrEmpty(p.name)], ProgramLines(ContactLine(p)),
        if |cv.experiences| > 0 then [Upper(ExperienceTitle(|cv.experiences|))] + EntriesTexts(ExperienceEntries(cv.experiences), ProgramLines) else [],
        if |cv.education| > 0 then [Upper(EducationTitle(|cv.education|))] + EntriesTexts(EducationEntries(cv.education), ProgramLines) else [],
        if |cv.skills| > 0 then [Upper(SkillsHeading())] + GroupsTexts(GroupByCat(Some(cv.skills), le), ProgramLines) else [],
        if |cv.languages| > 0 then [Upper(LanguagesHeading())] + LanguagesTexts(cv.languages, ProgramLines) else []);
    }
  }
}
