/** What `improveCompleteCV` does with the model's answer
    (lib/gemini/service.ts): the text is parsed as JSON, with a fallback
    that cuts the object out of surrounding text, and the parsed object is
    normalised by `validateAndFixCVStructure` into a complete CV record.

    JSON parsing itself is a parameter; the parsed object is given in the
    shape the normaliser reads: each top-level list is present only when it
    is an array. */
module GeminiFix {
  import opened Wrappers
  import opened Text
  import opened CvTypes

  /** The parsed answer: `personalInfo` may be missing, and a list that is
      not an array is `None`. */
  datatype AiCv = AiCv(
    personalInfo: Option<PersonalInfo>,
    experiences: Option<seq<Experience>>,
    education: Option<seq<Education>>,
    skills: Option<seq<Skill>>,
    languages: Option<seq<Language>>)

  /** `x.id || ...`: an id received as the empty string is falsy. */
  predicate IdTruthy(id: Option<Id>) {
    id.Some? && id.value != Given("")
  }

  /** `improved || original || ""`. */
  function Pick(improved: Option<String>, original: Option<String>): (r: Option<String>)
    ensures r.Some?
    ensures Truthy(improved) ==> r == improved
    ensures !Truthy(improved) && Truthy(original) ==> r == original
    ensures !Truthy(improved) && !Truthy(original) ==> r == Some("")
  {
    Some(OrEmpty(OrElse(improved, original)))
  }

  /** `x || d` for a string field with default `d`. */
  function OrDefault(x: Option<String>, d: String): (r: Option<String>)
    ensures Truthy(x) ==> r == x
    ensures !Truthy(x) ==> r == Some(d)
  {
    if Truthy(x) then x else Some(d)
  }

  function KeepId(id: Option<Id>, prefix: String, now: nat, index: nat): (r: Option<Id>)
    ensures IdTruthy(id) ==> r == id
    ensures !IdTruthy(id) ==> r == Some(TimeId(prefix, now, index))
  {
    if IdTruthy(id) then id else Some(TimeId(prefix, now, index))
  }

  function FixPersonal(improved: Option<PersonalInfo>, original: PersonalInfo): PersonalInfo {
    var p := improved.GetOr(NoPersonalInfo);
    PersonalInfo(Pick(p.name, original.name), Pick(p.email, original.email), Pick(p.phone, original.phone),
                 Pick(p.location, original.location), Pick(p.linkedin, original.linkedin), Pick(p.website, original.website))
  }

  function FixExperience(e: Experience, now: nat, index: nat): Experience {
    Experience(KeepId(e.id, "exp", now, index), OrDefault(e.company, ""), OrDefault(e.position, ""),
               OrDefault(e.location, ""), OrDefault(e.startDate, ""), OrDefault(e.endDate, ""),
               OrDefault(e.description, ""), Some(e.isCurrentPosition == Some(true)))
  }

  function FixEducation(e: Education, now: nat, index: nat): Education {
    Education(KeepId(e.id, "edu", now, index), OrDefault(e.institution, ""), OrDefault(e.degree, ""),
              OrDefault(e.field, ""), OrDefault(e.startDate, ""), OrDefault(e.endDate, ""), OrDefault(e.description, ""))
  }

  function FixSkill(s: Skill, now: nat, index: nat): Skill {
    Skill(KeepId(s.id, "skill", now, index), OrDefault(s.name, ""), OrDefault(s.category, "other"), OrDefault(s.level, "intermediate"))
  }

  function FixLanguage(l: Language, now: nat, index: nat): Language {
    Language(KeepId(l.id, "lang", now, index), OrDefault(l.name, ""), OrDefault(l.level, "B1"))
  }

  /** `Array.isArray(xs) ? xs.map((x, index) => fix(x, index)) : []`. */
  function MapIndexed<T, U>(xs: Option<seq<T>>, fix: (T, nat) -> U): (r: seq<U>)
    ensures xs.None? ==> r == []
    ensures xs.Some? ==> |r| == |xs.value| && forall i :: 0 <= i < |r| ==> r[i] == fix(xs.value[i], i)
  {
    if xs.None? then [] else seq(|xs.value|, (i: int) requires 0 <= i < |xs.value| => fix(xs.value[i], i))
  }

  /** `validateAndFixCVStructure`; `now` is `Date.now()`. */
  function FixCv(improved: AiCv, original: CVFormData, now: nat): CVFormData {
    CVFormData(
      FixPersonal(improved.personalInfo, original.personalInfo),
      MapIndexed(improved.experiences, (e: Experience, i: nat) => FixExperience(e, now, i)),
      MapIndexed(improved.education, (e: Education, i: nat) => FixEducation(e, now, i)),
      MapIndexed(improved.skills, (s: Skill, i: nat) => FixSkill(s, now, i)),
      MapIndexed(improved.languages, (l: Language, i: nat) => FixLanguage(l, now, i)))
  }

  /** Each personal field is the improved value when truthy, else the
      original when truthy, else "". */
  lemma FixPersonalFields(improved: AiCv, original: CVFormData, now: nat)
    ensures var p := improved.personalInfo.GetOr(NoPersonalInfo);
      var r := FixCv(improved, original, now).personalInfo;
      (Truthy(p.name) ==> r.name == p.name) &&
      (!Truthy(p.name) && Truthy(original.personalInfo.name) ==> r.name == original.personalInfo.name) &&
      (!Truthy(p.name) && !Truthy(original.personalInfo.name) ==> r.name == Some("")) &&
      r.email == Pick(p.email, original.personalInfo.email) && r.phone == Pick(p.phone, original.personalInfo.phone) &&
      r.location == Pick(p.location, original.personalInfo.location) &&
      r.linkedin == Pick(p.linkedin, original.personalInfo.linkedin) &&
      r.website == Pick(p.website, original.personalInfo.website)
  {
  }

  /** A list is [] when the answer's value is not an array, and otherwise
      keeps its length and order, item `i` normalised with index `i`. */
  lemma FixListsShape(improved: AiCv, original: CVFormData, now: nat)
    ensures var r := FixCv(improved, original, now);
      (improved.experiences.None? ==> r.experiences == []) &&
      (improved.experiences.Some? ==>
        (|r.experiences| == |improved.experiences.value| &&
         forall i :: 0 <= i < |r.experiences| ==> r.experiences[i] == FixExperience(improved.experiences.value[i], now, i))) &&
      (improved.education.None? ==> r.education == []) &&
      (improved.education.Some? ==> |r.education| == |improved.education.value|) &&
      (improved.skills.None? ==> r.skills == []) &&
      (improved.skills.Some? ==> |r.skills| == |improved.skills.value|) &&
      (improved.languages.None? ==> r.languages == []) &&
      (improved.languages.Some? ==> |r.languages| == |improved.languages.value|)
  {
  }

  /** The fixed record is complete: every item has an id and every string
      field, skills default to 'intermediate'/'other' and languages to 'B1',
      and a present id is kept while a missing one is `<prefix>-<now>-<index>`. */
  lemma FixedComplete(improved: AiCv, original: CVFormData, now: nat)
    ensures var r := FixCv(improved, original, now);
      (forall i :: 0 <= i < |r.experiences| ==> Complete(r.experiences[i])) &&
      (forall i :: 0 <= i < |r.skills| ==> r.skills[i].id.Some? && r.skills[i].level.Some? && r.skills[i].category.Some?) &&
      (forall i :: 0 <= i < |r.languages| ==> r.languages[i].id.Some? && r.languages[i].level.Some?)
  {
  }

  predicate Complete(e: Experience) {
    e.id.Some? && e.company.Some? && e.position.Some? && e.location.Some? && e.startDate.Some? &&
    e.endDate.Some? && e.description.Some? && e.isCurrentPosition.Some?
  }

  lemma SkillDefaults(s: Skill, now: nat, index: nat)
    ensures !Truthy(s.level) ==> FixSkill(s, now, index).level == Some("intermediate")
    ensures !Truthy(s.category) ==> FixSkill(s, now, index).category == Some("other")
    ensures Truthy(s.level) ==> FixSkill(s, now, index).level == s.level
    ensures IdTruthy(s.id) ==> FixSkill(s, now, index).id == s.id
    ensures !IdTruthy(s.id) ==> FixSkill(s, now, index).id == Some(TimeId("skill", now, index))
  {
  }

  /** The fixed record read back as an answer. */
  function AsAnswer(cv: CVFormData): AiCv {
    AiCv(Some(cv.personalInfo), Some(cv.experiences), Some(cv.education), Some(cv.skills), Some(cv.languages))
  }

  lemma {:induction false} FixExperienceTwice(e: Experience, now: nat, later: nat, i: nat, j: nat)
    ensures FixExperience(FixExperience(e, now, i), later, j) == FixExperience(e, now, i)
  {
    assert IdTruthy(FixExperience(e, now, i).id);
  }

  lemma {:induction false} FixEducationTwice(e: Education, now: nat, later: nat, i: nat, j: nat)
    ensures FixEducation(FixEducation(e, now, i), later, j) == FixEducation(e, now, i)
  {
    assert IdTruthy(FixEducation(e, now, i).id);
  }

  lemma {:induction false} FixSkillTwice(s: Skill, now: nat, later: nat, i: nat, j: nat)
    ensures FixSkill(FixSkill(s, now, i), later, j) == FixSkill(s, now, i)
  {
    assert IdTruthy(FixSkill(s, now, i).id);
  }

  lemma {:induction false} FixLanguageTwice(l: Language, now: nat, later: nat, i: nat, j: nat)
    ensures FixLanguage(FixLanguage(l, now, i), later, j) == FixLanguage(l, now, i)
  {
    assert IdTruthy(FixLanguage(l, now, i).id);
  }

  /** Normalising a normalised record again, at any later time, changes
      nothing: every id is now present and every field has its value. */
  lemma {:induction false} FixIdempotent(improved: AiCv, original: CVFormData, now: nat, later: nat)
    ensures FixCv(AsAnswer(FixCv(improved, original, now)), original, later) == FixCv(improved, original, now)
  {
    var r := FixCv(improved, original, now);
    var t := FixCv(AsAnswer(r), original, later);
    forall i | 0 <= i < |r.experiences| ensures t.experiences[i] == r.experiences[i] {
      FixExperienceTwice(improved.experiences.value[i], now, later, i, i);
    }
    forall i | 0 <= i < |r.education| ensures t.education[i] == r.education[i] {
      FixEducationTwice(improved.education.value[i], now, later, i, i);
    }
    forall i | 0 <= i < |r.skills| ensures t.skills[i] == r.skills[i] {
      FixSkillTwice(improved.skills.value[i], now, later, i, i);
    }
    forall i | 0 <= i < |r.languages| ensures t.languages[i] == r.languages[i] {
      FixLanguageTwice(improved.languages.value[i], now, later, i, i);
    }
  }

  // ---------------------------------------------------------------------
  // The answer text: direct parse, then the clean-and-slice fallback

  /** The first `replace`: an opening ```json fence and the blanks after
      it are dropped. */
  function DropFenceOpen(c: String): (r: String)
    ensures StartsWith(c, "```json") ==> r == TrimStart(c[7..])
    ensures !StartsWith(c, "```json") ==> r == c
  {
    if StartsWith(c, "```json") then TrimStart(c[7..]) else c
  }

  /** The second `replace`: a closing ``` fence is dropped with every blank
      before it, since the leftmost match starts at the first of them. */
  function DropFenceClose(c: String): (r: String)
    ensures EndsWith(c, "```") ==> r == TrimEnd(c[..|c| - 3])
    ensures !EndsWith(c, "```") ==> r == c
  {
    if EndsWith(c, "```") then TrimEnd(c[..|c| - 3]) else c
  }

  /** The first 200 characters, as `substring(0, 200)`. */
  function Preview(c: String): (r: String)
    ensures r <= c
    ensures |r| == if |c| <= 200 then |c| else 200
  {
    if |c| <= 200 then c else c[..200]
  }

  const NoJsonMessage := "Aucun JSON valide trouvé dans la réponse. Contenu: "
  const BadJsonMessage := "Impossible de parser le JSON retourné par Gemini. Contenu: "
  const EmptyAnswerMessage := "Aucun contenu généré par Gemini"
  const ImproveFailedPrefix := "Impossible d'améliorer le CV: "

  /** From the first '{' to the last '}' inclusive, when that last '}'
      comes after the first '{'. */
  function JsonSlice(content: String): (r: Result<String, String>)
  {
    var start := IndexOf(content, "{");
    var end := LastIndexOfChar(content, '}');
    if start.Some? && end.Some? && end.value + 1 > start.value then
      Ok(content[start.value..end.value + 1])
    else
      Err(NoJsonMessage + Preview(content) + "...")
  }

  /** The fallback's cleaned text. */
  function Cleaned(text: String): String {
    DropFenceClose(DropFenceOpen(Strip(text)))
  }

  /** A slice runs from a '{' with none before it to a '}' with none after
      it; there is no slice exactly when no '{' comes before some '}'. */
  lemma {:induction false} JsonSliceShape(content: String)
    ensures JsonSlice(content).Ok? ==>
      var c := JsonSlice(content).value;
      |c| >= 2 && c[0] == '{' && c[|c| - 1] == '}' && IndexOf(content, "{").Some? &&
      var a := IndexOf(content, "{").value;
      a + |c| <= |content| && content[a..a + |c|] == c &&
      (forall k :: 0 <= k < a ==> content[k] != '{') &&
      (forall k :: a + |c| <= k < |content| ==> content[k] != '}')
    ensures JsonSlice(content).Err? <==>
      !exists i, j :: 0 <= i < j < |content| && content[i] == '{' && content[j] == '}'
  {
    IndexOfLeftmost(content, "{");
    var start := IndexOf(content, "{");
    var end := LastIndexOfChar(content, '}');
    if start.Some? && end.Some? && end.value + 1 > start.value {
      var a := start.value;
      assert content[a..a + 1] == "{";
      var c := content[a..end.value + 1];
      assert content[a..a + |c|] == c;
      forall k | 0 <= k < a ensures content[k] != '{' {
        assert !OccursAt(content, "{", k);
        assert content[k..k + 1] == [content[k]];
      }
    } else {
      forall i, j | 0 <= i < j < |content| && content[i] == '{' ensures content[j] != '}' {
        assert content[i..i + 1] == "{";
        assert OccursAt(content, "{", i);
      }
    }
  }

  /** The parse with its fallback: the trimmed answer, else the object cut
      out of the cleaned answer; `parse` stands for `JSON.parse`. */
  function ParseAnswer(text: String, parse: String -> Option<AiCv>): Result<AiCv, String> {
    match parse(Strip(text))
    case Some(cv) => Ok(cv)
    case None =>
      match JsonSlice(Cleaned(text))
      case Err(m) => Err(m)
      case Ok(content) =>
        match parse(content)
        case Some(cv) => Ok(cv)
        case None => Err(BadJsonMessage + Preview(content) + "...")
  }

  /** `improveCompleteCV` after the model call: `text` is the answer, an
      empty one fails, and every failure comes back with the prefix of the
      outer `catch`. */
  function ImproveResult(text: Option<String>, parse: String -> Option<AiCv>, original: CVFormData, now: nat): Result<CVFormData, String> {
    if !Truthy(text) then Err(ImproveFailedPrefix + EmptyAnswerMessage)
    else
      match ParseAnswer(text.value, parse)
      case Ok(cv) => Ok(FixCv(cv, original, now))
      case Err(m) => Err(ImproveFailedPrefix + m)
  }

  lemma PrefixStarts(a: String, b: String)
    ensures StartsWith(a + b, a)
  {
    assert (a + b)[..|a|] == a;
  }

  /** Every failure carries the prefix, and an empty answer fails with the
      empty-answer message; a success is the normalised parsed answer. */
  lemma ImproveOutcomes(text: Option<String>, parse: String -> Option<AiCv>, original: CVFormData, now: nat)
    ensures ImproveResult(text, parse, original, now).Err? ==> StartsWith(ImproveResult(text, parse, original, now).error, ImproveFailedPrefix)
    ensures !Truthy(text) ==> ImproveResult(text, parse, original, now) == Err(ImproveFailedPrefix + EmptyAnswerMessage)
    ensures ImproveResult(text, parse, original, now).Ok? ==>
      Truthy(text) && ParseAnswer(text.value, parse).Ok? &&
      ImproveResult(text, parse, original, now).value == FixCv(ParseAnswer(text.value, parse).value, original, now)
  {
    if !Truthy(text) {
      PrefixStarts(ImproveFailedPrefix, EmptyAnswerMessage);
    } else if ParseAnswer(text.value, parse).Err? {
      PrefixStarts(ImproveFailedPrefix, ParseAnswer(text.value, parse).error);
    }
  }

  /** The cleaning only cuts characters away. */
  lemma CleanedAvoids(text: String, c: char)
    requires c !in text
    ensures c !in Cleaned(text)
  {
    var t := Strip(text);
    TrimStartSuffix(text);
    TrimEndPrefix(TrimStart(text));
    assert c !in TrimStart(text);
    assert c !in t;
    var o := DropFenceOpen(t);
    if StartsWith(t, "```json") {
      TrimStartSuffix(t[7..]);
      assert c !in t[7..];
    }
    assert c !in o;
    if EndsWith(o, "```") {
      TrimEndPrefix(o[..|o| - 3]);
      assert c !in o[..|o| - 3];
    }
  }

  /** An answer that is not JSON and holds no '{' fails with the
      no-JSON message. */
  lemma NoBraceFails(text: String, parse: String -> Option<AiCv>, original: CVFormData, now: nat)
    requires text != "" && '{' !in text && parse(Strip(text)).None?
    ensures ParseAnswer(text, parse) == Err(NoJsonMessage + Preview(Cleaned(text)) + "...")
    ensures ImproveResult(Some(text), parse, original, now) == Err(ImproveFailedPrefix + ParseAnswer(text, parse).error)
  {
    CleanedAvoids(text, '{');
    JsonSliceShape(Cleaned(text));
  }
}
