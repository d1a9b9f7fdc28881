/** The CV form editor `useCVForm` (lib/hooks/useCVForm.ts): one form
    record that every handler replaces, list editors for the four entry
    lists, the merge of parsed data into the form, and the validation that
    opens `handleSubmitComplete`. */
module CvForm {
  import opened Wrappers
  import opened Text
  import opened CvTypes

  // ---------------------------------------------------------------------
  // Field access: `{ ...entry, [field]: value }`

  datatype PersonalField = Name | Email | Phone | Location | Linkedin | Website

  function PersonalGet(p: PersonalInfo, f: PersonalField): Option<String> {
    match f
    case Name => p.name
    case Email => p.email
    case Phone => p.phone
    case Location => p.location
    case Linkedin => p.linkedin
    case Website => p.website
  }

  function PersonalSet(p: PersonalInfo, f: PersonalField, v: String): (r: PersonalInfo)
    ensures PersonalGet(r, f) == Some(v)
    ensures forall g :: g != f ==> PersonalGet(r, g) == PersonalGet(p, g)
  {
    match f
    case Name => p.(name := Some(v))
    case Email => p.(email := Some(v))
    case Phone => p.(phone := Some(v))
    case Location => p.(location := Some(v))
    case Linkedin => p.(linkedin := Some(v))
    case Website => p.(website := Some(v))
  }

  /** The editable keys of an experience; `isCurrentPosition` takes a
      boolean, the others a string. */
  datatype ExperienceField = Company | Position | Place | StartDate | EndDate | Description | IsCurrentPosition

  datatype Value = Text(text: String) | Flag(flag: bool)

  /** A value of the type the key holds. */
  predicate Fits(f: ExperienceField, v: Value) {
    (f == IsCurrentPosition) == v.Flag?
  }

  function ExperienceGet(e: Experience, f: ExperienceField): Option<Value> {
    var text := (s: Option<String>) => if s.Some? then Some(Text(s.value)) else None;
    match f
    case Company => text(e.company)
    case Position => text(e.position)
    case Place => text(e.location)
    case StartDate => text(e.startDate)
    case EndDate => text(e.endDate)
    case Description => text(e.description)
    case IsCurrentPosition => if e.isCurrentPosition.Some? then Some(Flag(e.isCurrentPosition.value)) else None
  }

  function ExperienceSet(e: Experience, f: ExperienceField, v: Value): (r: Experience)
    requires Fits(f, v)
    ensures ExperienceGet(r, f) == Some(v)
    ensures forall g :: g != f ==> ExperienceGet(r, g) == ExperienceGet(e, g)
    ensures r.id == e.id
  {
    match f
    case Company => e.(company := Some(v.text))
    case Position => e.(position := Some(v.text))
    case Place => e.(location := Some(v.text))
    case StartDate => e.(startDate := Some(v.text))
    case EndDate => e.(endDate := Some(v.text))
    case Description => e.(description := Some(v.text))
    case IsCurrentPosition => e.(isCurrentPosition := Some(v.flag))
  }

  datatype EducationField = Institution | Degree | Subject | EducationStart | EducationEnd | EducationDescription

  function EducationGet(e: Education, f: EducationField): Option<String> {
    match f
    case Institution => e.institution
    case Degree => e.degree
    case Subject => e.field
    case EducationStart => e.startDate
    case EducationEnd => e.endDate
    case EducationDescription => e.description
  }

  function EducationSet(e: Education, f: EducationField, v: String): (r: Education)
    ensures EducationGet(r, f) == Some(v)
    ensures forall g :: g != f ==> EducationGet(r, g) == EducationGet(e, g)
    ensures r.id == e.id
  {
    match f
    case Institution => e.(institution := Some(v))
    case Degree => e.(degree := Some(v))
    case Subject => e.(field := Some(v))
    case EducationStart => e.(startDate := Some(v))
    case EducationEnd => e.(endDate := Some(v))
    case EducationDescription => e.(description := Some(v))
  }

  datatype SkillField = SkillName | Category | SkillLevel

  function SkillGet(s: Skill, f: SkillField): Option<String> {
    match f
    case SkillName => s.name
    case Category => s.category
    case SkillLevel => s.level
  }

  function SkillSet(s: Skill, f: SkillField, v: String): (r: Skill)
    ensures SkillGet(r, f) == Some(v)
    ensures forall g :: g != f ==> SkillGet(r, g) == SkillGet(s, g)
    ensures r.id == s.id
  {
    match f
    case SkillName => s.(name := Some(v))
    case Category => s.(category := Some(v))
    case SkillLevel => s.(level := Some(v))
  }

  datatype LanguageField = LanguageName | LanguageLevel

  function LanguageGet(l: Language, f: LanguageField): Option<String> {
    match f
    case LanguageName => l.name
    case LanguageLevel => l.level
  }

  function LanguageSet(l: Language, f: LanguageField, v: String): (r: Language)
    ensures LanguageGet(r, f) == Some(v)
    ensures forall g :: g != f ==> LanguageGet(r, g) == LanguageGet(l, g)
    ensures r.id == l.id
  {
    match f
    case LanguageName => l.(name := Some(v))
    case LanguageLevel => l.(level := Some(v))
  }

  // ---------------------------------------------------------------------
  // List editing

  /** `const copy = [...xs]; copy[index] = { ...copy[index], [field]: value }`
      as a function `edit` of the old entry: a negative index writes a
      property that is no element, the index one past the end appends a new
      entry holding only that key (the spread of `undefined` is `{}`). An
      index further out would leave holes and is not modelled. */
  function UpdateAt<T>(xs: seq<T>, index: int, edit: T -> T, blank: T): (r: seq<T>)
    requires index <= |xs|
  {
    if index < 0 then xs
    else if index < |xs| then xs[index := edit(xs[index])]
    else xs + [edit(blank)]
  }

  /** `xs.filter((_, i) => i !== index)`, position by position from `k`. */
  function FilterIndex<T>(xs: seq<T>, index: int, k: nat): (r: seq<T>)
    requires k <= |xs|
    decreases |xs| - k
  {
    if k == |xs| then []
    else (if k == index then [] else [xs[k]]) + FilterIndex(xs, index, k + 1)
  }

  function RemoveAt<T>(xs: seq<T>, index: int): seq<T> {
    FilterIndex(xs, index, 0)
  }

  /** Removing keeps the other entries in order and drops exactly entry
      `index`; the list is unchanged when `index` is out of range. */
  lemma {:induction false} FilterIndexSlices<T>(xs: seq<T>, index: int, k: nat)
    requires k <= |xs|
    ensures FilterIndex(xs, index, k) == if k <= index < |xs| then xs[k..index] + xs[index + 1..] else xs[k..]
    decreases |xs| - k
  {
    if k < |xs| {
      var rest := FilterIndex(xs, index, k + 1);
      FilterIndexSlices(xs, index, k + 1);
      if k == index {
        assert FilterIndex(xs, index, k) == rest;
        assert rest == xs[index + 1..];
        assert xs[k..index] == [];
      } else if k < index < |xs| {
        assert FilterIndex(xs, index, k) == [xs[k]] + rest;
        assert rest == xs[k + 1..index] + xs[index + 1..];
        assert xs[k..index] == [xs[k]] + xs[k + 1..index];
      } else {
        assert FilterIndex(xs, index, k) == [xs[k]] + rest;
        assert rest == xs[k + 1..];
        assert xs[k..] == [xs[k]] + xs[k + 1..];
      }
    }
  }

  lemma RemoveAtSpec<T>(xs: seq<T>, index: int)
    ensures 0 <= index < |xs| ==> RemoveAt(xs, index) == xs[..index] + xs[index + 1..] && |RemoveAt(xs, index)| == |xs| - 1
    ensures !(0 <= index < |xs|) ==> RemoveAt(xs, index) == xs
  {
    FilterIndexSlices(xs, index, 0);
  }

  /** An update in range changes only entry `index`, through `edit`. */
  lemma UpdateAtSpec<T>(xs: seq<T>, index: int, edit: T -> T, blank: T)
    requires index <= |xs|
    ensures 0 <= index < |xs| ==>
      (|UpdateAt(xs, index, edit, blank)| == |xs| &&
       UpdateAt(xs, index, edit, blank)[index] == edit(xs[index]) &&
       forall j :: 0 <= j < |xs| && j != index ==> UpdateAt(xs, index, edit, blank)[j] == xs[j])
    ensures index == |xs| ==> UpdateAt(xs, index, edit, blank) == xs + [edit(blank)]
    ensures index < 0 ==> UpdateAt(xs, index, edit, blank) == xs
  {
  }

  // ---------------------------------------------------------------------
  // The handlers on the form record

  const EmptyText: Option<String> := Some("")

  const InitialPersonal := PersonalInfo(EmptyText, EmptyText, EmptyText, EmptyText, EmptyText, EmptyText)

  const InitialData := CVFormData(InitialPersonal, [], [], [], [])

  /** The entries the add handlers append; `now` is `Date.now()`. */
  function NewExperience(now: nat): Experience {
    Experience(Some(ClockId(now)), EmptyText, EmptyText, EmptyText, EmptyText, EmptyText, EmptyText, Some(false))
  }

  function NewEducation(now: nat): Education {
    Education(Some(ClockId(now)), EmptyText, EmptyText, EmptyText, EmptyText, EmptyText, EmptyText)
  }

  function NewSkill(now: nat): Skill {
    Skill(Some(ClockId(now)), EmptyText, Some("technical"), Some("intermediate"))
  }

  function NewLanguage(now: nat): Language {
    Language(Some(ClockId(now)), EmptyText, Some("B1"))
  }

  const BlankExperience := Experience(None, None, None, None, None, None, None, None)
  const BlankEducation := Education(None, None, None, None, None, None, None)
  const BlankSkill := Skill(None, None, None, None)
  const BlankLanguage := Language(None, None, None)

  /** `loadParsedData`: each personal field is the parsed one when truthy,
      else the form's; each list is the parsed one when non-empty, else the
      form's. */
  function Merge(form: CVFormData, parsed: CVFormData): CVFormData {
    var p := parsed.personalInfo;
    var f := form.personalInfo;
    CVFormData(
      PersonalInfo(OrElse(p.name, f.name), OrElse(p.email, f.email), OrElse(p.phone, f.phone),
                   OrElse(p.location, f.location), OrElse(p.linkedin, f.linkedin), OrElse(p.website, f.website)),
      if |parsed.experiences| > 0 then parsed.experiences else form.experiences,
      if |parsed.education| > 0 then parsed.education else form.education,
      if |parsed.skills| > 0 then parsed.skills else form.skills,
      if |parsed.languages| > 0 then parsed.languages else form.languages)
  }

  /** The merge field by field. */
  lemma MergeFields(form: CVFormData, parsed: CVFormData, g: PersonalField)
    ensures var m := Merge(form, parsed);
      (Truthy(PersonalGet(parsed.personalInfo, g)) ==> PersonalGet(m.personalInfo, g) == PersonalGet(parsed.personalInfo, g)) &&
      (!Truthy(PersonalGet(parsed.personalInfo, g)) ==> PersonalGet(m.personalInfo, g) == PersonalGet(form.personalInfo, g)) &&
      (m.experiences == if parsed.experiences != [] then parsed.experiences else form.experiences) &&
      (m.education == if parsed.education != [] then parsed.education else form.education) &&
      (m.skills == if parsed.skills != [] then parsed.skills else form.skills) &&
      (m.languages == if parsed.languages != [] then parsed.languages else form.languages)
  {
    match g
    case Name =>
    case Email =>
    case Phone =>
    case Location =>
    case Linkedin =>
    case Website =>
  }

  /** Loading a parse that found nothing keeps the form; loading the same
      parse twice is loading it once. */
  lemma MergeNothing(form: CVFormData)
    ensures Merge(form, EmptyCV) == form
  {
  }

  lemma MergeIdempotent(form: CVFormData, parsed: CVFormData)
    ensures Merge(Merge(form, parsed), parsed) == Merge(form, parsed)
  {
  }

  /** The two checks before the submission proper: name first, then email. */
  function SubmitError(p: PersonalInfo): (r: Option<String>)
    ensures r.None? <==> Truthy(p.name) && Truthy(p.email)
    ensures !Truthy(p.name) ==> r == Some("Le nom est requis pour générer le CV")
    ensures Truthy(p.name) && !Truthy(p.email) ==> r == Some("L'email est requis pour générer le CV")
  {
    if !Truthy(p.name) then Some("Le nom est requis pour générer le CV")
    else if !Truthy(p.email) then Some("L'email est requis pour générer le CV")
    else None
  }

  /** The hook's state: the form record and the submission flags. */
  class Form {
    var personalInfo: PersonalInfo
    var experiences: seq<Experience>
    var education: seq<Education>
    var skills: seq<Skill>
    var languages: seq<Language>
    var isSubmitting: bool
    var showToast: bool
    var showCard: bool
    var error: String

    function Data(): CVFormData
      reads this
    {
      CVFormData(personalInfo, experiences, education, skills, languages)
    }

    /** Six empty personal strings, four empty lists, and cleared flags. */
    constructor()
      ensures Data() == InitialData
      ensures !isSubmitting && !showToast && !showCard && error == ""
    {
      personalInfo := InitialPersonal;
      experiences := [];
      education := [];
      skills := [];
      languages := [];
      isSubmitting := false;
      showToast := false;
      showCard := false;
      error := "";
    }

    method UpdatePersonalInfo(field: PersonalField, value: String)
      modifies this
      ensures personalInfo == PersonalSet(old(personalInfo), field, value)
      ensures experiences == old(experiences) && education == old(education)
      ensures skills == old(skills) && languages == old(languages)
      ensures isSubmitting == old(isSubmitting) && showToast == old(showToast) && showCard == old(showCard) && error == old(error)
    {
      personalInfo := PersonalSet(personalInfo, field, value);
    }

    method AddExperience(now: nat)
      modifies this`experiences
      ensures experiences == old(experiences) + [NewExperience(now)]
    {
      experiences := experiences + [NewExperience(now)];
    }

    method UpdateExperience(index: int, field: ExperienceField, value: Value)
      requires index <= |experiences| && Fits(field, value)
      modifies this`experiences
      ensures experiences == UpdateAt(old(experiences), index, (e: Experience) => ExperienceSet(e, field, value), BlankExperience)
    {
      var updated := experiences;
      if 0 <= index < |updated| {
        updated := updated[index := ExperienceSet(updated[index], field, value)];
      } else if index == |updated| {
        updated := updated + [ExperienceSet(BlankExperience, field, value)];
      }
      experiences := updated;
    }

    method RemoveExperience(index: int)
      modifies this`experiences
      ensures experiences == RemoveAt(old(experiences), index)
    {
      experiences := RemoveAt(experiences, index);
    }

    method AddEducation(now: nat)
      modifies this`education
      ensures education == old(education) + [NewEducation(now)]
    {
      education := education + [NewEducation(now)];
    }

    method UpdateEducation(index: int, field: EducationField, value: String)
      requires index <= |education|
      modifies this`education
      ensures education == UpdateAt(old(education), index, (e: Education) => EducationSet(e, field, value), BlankEducation)
    {
      var updated := education;
      if 0 <= index < |updated| {
        updated := updated[index := EducationSet(updated[index], field, value)];
      } else if index == |updated| {
        updated := updated + [EducationSet(BlankEducation, field, value)];
      }
      education := updated;
    }

    method RemoveEducation(index: int)
      modifies this`education
      ensures education == RemoveAt(old(education), index)
    {
      education := RemoveAt(education, index);
    }

    method AddSkill(now: nat)
      modifies this`skills
      ensures skills == old(skills) + [NewSkill(now)]
    {
      skills := skills + [NewSkill(now)];
    }

    method UpdateSkill(index: int, field: SkillField, value: String)
      requires index <= |skills|
      modifies this`skills
      ensures skills == UpdateAt(old(skills), index, (s: Skill) => SkillSet(s, field, value), BlankSkill)
    {
      var updated := skills;
      if 0 <= index < |updated| {
        updated := updated[index := SkillSet(updated[index], field, value)];
      } else if index == |updated| {
        updated := updated + [SkillSet(BlankSkill, field, value)];
      }
      skills := updated;
    }

    method RemoveSkill(index: int)
      modifies this`skills
      ensures skills == RemoveAt(old(skills), index)
    {
      skills := RemoveAt(skills, index);
    }

    method AddLanguage(now: nat)
      modifies this`languages
      ensures languages == old(languages) + [NewLanguage(now)]
    {
      languages := languages + [NewLanguage(now)];
    }

    method UpdateLanguage(index: int, field: LanguageField, value: String)
      requires index <= |languages|
      modifies this`languages
      ensures languages == UpdateAt(old(languages), index, (l: Language) => LanguageSet(l, field, value), BlankLanguage)
    {
      var updated := languages;
      if 0 <= index < |updated| {
        updated := updated[index := LanguageSet(updated[index], field, value)];
      } else if index == |updated| {
        updated := updated + [LanguageSet(BlankLanguage, field, value)];
      }
      languages := updated;
    }

    method RemoveLanguage(index: int)
      modifies this`languages
      ensures languages == RemoveAt(old(languages), index)
    {
      languages := RemoveAt(languages, index);
    }

    method LoadParsedData(parsed: CVFormData)
      modifies this`personalInfo, this`experiences, this`education, this`skills, this`languages
      ensures Data() == Merge(old(Data()), parsed)
    {
      var merged := Merge(Data(), parsed);
      personalInfo := merged.personalInfo;
      experiences := merged.experiences;
      education := merged.education;
      skills := merged.skills;
      languages := merged.languages;
    }

    /** The opening of `handleSubmitComplete`: the error is cleared and the
        form marked as submitting, then a missing name or email stops it
        with a message and the toast shown, `isSubmitting` left true.
        `proceed` says whether the authentication and generation steps,
        which are not modelled, would run. */
    method SubmitComplete() returns (proceed: bool)
      modifies this`error, this`showToast, this`isSubmitting
      ensures isSubmitting
      ensures proceed <==> SubmitError(personalInfo).None?
      ensures proceed ==> error == "" && !showToast
      ensures !proceed ==> error == SubmitError(personalInfo).value && showToast
    {
      error := "";
      showToast := false;
      isSubmitting := true;
      if !Truthy(personalInfo.name) {
        error := "Le nom est requis pour générer le CV";
        showToast := true;
        return false;
      }
      if !Truthy(personalInfo.email) {
        error := "L'email est requis pour générer le CV";
        showToast := true;
        return false;
      }
      return true;
    }
  }
}
