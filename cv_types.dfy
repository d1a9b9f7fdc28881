/** The CV record shared by the parsers, the form, the AI normaliser and the
    PDF generator.  Every field of the TypeScript `Partial<...>` form types
    is optional, so each is an `Option`; the Python extractors build the same
    record as dictionaries whose missing keys are `None` here. */
module CvTypes {
  import opened Wrappers
  import opened Text

  /** Identifiers are opaque: Python `hash()`, `Date.now()` and `Math.random()`
      are not modelled, only what an id is built from. */
  datatype Id =
    | HashId(prefix: String, key: String, ordinal: nat)   // f"{prefix}-{hash(key)}-{ordinal}"
    | TimeId(prefix: String, time: nat, ordinal: nat)      // `${prefix}-${Date.now()}-${index}`
    | ClockId(time: nat)                                   // Date.now().toString()
    | Given(value: String)                                 // an id received from outside
    | Unique(ordinal: nat)                                 // generateUniqueId(): clock and random digits

  datatype PersonalInfo = PersonalInfo(
    name: Option<String>,
    email: Option<String>,
    phone: Option<String>,
    location: Option<String>,
    linkedin: Option<String>,
    website: Option<String>)

  datatype Experience = Experience(
    id: Option<Id>,
    company: Option<String>,
    position: Option<String>,
    location: Option<String>,
    startDate: Option<String>,
    endDate: Option<String>,
    description: Option<String>,
    isCurrentPosition: Option<bool>)

  datatype Education = Education(
    id: Option<Id>,
    institution: Option<String>,
    degree: Option<String>,
    field: Option<String>,
    startDate: Option<String>,
    endDate: Option<String>,
    description: Option<String>)

  datatype Skill = Skill(
    id: Option<Id>,
    name: Option<String>,
    category: Option<String>,
    level: Option<String>)

  datatype Language = Language(
    id: Option<Id>,
    name: Option<String>,
    level: Option<String>)

  datatype CVFormData = CVFormData(
    personalInfo: PersonalInfo,
    experiences: seq<Experience>,
    education: seq<Education>,
    skills: seq<Skill>,
    languages: seq<Language>)

  /** `{}`: a personal-info object with no key. */
  const NoPersonalInfo := PersonalInfo(None, None, None, None, None, None)

  /** The record with no information at all. */
  const EmptyCV := CVFormData(NoPersonalInfo, [], [], [], [])

  /** JavaScript truthiness of an optional string: present and non-empty. */
  predicate Truthy(s: Option<String>) {
    s.Some? && s.value != ""
  }

  /** `a || b` on optional strings. */
  function OrElse(a: Option<String>, b: Option<String>): (r: Option<String>)
    ensures Truthy(a) ==> r == a
    ensures !Truthy(a) ==> r == b
  {
    if Truthy(a) then a else b
  }

  /** `s || ""`. */
  function OrEmpty(s: Option<String>): (r: String)
    ensures Truthy(s) ==> r == s.value
    ensures !Truthy(s) ==> r == ""
  {
    if s.Some? then s.value else ""
  }
}
