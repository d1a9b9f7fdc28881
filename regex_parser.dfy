/** The TypeScript résumé parser `parseCVText` (lib/utils/parseCVregex.ts):
    the text is cut at the first occurrence of each section heading, and
    each slice goes to a list builder of its own.

    The heading, date-range, entry-splitting and language patterns are
    written out as recognisers over the lower-cased text (the `i` flag);
    only the email, phone, LinkedIn and website patterns stay abstract. */
module RegexParser {
  import opened Wrappers
  import opened Text
  import opened CvTypes
  import opened Search

  // ---------------------------------------------------------------------
  // The literal tables of the patterns

  /** The alternatives of the case-insensitive patterns, lower-cased.  The
      experience heading's optional `(\s+(professionnelles?|history))?` tail
      and the optional plural `s` do not move where a match starts, so only
      the words that can start a match are listed. */
  datatype RegexRules = RegexRules(
    experienceHeads: seq<String>,
    educationHeads: seq<String>,
    skillsHeads: seq<String>,
    languagesHeads: seq<String>,
    months: seq<String>,
    presentWords: seq<String>,
    levelCodes: seq<String>)

  const Rules := RegexRules(
    ["expérience", "experience", "work", "employment"],
    ["formation", "education", "studies", "academic"],
    ["compétences", "competences", "skills", "abilities", "expertise"],
    ["langues", "languages", "linguistic"],
    ["janvier", "février", "mars", "avril", "mai", "juin", "juillet", "août", "septembre",
     "octobre", "novembre", "décembre", "jan", "fév", "mar", "avr", "mai", "juin", "juil",
     "aoû", "sep", "oct", "nov", "déc"],
    ["aujourd'hui", "présent", "en cours", "current"],
    ["b1", "b2", "c1", "c2", "a1", "a2", "natif", "native"])

  // ---------------------------------------------------------------------
  // Headings: `text.match(REGEX_HEADING_...)` and its `index`

  /** A match of a heading pattern: where it starts and which word it is. */
  datatype HeadingMatch = HeadingMatch(index: nat, word: String)

  /** The first word of `ws[k..]` that occurs at position `i` of `l`
      (alternatives are tried in order). */
  function WordAtFrom(l: String, ws: seq<String>, i: nat, k: nat): (r: Option<String>)
    requires k <= |ws|
    ensures r.Some? ==> r.value in ws && OccursAt(l, r.value, i)
    decreases |ws| - k
  {
    if k == |ws| then None
    else if OccursAt(l, ws[k], i) then Some(ws[k])
    else WordAtFrom(l, ws, i, k + 1)
  }

  /** No word occurs at `i` when the alternatives all fail there. */
  lemma {:induction false} WordAtNone(l: String, ws: seq<String>, i: nat, k: nat)
    requires k <= |ws|
    requires WordAtFrom(l, ws, i, k).None?
    ensures forall j :: k <= j < |ws| ==> !OccursAt(l, ws[j], i)
    decreases |ws| - k
  {
    if k < |ws| {
      WordAtNone(l, ws, i, k + 1);
    }
  }

  /** The leftmost match of the alternatives `ws` at or after `i`. */
  function HeadingFrom(l: String, ws: seq<String>, i: nat): (r: Option<HeadingMatch>)
    ensures r.Some? ==> i <= r.value.index && r.value.word in ws && OccursAt(l, r.value.word, r.value.index)
    decreases |l| + 1 - i
  {
    if i > |l| then None
    else match WordAtFrom(l, ws, i, 0)
      case Some(w) => Some(HeadingMatch(i, w))
      case None => HeadingFrom(l, ws, i + 1)
  }

  /** The match is the leftmost one, and there is no match only when no
      alternative occurs anywhere. */
  lemma {:induction false} HeadingLeftmost(l: String, ws: seq<String>, i: nat)
    ensures var r := HeadingFrom(l, ws, i);
      r.Some? ==> forall j, k :: i <= j < r.value.index && 0 <= k < |ws| ==> !OccursAt(l, ws[k], j)
    ensures HeadingFrom(l, ws, i).None? ==> forall j, k :: i <= j && 0 <= k < |ws| ==> !OccursAt(l, ws[k], j)
    decreases |l| + 1 - i
  {
    if i <= |l| {
      var w := WordAtFrom(l, ws, i, 0);
      if w.None? {
        WordAtNone(l, ws, i, 0);
        HeadingLeftmost(l, ws, i + 1);
      }
    }
  }

  /** `text.match(regex)` with the `i` flag. */
  function HeadingIn(text: String, ws: seq<String>): (r: Option<HeadingMatch>)
    ensures r.Some? ==> r.value.index + |r.value.word| <= |text|
  {
    HeadingFrom(Lower(text), ws, 0)
  }

  // ---------------------------------------------------------------------
  // splitTextIntoSections

  datatype SectionKey = ExperienceKey | EducationKey | SkillsKey | LanguagesKey

  /** The `j`-th key of the `sections` record, in the order `for ... in`
      visits them. */
  function KeyAt(j: nat): SectionKey
    requires j < 4
  {
    if j == 0 then ExperienceKey else if j == 1 then EducationKey else if j == 2 then SkillsKey else LanguagesKey
  }

  function HeadsOf(rules: RegexRules, k: SectionKey): seq<String> {
    match k
    case ExperienceKey => rules.experienceHeads
    case EducationKey => rules.educationHeads
    case SkillsKey => rules.skillsHeads
    case LanguagesKey => rules.languagesHeads
  }

  /** The start of the first heading of kind `k`; `None` is the record's -1. */
  function HeadingIndex(rules: RegexRules, k: SectionKey, text: String): (r: Option<nat>)
    ensures r.Some? ==> r.value <= |text|
  {
    match HeadingIn(text, HeadsOf(rules, k))
    case None => None
    case Some(m) => Some(m.index)
  }

  /** An entry `[key, {regex, index}]` that survived the filter. */
  datatype Heading = Heading(key: SectionKey, index: nat)

  /** The filter `data.index !== -1` over the first `|indices|` keys,
      keeping the record's order. */
  function FoundIn(indices: seq<Option<nat>>): (r: seq<Heading>)
    requires |indices| <= 4
    ensures |r| <= |indices|
  {
    if indices == [] then []
    else
      var n := |indices| - 1;
      FoundIn(indices[..n]) + (if indices[n].Some? then [Heading(KeyAt(n), indices[n].value)] else [])
  }

  /** A heading is kept exactly when its record entry has an index. */
  lemma {:induction false} FoundInMembers(indices: seq<Option<nat>>)
    requires |indices| <= 4
    ensures forall h :: h in FoundIn(indices) <==>
      exists j :: 0 <= j < |indices| && KeyAt(j) == h.key && indices[j] == Some(h.index)
  {
    if indices != [] {
      var n := |indices| - 1;
      FoundInMembers(indices[..n]);
      forall h ensures h in FoundIn(indices) <==>
        exists j :: 0 <= j < |indices| && KeyAt(j) == h.key && indices[j] == Some(h.index)
      {
        if h in FoundIn(indices) && h !in FoundIn(indices[..n]) {
          assert KeyAt(n) == h.key && indices[n] == Some(h.index);
        }
        if exists j :: 0 <= j < |indices| && KeyAt(j) == h.key && indices[j] == Some(h.index) {
          var j :| 0 <= j < |indices| && KeyAt(j) == h.key && indices[j] == Some(h.index);
          if j < n {
            assert indices[..n][j] == Some(h.index);
          }
        }
      }
    }
  }

  /** Nothing survives the filter when no entry has an index. */
  lemma {:induction false} FoundInNone(indices: seq<Option<nat>>)
    requires |indices| <= 4
    requires forall j :: 0 <= j < |indices| ==> indices[j].None?
    ensures FoundIn(indices) == []
  {
    if indices != [] {
      FoundInNone(indices[..|indices| - 1]);
    }
  }

  predicate DistinctKeys(hs: seq<Heading>) {
    forall i, j :: 0 <= i < j < |hs| ==> hs[i].key != hs[j].key
  }

  /** The filter keeps the keys distinct. */
  lemma {:induction false} FoundInDistinct(indices: seq<Option<nat>>)
    requires |indices| <= 4
    ensures DistinctKeys(FoundIn(indices))
  {
    if indices != [] {
      var n := |indices| - 1;
      FoundInDistinct(indices[..n]);
      FoundInMembers(indices[..n]);
      var front := FoundIn(indices[..n]);
      forall i | 0 <= i < |front| ensures front[i].key != KeyAt(n) {
        assert front[i] in front;
        var j :| 0 <= j < n && KeyAt(j) == front[i].key && indices[..n][j] == Some(front[i].index);
      }
    }
  }

  predicate SortedByIndex(hs: seq<Heading>) {
    forall i, j :: 0 <= i < j < |hs| ==> hs[i].index <= hs[j].index
  }

  /** One step of a stable sort: `h` goes after every heading whose index
      is not greater than its own. */
  function Insert(h: Heading, hs: seq<Heading>): (r: seq<Heading>)
    ensures |r| == |hs| + 1
    ensures multiset(r) == multiset(hs) + multiset{h}
  {
    if hs == [] then [h]
    else if h.index < hs[0].index then [h] + hs
    else
      assert hs == [hs[0]] + hs[1..];
      [hs[0]] + Insert(h, hs[1..])
  }

  lemma {:induction false} InsertSorted(h: Heading, hs: seq<Heading>)
    requires SortedByIndex(hs)
    ensures SortedByIndex(Insert(h, hs))
  {
    if hs != [] && h.index >= hs[0].index {
      InsertSorted(h, hs[1..]);
      var r := Insert(h, hs[1..]);
      forall y | y in r ensures hs[0].index <= y.index {
        assert y in multiset(r);
        if y != h {
          assert y in multiset(hs[1..]);
          assert y in hs[1..];
        }
      }
    }
  }

  lemma {:induction false} InsertDistinct(h: Heading, hs: seq<Heading>)
    requires DistinctKeys(hs)
    requires forall i :: 0 <= i < |hs| ==> hs[i].key != h.key
    ensures DistinctKeys(Insert(h, hs))
  {
    if hs != [] && h.index >= hs[0].index {
      InsertDistinct(h, hs[1..]);
      var r := Insert(h, hs[1..]);
      forall y | y in r ensures hs[0].key != y.key {
        assert y in multiset(r);
        if y != h {
          assert y in multiset(hs[1..]);
          var i :| 0 <= i < |hs[1..]| && hs[1..][i] == y;
          assert hs[i + 1] == y;
        }
      }
    }
  }

  /** `Array.prototype.sort` with the comparator `a.index - b.index`, which
      is stable. */
  function SortByIndex(hs: seq<Heading>): (r: seq<Heading>)
    ensures |r| == |hs|
    ensures multiset(r) == multiset(hs)
  {
    if hs == [] then []
    else
      assert hs == hs[..|hs| - 1] + [hs[|hs| - 1]];
      Insert(hs[|hs| - 1], SortByIndex(hs[..|hs| - 1]))
  }

  /** The sort orders by index, keeps every heading, and keeps the keys distinct. */
  lemma {:induction false} SortByIndexOk(hs: seq<Heading>)
    requires DistinctKeys(hs)
    ensures SortedByIndex(SortByIndex(hs))
    ensures DistinctKeys(SortByIndex(hs))
  {
    if hs != [] {
      var n := |hs| - 1;
      var front := SortByIndex(hs[..n]);
      SortByIndexOk(hs[..n]);
      InsertSorted(hs[n], front);
      forall i | 0 <= i < |front| ensures front[i].key != hs[n].key {
        assert front[i] in multiset(hs[..n]);
        var j :| 0 <= j < n && hs[..n][j] == front[i];
        assert hs[j] == front[i];
      }
      InsertDistinct(hs[n], front);
    }
  }

  /** The position of a key in the record. */
  function KeyRank(k: SectionKey): (r: nat)
    ensures r < 4 && KeyAt(r) == k
  {
    match k
    case ExperienceKey => 0
    case EducationKey => 1
    case SkillsKey => 2
    case LanguagesKey => 3
  }

  /** The record's indices after the first loop. */
  function Indices(rules: RegexRules, text: String): (r: seq<Option<nat>>)
    ensures |r| == 4
    ensures forall k :: r[KeyRank(k)] == HeadingIndex(rules, k, text)
  {
    [HeadingIndex(rules, ExperienceKey, text), HeadingIndex(rules, EducationKey, text),
     HeadingIndex(rules, SkillsKey, text), HeadingIndex(rules, LanguagesKey, text)]
  }

  /** `Object.entries(sections).filter(...).sort(...)`. */
  function Headings(indices: seq<Option<nat>>): seq<Heading>
    requires |indices| == 4
  {
    SortByIndex(FoundIn(indices))
  }

  /** The sorted headings: ordered by index, one per key that has an index,
      carrying that index. */
  lemma HeadingsOk(indices: seq<Option<nat>>)
    requires |indices| == 4
    ensures var hs := Headings(indices);
      SortedByIndex(hs) && DistinctKeys(hs) &&
      (forall i :: 0 <= i < |hs| ==> indices[KeyRank(hs[i].key)] == Some(hs[i].index)) &&
      (forall k :: indices[KeyRank(k)].Some? ==> exists i :: 0 <= i < |hs| && hs[i].key == k)
  {
    FoundInDistinct(indices);
    SortByIndexOk(FoundIn(indices));
    HeadingsFound(indices);
    HeadingsCover(indices);
  }

  /** Every sorted heading carries its key's index. */
  lemma HeadingsFound(indices: seq<Option<nat>>)
    requires |indices| == 4
    ensures var hs := Headings(indices);
      forall i :: 0 <= i < |hs| ==> indices[KeyRank(hs[i].key)] == Some(hs[i].index)
  {
    var found := FoundIn(indices);
    var hs := Headings(indices);
    FoundInMembers(indices);
    forall i | 0 <= i < |hs| ensures indices[KeyRank(hs[i].key)] == Some(hs[i].index) {
      assert hs[i] in multiset(found);
      var j :| 0 <= j < 4 && KeyAt(j) == hs[i].key && indices[j] == Some(hs[i].index);
    }
  }

  /** Every key with an index has a sorted heading. */
  lemma HeadingsCover(indices: seq<Option<nat>>)
    requires |indices| == 4
    ensures var hs := Headings(indices);
      forall k :: indices[KeyRank(k)].Some? ==> exists i :: 0 <= i < |hs| && hs[i].key == k
  {
    var found := FoundIn(indices);
    var hs := Headings(indices);
    FoundInMembers(indices);
    forall k | indices[KeyRank(k)].Some? ensures exists i :: 0 <= i < |hs| && hs[i].key == k {
      var h := Heading(k, indices[KeyRank(k)].value);
      assert h in found;
      assert h in multiset(hs);
      var i :| 0 <= i < |hs| && hs[i] == h;
    }
  }

  /** Where slice `i` ends: at the next found heading, or at the end. */
  function SliceEnd(hs: seq<Heading>, i: nat, n: nat): nat {
    if i + 1 < |hs| then hs[i + 1].index else n
  }

  /** `text.substring(startIndex, endIndex)` for the `i`-th sorted heading. */
  function Piece(text: String, hs: seq<Heading>, i: nat): String
    requires i < |hs|
  {
    Substring(text, hs[i].index, SliceEnd(hs, i, |text|))
  }

  /** `extractedContent` without `personalInfo`, after the first `n` rounds
      of the second loop. */
  function ContentUpTo(text: String, hs: seq<Heading>, n: nat): map<SectionKey, String>
    requires n <= |hs|
  {
    if n == 0 then map[]
    else ContentUpTo(text, hs, n - 1)[hs[n - 1].key := Piece(text, hs, n - 1)]
  }

  /** The object `splitTextIntoSections` returns: `personalInfo` and the
      slices of the found sections. */
  datatype Sections = Sections(personalInfo: String, content: map<SectionKey, String>)

  function SectionsFrom(text: String, hs: seq<Heading>): Sections {
    Sections(if |hs| > 0 then Substring(text, 0, hs[0].index) else text, ContentUpTo(text, hs, |hs|))
  }

  function SectionsOf(rules: RegexRules, text: String): Sections {
    SectionsFrom(text, Headings(Indices(rules, text)))
  }

  /** The first loop: one `text.match` per key of the record. */
  method FindIndices(rules: RegexRules, text: String) returns (indices: seq<Option<nat>>)
    ensures indices == Indices(rules, text)
  {
    indices := [];
    var k := 0;
    while k < 4
      invariant k <= 4 && |indices| == k
      invariant forall j :: 0 <= j < k ==> indices[j] == HeadingIndex(rules, KeyAt(j), text)
    {
      var m := HeadingIn(text, HeadsOf(rules, KeyAt(k)));
      var index: Option<nat> := None;
      if m.Some? {
        index := Some(m.value.index);
      }
      indices := indices + [index];
      k := k + 1;
    }
  }

  /** The second loop: slice `i` runs to the next heading or to the end. */
  method SliceSections(text: String, sorted: seq<Heading>) returns (content: map<SectionKey, String>)
    ensures content == ContentUpTo(text, sorted, |sorted|)
  {
    content := map[];
    var i := 0;
    while i < |sorted|
      invariant i <= |sorted|
      invariant content == ContentUpTo(text, sorted, i)
    {
      var endIndex := if i + 1 < |sorted| then sorted[i + 1].index else |text|;
      content := content[sorted[i].key := Substring(text, sorted[i].index, endIndex)];
      i := i + 1;
    }
  }

  /** `splitTextIntoSections`: the first loop fills in the indices, the
      found entries are filtered and sorted, and the second loop slices. */
  method SplitTextIntoSections(rules: RegexRules, text: String) returns (sections: Sections)
    ensures sections == SectionsOf(rules, text)
  {
    var indices := FindIndices(rules, text);
    var sorted := Headings(indices);
    var personalInfo := if |sorted| > 0 then Substring(text, 0, sorted[0].index) else text;
    var content := SliceSections(text, sorted);
    sections := Sections(personalInfo, content);
  }

  /** The slices of headings `i..`, in order. */
  function PiecesFrom(text: String, hs: seq<Heading>, i: nat): (r: seq<String>)
    requires i <= |hs|
    ensures |r| == |hs| - i
    decreases |hs| - i
  {
    if i == |hs| then [] else [Piece(text, hs, i)] + PiecesFrom(text, hs, i + 1)
  }

  function Concat(ss: seq<String>): String {
    if ss == [] then [] else ss[0] + Concat(ss[1..])
  }

  /** The slices from heading `i` on, put back together, are the text from
      that heading's index to the end. */
  lemma {:induction false} PiecesJoin(text: String, hs: seq<Heading>, i: nat)
    requires i < |hs|
    requires SortedByIndex(hs)
    requires forall j :: 0 <= j < |hs| ==> hs[j].index <= |text|
    ensures Concat(PiecesFrom(text, hs, i)) == text[hs[i].index..]
    decreases |hs| - i
  {
    if i + 1 < |hs| {
      PiecesJoin(text, hs, i + 1);
      assert PiecesFrom(text, hs, i) == [Piece(text, hs, i)] + PiecesFrom(text, hs, i + 1);
      assert text[hs[i].index..] == text[hs[i].index..hs[i + 1].index] + text[hs[i + 1].index..];
    } else {
      assert PiecesFrom(text, hs, i) == [Piece(text, hs, i)];
    }
  }

  /** The second loop stores slice `i` under the key of heading `i`. */
  lemma {:induction false} ContentPieces(text: String, hs: seq<Heading>, n: nat)
    requires n <= |hs|
    requires DistinctKeys(hs)
    ensures forall i :: 0 <= i < n ==> hs[i].key in ContentUpTo(text, hs, n) && ContentUpTo(text, hs, n)[hs[i].key] == Piece(text, hs, i)
  {
    if n > 0 {
      ContentPieces(text, hs, n - 1);
      var before := ContentUpTo(text, hs, n - 1);
      forall i | 0 <= i < n - 1 ensures before[hs[n - 1].key := Piece(text, hs, n - 1)][hs[i].key] == Piece(text, hs, i) {
        assert hs[i].key != hs[n - 1].key;
      }
    }
  }

  /** The second loop stores nothing under a key no heading has. */
  lemma {:induction false} ContentKeys(text: String, hs: seq<Heading>, n: nat)
    requires n <= |hs|
    ensures forall k :: k in ContentUpTo(text, hs, n) <==> exists i :: 0 <= i < n && hs[i].key == k
  {
    if n > 0 {
      ContentKeys(text, hs, n - 1);
    }
  }

  /** The content of section `k`, if it was found. */
  function SectionText(s: Sections, k: SectionKey): Option<String> {
    if k in s.content then Some(s.content[k]) else None
  }

  /** Every found section holds the slice from its heading to the next. */
  lemma SectionSlices(text: String, hs: seq<Heading>)
    requires SortedByIndex(hs) && DistinctKeys(hs)
    requires forall j :: 0 <= j < |hs| ==> hs[j].index <= |text|
    ensures forall i :: 0 <= i < |hs| ==> (hs[i].index <= SliceEnd(hs, i, |text|) <= |text| &&
      SectionText(SectionsFrom(text, hs), hs[i].key) == Some(text[hs[i].index..SliceEnd(hs, i, |text|)]))
  {
    ContentPieces(text, hs, |hs|);
    forall i | 0 <= i < |hs|
      ensures hs[i].index <= SliceEnd(hs, i, |text|) <= |text| &&
              SectionText(SectionsFrom(text, hs), hs[i].key) == Some(text[hs[i].index..SliceEnd(hs, i, |text|)])
    {
      if i + 1 < |hs| {
        assert hs[i].index <= hs[i + 1].index;
      }
    }
  }

  /** `personalInfo` and the slices in order give the text back. */
  lemma SectionsJoin(text: String, hs: seq<Heading>)
    requires hs != [] && SortedByIndex(hs)
    requires forall j :: 0 <= j < |hs| ==> hs[j].index <= |text|
    ensures SectionsFrom(text, hs).personalInfo == text[..hs[0].index]
    ensures SectionsFrom(text, hs).personalInfo + Concat(PiecesFrom(text, hs, 0)) == text
  {
    PiecesJoin(text, hs, 0);
    assert text == text[..hs[0].index] + text[hs[0].index..];
  }

  /** The sorted headings lie inside the text. */
  lemma HeadingsInside(text: String, indices: seq<Option<nat>>)
    requires |indices| == 4
    requires forall j :: 0 <= j < 4 && indices[j].Some? ==> indices[j].value <= |text|
    ensures SortedByIndex(Headings(indices)) && DistinctKeys(Headings(indices))
    ensures forall i :: 0 <= i < |Headings(indices)| ==> Headings(indices)[i].index <= |text|
  {
    var hs := Headings(indices);
    HeadingsOk(indices);
    forall i | 0 <= i < |hs| ensures hs[i].index <= |text| {
      assert indices[KeyRank(hs[i].key)] == Some(hs[i].index);
    }
  }

  /** A section exists exactly when its key has an index. */
  lemma SectionKeysFound(text: String, indices: seq<Option<nat>>)
    requires |indices| == 4
    ensures forall k :: SectionText(SectionsFrom(text, Headings(indices)), k).Some? <==> indices[KeyRank(k)].Some?
  {
    HeadingsOk(indices);
    ContentKeys(text, Headings(indices), |Headings(indices)|);
  }

  /** The partition for any record of indices inside the text. */
  lemma SectionsCut(text: String, indices: seq<Option<nat>>)
    requires |indices| == 4
    requires forall j :: 0 <= j < 4 && indices[j].Some? ==> indices[j].value <= |text|
    ensures forall k :: SectionText(SectionsFrom(text, Headings(indices)), k).Some? <==> indices[KeyRank(k)].Some?
    ensures var hs := Headings(indices);
      forall i :: 0 <= i < |hs| ==> (hs[i].index <= SliceEnd(hs, i, |text|) <= |text| &&
        SectionText(SectionsFrom(text, hs), hs[i].key) == Some(text[hs[i].index..SliceEnd(hs, i, |text|)]))
    ensures var hs := Headings(indices);
      hs != [] ==> hs[0].index <= |text| && SectionsFrom(text, hs).personalInfo == text[..hs[0].index] &&
                   SectionsFrom(text, hs).personalInfo + Concat(PiecesFrom(text, hs, 0)) == text
  {
    var hs := Headings(indices);
    SectionKeysFound(text, indices);
    HeadingsInside(text, indices);
    SectionSlices(text, hs);
    if hs != [] {
      SectionsJoin(text, hs);
    }
  }

  /** The sections partition the text: a section exists exactly when its
      heading was found, it runs from its heading to the next found heading
      (or the end), `personalInfo` is the text before the first heading,
      and `personalInfo` followed by the sections in order is the text. */
  lemma SectionsPartition(rules: RegexRules, text: String)
    ensures var s := SectionsOf(rules, text);
      var hs := Headings(Indices(rules, text));
      (forall k :: SectionText(s, k).Some? <==> HeadingIndex(rules, k, text).Some?) &&
      (forall i :: 0 <= i < |hs| ==> hs[i].index <= SliceEnd(hs, i, |text|) <= |text| &&
                                     SectionText(s, hs[i].key) == Some(text[hs[i].index..SliceEnd(hs, i, |text|)])) &&
      (hs != [] ==> hs[0].index <= |text| && s.personalInfo == text[..hs[0].index] &&
                    s.personalInfo + Concat(PiecesFrom(text, hs, 0)) == text)
  {
    var indices := Indices(rules, text);
    assert forall j :: 0 <= j < 4 ==> indices[j] == HeadingIndex(rules, KeyAt(j), text);
    SectionsCut(text, indices);
  }

  /** Without any heading the whole text is `personalInfo` and there is no
      section. */
  lemma NoHeadingAllPersonal(rules: RegexRules, text: String)
    requires forall k :: HeadingIndex(rules, k, text).None?
    ensures SectionsOf(rules, text) == Sections(text, map[])
  {
    var indices := Indices(rules, text);
    assert forall j :: 0 <= j < 4 ==> indices[j] == HeadingIndex(rules, KeyAt(j), text);
    FoundInNone(indices);
  }

  // ---------------------------------------------------------------------
  // Dates: REGEX_DATE_RANGE and the entry-splitting lookahead

  /** `\d{4}` at `i`. */
  predicate FourDigitsAt(l: String, i: nat) {
    i + 4 <= |l| && IsDigit(l[i]) && IsDigit(l[i + 1]) && IsDigit(l[i + 2]) && IsDigit(l[i + 3])
  }

  /** The length of the whitespace run at `i` (a greedy `\s*`). */
  function SpaceRun(l: String, i: nat): (n: nat)
    ensures i + n <= |l| || n == 0
    ensures i + n < |l| ==> !IsSpace(l[i + n])
    decreases |l| - i
  {
    if i < |l| && IsSpace(l[i]) then 1 + SpaceRun(l, i + 1) else 0
  }

  /** `\.?\s+\d{4}` at `j`: its length.  A dot or a digit is not
      whitespace, so the greedy `\.?` and `\s+` never need to give back. */
  function MonthTail(l: String, j: nat): (r: Option<nat>)
    ensures r.Some? ==> j + r.value <= |l|
  {
    var d := if j < |l| && l[j] == '.' then 1 else 0;
    var sp := SpaceRun(l, j + d);
    if sp >= 1 && FourDigitsAt(l, j + d + sp) then Some(d + sp + 4) else None
  }

  /** `(?:Janvier|...|Déc)\.?\s+\d{4}` at `i`: the first month of
      `months[k..]` that is followed by a year. */
  function MonthDateAt(l: String, months: seq<String>, i: nat, k: nat): (r: Option<nat>)
    requires k <= |months|
    ensures r.Some? ==> i + r.value <= |l|
    decreases |months| - k
  {
    if k == |months| then None
    else if OccursAt(l, months[k], i) && MonthTail(l, i + |months[k]|).Some? then
      Some(|months[k]| + MonthTail(l, i + |months[k]|).value)
    else MonthDateAt(l, months, i, k + 1)
  }

  /** `\d{4}|(?:months)\.?\s+\d{4}` at `i`, the date of REGEX_DATE_RANGE.
      A year starts with a digit and a month with a letter, so at most one
      of the two matches and no backtracking into the date can change the
      outcome. */
  function DateAt(l: String, months: seq<String>, i: nat): (r: Option<nat>)
    ensures r.Some? ==> i + r.value <= |l|
  {
    if FourDigitsAt(l, i) then Some(4) else MonthDateAt(l, months, i, 0)
  }

  /** The end date of REGEX_DATE_RANGE at `j`: a date, else the first of
      `Aujourd'hui|Présent|En cours|Current`. */
  function EndAt(rules: RegexRules, l: String, j: nat): (r: Option<nat>)
    ensures r.Some? ==> j + r.value <= |l|
  {
    match DateAt(l, rules.months, j)
    case Some(n) => Some(n)
    case None =>
      match WordAtFrom(l, rules.presentWords, j, 0)
      case Some(w) => Some(|w|)
      case None => None
  }

  /** A capture group: where it starts and how long it is. */
  datatype Span = Span(at: nat, length: nat)

  /** A match of REGEX_DATE_RANGE with its two groups, either of which may
      be undefined. */
  datatype RangeMatch = RangeMatch(index: nat, length: nat, start: Option<Span>, end: Option<Span>)

  /** The match lies in a text of length `n`, and so do its groups. */
  predicate RangeInside(m: RangeMatch, n: nat) {
    m.index + m.length <= n &&
    (m.start.Some? ==> m.start.value.at + m.start.value.length <= n) &&
    (m.end.Some? ==> m.end.value.at + m.end.value.length <= n)
  }

  /** The first top-level alternative, `(date)\s*à`. */
  function StartAlt(rules: RegexRules, l: String, i: nat): (r: Option<RangeMatch>)
    ensures r.Some? ==> r.value.index == i && RangeInside(r.value, |l|) && r.value.start.Some? && r.value.end.None?
  {
    match DateAt(l, rules.months, i)
    case None => None
    case Some(n) =>
      var j := i + n + SpaceRun(l, i + n);
      if j < |l| && l[j] == 'à' then Some(RangeMatch(i, j + 1 - i, Some(Span(i, n)), None)) else None
  }

  /** The fourth top-level alternative, `-\s*(end date)`. */
  function EndAlt(rules: RegexRules, l: String, i: nat): (r: Option<RangeMatch>)
    ensures r.Some? ==> r.value.index == i && RangeInside(r.value, |l|) && r.value.start.None? && r.value.end.Some?
  {
    if i < |l| && l[i] == '-' then
      var j := i + 1 + SpaceRun(l, i + 1);
      match EndAt(rules, l, j)
      case None => None
      case Some(n) => Some(RangeMatch(i, j + n - i, None, Some(Span(j, n))))
    else None
  }

  /** REGEX_DATE_RANGE at `i`.  Its alternation is at the top level:
      `(date)\s*à`, then `au`, then `–`, then `-\s*(end date)`, so the
      second and third defined no group at all. */
  function RangeAt(rules: RegexRules, l: String, i: nat): (r: Option<RangeMatch>)
    ensures r.Some? ==> r.value.index == i && RangeInside(r.value, |l|)
    ensures r.Some? ==> r.value.start.None? || r.value.end.None?
  {
    var a := StartAlt(rules, l, i);
    if a.Some? then a
    else if i + 2 <= |l| && l[i] == 'a' && l[i + 1] == 'u' then Some(RangeMatch(i, 2, None, None))
    else if i < |l| && l[i] == '–' then Some(RangeMatch(i, 1, None, None))
    else EndAlt(rules, l, i)
  }

  /** The leftmost match at or after `i`. */
  function RangeFrom(rules: RegexRules, l: String, i: nat): (r: Option<RangeMatch>)
    ensures r.Some? ==> i <= r.value.index && RangeInside(r.value, |l|)
    ensures r.Some? ==> r.value.start.None? || r.value.end.None?
    decreases |l| - i
  {
    if i >= |l| then None
    else match RangeAt(rules, l, i)
      case Some(m) => Some(m)
      case None => RangeFrom(rules, l, i + 1)
  }

  /** `s.match(REGEX_DATE_RANGE)`. */
  function DateRange(rules: RegexRules, s: String): (r: Option<RangeMatch>)
    ensures r.Some? ==> RangeInside(r.value, |s|)
    ensures r.Some? ==> r.value.start.None? || r.value.end.None?
  {
    RangeFrom(rules, Lower(s), 0)
  }

  /** The text of a group. */
  function SpanText(s: String, sp: Span): String {
    Substring(s, sp.at, sp.at + sp.length)
  }

  /** `dateMatch ? dateMatch[1] : 'Unknown'`; a match of an alternative
      without the group leaves it undefined. */
  function StartDateOf(s: String, m: Option<RangeMatch>): Option<String> {
    match m
    case None => Some("Unknown")
    case Some(mm) => if mm.start.Some? then Some(SpanText(s, mm.start.value)) else None
  }

  /** `dateMatch ? dateMatch[2] : undefined`. */
  function EndDateOf(s: String, m: Option<RangeMatch>): Option<String> {
    match m
    case None => None
    case Some(mm) => if mm.end.Some? then Some(SpanText(s, mm.end.value)) else None
  }

  /** `line.replace(REGEX_DATE_RANGE, '')`: the first match cut out. */
  function RemoveRange(rules: RegexRules, line: String): String {
    match DateRange(rules, line)
    case None => line
    case Some(m) => line[..m.index] + line[m.index + m.length..]
  }

  /** `/aujourd'hui|présent|en cours|current/i.test(endDate || '')`. */
  predicate IsCurrent(rules: RegexRules, endDate: Option<String>) {
    ContainsAny(Lower(OrEmpty(endDate)), rules.presentWords)
  }

  /** The captured date of the splitting lookahead
      `(?=((?:months)\.?\s+\d{4}|\d{4}))` at `q`: its length. */
  function LookaheadAt(rules: RegexRules, l: String, q: nat): (r: Option<nat>)
    ensures r.Some? ==> q + r.value <= |l|
  {
    match MonthDateAt(l, rules.months, q, 0)
    case Some(n) => Some(n)
    case None => if FourDigitsAt(l, q) then Some(4) else None
  }

  /** JavaScript `split` with the lookahead from position `q` on, the
      current piece starting at `p`: the lookahead matches the empty string,
      so the text is cut before every later position where it holds, and the
      captured date follows each piece but the last. */
  function SplitFrom(rules: RegexRules, s: String, l: String, p: nat, q: nat): (r: seq<String>)
    requires |l| == |s| && p < q <= |s|
    decreases |s| - q
  {
    if q == |s| then [s[p..]]
    else match LookaheadAt(rules, l, q)
      case Some(n) => [s[p..q], s[q..q + n]] + SplitFrom(rules, s, l, q, q + 1)
      case None => SplitFrom(rules, s, l, p, q + 1)
  }

  /** `text.split(/(?=(...))/i)`.  The lookahead needs at least four
      characters, so the empty text gives `[""]`. */
  function SplitAtDates(rules: RegexRules, s: String): seq<String> {
    if s == [] then [[]] else SplitFrom(rules, s, Lower(s), 0, 1)
  }

  /** The pieces at even positions: the split without its captures. */
  function Evens(xs: seq<String>): seq<String>
    decreases |xs|
  {
    if |xs| < 2 then xs else [xs[0]] + Evens(xs[2..])
  }

  /** The pieces of a split, without the captured dates, give back the text
      from `p` on. */
  lemma {:induction false} SplitFromJoin(rules: RegexRules, s: String, l: String, p: nat, q: nat)
    requires |l| == |s| && p < q <= |s|
    ensures Concat(Evens(SplitFrom(rules, s, l, p, q))) == s[p..]
    decreases |s| - q
  {
    var la := LookaheadAt(rules, l, q);
    if q == |s| {
      assert SplitFrom(rules, s, l, p, q) == [s[p..]];
      assert Concat([s[p..]]) == s[p..] + Concat([]);
    } else if la.Some? {
      SplitFromJoin(rules, s, l, q, q + 1);
      SplitCutJoin(rules, s, l, p, q, la.value);
    } else {
      SplitFromJoin(rules, s, l, p, q + 1);
      assert SplitFrom(rules, s, l, p, q) == SplitFrom(rules, s, l, p, q + 1);
    }
  }

  /** One cut of the split: the piece before it followed by the text from
      the cut on. */
  lemma SplitCutJoin(rules: RegexRules, s: String, l: String, p: nat, q: nat, n: nat)
    requires |l| == |s| && p < q < |s|
    requires LookaheadAt(rules, l, q) == Some(n)
    requires Concat(Evens(SplitFrom(rules, s, l, q, q + 1))) == s[q..]
    ensures Concat(Evens(SplitFrom(rules, s, l, p, q))) == s[p..]
  {
    var rest := SplitFrom(rules, s, l, q, q + 1);
    assert SplitFrom(rules, s, l, p, q) == [s[p..q], s[q..q + n]] + rest;
    EvensCut(s[p..q], s[q..q + n], rest);
    assert s[p..] == s[p..q] + s[q..];
  }

  /** Dropping a piece's capture: the piece is followed by the rest's pieces. */
  lemma EvensCut(a: String, b: String, rest: seq<String>)
    ensures Concat(Evens([a, b] + rest)) == a + Concat(Evens(rest))
  {
    var r := [a, b] + rest;
    assert r[2..] == rest;
    assert Evens(r) == [a] + Evens(rest);
    assert ([a] + Evens(rest))[1..] == Evens(rest);
  }

  /** The split loses nothing: its pieces without the captures are the text. */
  lemma SplitAtDatesJoin(rules: RegexRules, s: String)
    ensures Concat(Evens(SplitAtDates(rules, s))) == s
  {
    if s == [] {
      assert Concat([[]]) == [] + Concat([]);
    } else {
      SplitFromJoin(rules, s, Lower(s), 0, 1);
    }
  }

  /** Every piece and every capture of the split is a part of the text, so
      none contains a line break the text does not. */
  lemma {:induction false} SplitFromOneLine(rules: RegexRules, s: String, l: String, p: nat, q: nat)
    requires |l| == |s| && p < q <= |s|
    requires '\n' !in s
    ensures forall k :: 0 <= k < |SplitFrom(rules, s, l, p, q)| ==> '\n' !in SplitFrom(rules, s, l, p, q)[k]
    decreases |s| - q
  {
    if q < |s| {
      match LookaheadAt(rules, l, q)
      case Some(n) =>
        SplitFromOneLine(rules, s, l, q, q + 1);
        assert '\n' !in s[p..q] && '\n' !in s[q..q + n] by {
          forall j | p <= j < q + n ensures s[j] != '\n' {
            assert s[j] in s;
          }
        }
      case None =>
        SplitFromOneLine(rules, s, l, p, q + 1);
    } else {
      assert '\n' !in s[p..] by {
        forall j | p <= j < |s| ensures s[j] != '\n' {
          assert s[j] in s;
        }
      }
    }
  }

  lemma SplitAtDatesOneLine(rules: RegexRules, s: String)
    requires '\n' !in s
    ensures forall k :: 0 <= k < |SplitAtDates(rules, s)| ==> '\n' !in SplitAtDates(rules, s)[k]
  {
    if s != [] {
      SplitFromOneLine(rules, s, Lower(s), 0, 1);
    }
  }

  /** `.filter(entry => entry.trim().length > 10)`. */
  function LongEntries(es: seq<String>): (r: seq<String>)
    ensures |r| <= |es|
    ensures forall k :: 0 <= k < |r| ==> r[k] in es
  {
    if es == [] then []
    else
      var n := |es| - 1;
      LongEntries(es[..n]) + (if |Strip(es[n])| > 10 then [es[n]] else [])
  }

  /** The job or education entries of a section. */
  function Entries(rules: RegexRules, text: String): seq<String> {
    LongEntries(SplitAtDates(rules, text))
  }

  /** `.filter(line => line.trim() !== '')`: the lines kept as they are. */
  function FilledLines(ls: seq<String>): (r: seq<String>)
    ensures |r| <= |ls|
  {
    if ls == [] then []
    else
      var n := |ls| - 1;
      FilledLines(ls[..n]) + (if Strip(ls[n]) != "" then [ls[n]] else [])
  }

  /** `entry.trim().split('\n').filter(...)`. */
  function EntryLines(entry: String): seq<String> {
    FilledLines(Lines(Strip(entry)))
  }

  /** An entry without a line break has at most one line. */
  lemma EntryLinesOneLine(entry: String)
    requires '\n' !in entry
    ensures |EntryLines(entry)| <= 1
  {
    StripChars(entry);
    SingleLine(Strip(entry));
  }

  // ---------------------------------------------------------------------
  // parseExperiences

  /** The character class `[-–@|]`. */
  const CompanySeparators: set<char> := {'-', '–', '@', '|'}

  /** `lines[1] ? lines[1].split(/[-–@|]/) : ['Unknown']`. */
  function CompanyPieces(line: String): (r: seq<String>)
    ensures |r| >= 1
  {
    if line != "" then SplitAny(line, CompanySeparators) else ["Unknown"]
  }

  /** `companyAndLocation[1] ? companyAndLocation[1].trim() : undefined`. */
  function LocationOf(pieces: seq<String>): Option<String> {
    if |pieces| > 1 && pieces[1] != "" then Some(Strip(pieces[1])) else None
  }

  /** `lines.slice(2).join('\n').trim()`. */
  function DescriptionOf(lines: seq<String>): String {
    Strip(Join(if |lines| >= 2 then lines[2..] else [], "\n"))
  }

  /** The experience built from one entry, `None` when the `forEach`
      callback returns early. */
  function ExperienceOfEntry(rules: RegexRules, entry: String, ordinal: nat): (r: Option<Experience>)
    ensures r.None? <==> |EntryLines(entry)| < 2
  {
    var lines := EntryLines(entry);
    if |lines| < 2 then None
    else
      var m := DateRange(rules, entry);
      var endDate := EndDateOf(entry, m);
      var pieces := CompanyPieces(lines[1]);
      Some(Experience(Some(Unique(ordinal)), Some(Strip(pieces[0])), Some(Strip(RemoveRange(rules, lines[0]))),
        LocationOf(pieces), StartDateOf(entry, m), endDate, Some(DescriptionOf(lines)),
        Some(IsCurrent(rules, endDate))))
  }

  /** What a `forEach` over `es` pushes when the callback for an entry,
      given how many items were pushed before it, returns an item or returns
      early. */
  function Pushed<T>(build: (String, nat) -> Option<T>, es: seq<String>): (r: seq<T>)
    ensures |r| <= |es|
  {
    if es == [] then []
    else
      var n := |es| - 1;
      var acc := Pushed(build, es[..n]);
      acc + match build(es[n], |acc|) case Some(e) => [e] case None => []
  }

  /** One more entry: the callback's item, if any, is pushed at the end. */
  lemma PushedStep<T>(build: (String, nat) -> Option<T>, es: seq<String>, i: nat)
    requires i < |es|
    ensures Pushed(build, es[..i + 1]) == Pushed(build, es[..i]) +
      match build(es[i], |Pushed(build, es[..i])|) case Some(e) => [e] case None => []
  {
    assert es[..i + 1][..i] == es[..i];
  }

  /** Item `i` is what the callback built for some entry when `i` items had
      been pushed. */
  lemma {:induction false} PushedFrom<T>(build: (String, nat) -> Option<T>, es: seq<String>)
    ensures forall i :: 0 <= i < |Pushed(build, es)| ==>
      exists k :: 0 <= k < |es| && build(es[k], i) == Some(Pushed(build, es)[i])
  {
    if es != [] {
      var n := |es| - 1;
      var acc := Pushed(build, es[..n]);
      var r := Pushed(build, es);
      PushedFrom(build, es[..n]);
      assert forall i :: 0 <= i < |acc| ==> exists k :: 0 <= k < |es| && build(es[k], i) == Some(acc[i]) by {
        forall i | 0 <= i < |acc| ensures exists k :: 0 <= k < |es| && build(es[k], i) == Some(acc[i]) {
          var k :| 0 <= k < n && build(es[..n][k], i) == Some(acc[i]);
          assert es[..n][k] == es[k];
        }
      }
      forall i | 0 <= i < |r| ensures exists k :: 0 <= k < |es| && build(es[k], i) == Some(r[i]) {
        match build(es[n], |acc|)
        case None =>
          assert r == acc;
        case Some(e) =>
          assert r == acc + [e];
          if i < |acc| {
            assert r[i] == acc[i];
          } else {
            assert build(es[n], i) == Some(r[i]);
          }
      }
    } else {
      assert Pushed(build, es) == [];
    }
  }

  /** Nothing is pushed when the callback returns early for every entry. */
  lemma {:induction false} PushedNone<T>(build: (String, nat) -> Option<T>, es: seq<String>)
    requires forall k, i :: 0 <= k < |es| ==> build(es[k], i).None?
    ensures Pushed(build, es) == []
  {
    if es != [] {
      PushedNone(build, es[..|es| - 1]);
    }
  }

  function ExperienceBuilder(rules: RegexRules): (String, nat) -> Option<Experience> {
    (entry: String, ordinal: nat) => ExperienceOfEntry(rules, entry, ordinal)
  }

  function ExperiencesOf(rules: RegexRules, text: String): seq<Experience> {
    Pushed(ExperienceBuilder(rules), Entries(rules, text))
  }

  /** `parseExperiences`: the `forEach` over the entries. */
  method ParseExperiences(rules: RegexRules, text: String) returns (experiences: seq<Experience>)
    ensures experiences == ExperiencesOf(rules, text)
  {
    var entries := Entries(rules, text);
    experiences := [];
    for i := 0 to |entries|
      invariant experiences == Pushed(ExperienceBuilder(rules), entries[..i])
    {
      PushedStep(ExperienceBuilder(rules), entries, i);
      var e := ExperienceOfEntry(rules, entries[i], |experiences|);
      assert ExperienceBuilder(rules)(entries[i], |experiences|) == e;
      if e.Some? {
        experiences := experiences + [e.value];
      }
    }
    assert entries[..|entries|] == entries;
  }

  /** The company is the first piece of the second line, trimmed: it has
      no separator and no surrounding whitespace. */
  lemma CompanyClean(line: String)
    ensures var c := Strip(CompanyPieces(line)[0]);
      Strip(c) == c && forall j :: 0 <= j < |c| ==> c[j] !in CompanySeparators
  {
    var p := CompanyPieces(line)[0];
    StripIdempotent(p);
    if line == "" {
      UnknownUnseparated();
    }
    StripKeepsOut(p, CompanySeparators);
  }

  /** The placeholder company holds no separator. */
  lemma UnknownUnseparated()
    ensures forall j :: 0 <= j < |"Unknown"| ==> "Unknown"[j] !in CompanySeparators
  {
    var u := "Unknown";
    assert u[0] == 'U' && u[1] == 'n' && u[2] == 'k' && u[3] == 'n' && u[4] == 'o' && u[5] == 'w' && u[6] == 'n';
  }

  /** The two dates of an entry are never both set, because REGEX_DATE_RANGE
      never defines both its groups; without a match the start date is
      'Unknown'. */
  lemma DatesOf(rules: RegexRules, entry: String)
    ensures var m := DateRange(rules, entry);
      (StartDateOf(entry, m).None? || EndDateOf(entry, m).None?) &&
      (m.None? ==> StartDateOf(entry, m) == Some("Unknown") && EndDateOf(entry, m).None?)
  {
  }

  /** With no end date the test runs on '' and fails. */
  lemma NotCurrentWithoutEnd(rules: RegexRules)
    requires forall k :: 0 <= k < |rules.presentWords| ==> rules.presentWords[k] != ""
    ensures !IsCurrent(rules, None)
  {
    assert Lower("") == [];
  }

  /** A built experience: its id is the push count; the position is the
      first line without its date range, the company and location the two
      first pieces of the second line, the description the remaining lines,
      all trimmed; the company holds none of `- – @ |`, `isCurrentPosition`
      is the test on the end date, and the two dates are never both set. */
  lemma ExperienceShape(rules: RegexRules, entry: String, ordinal: nat)
    requires ExperienceOfEntry(rules, entry, ordinal).Some?
    ensures var e := ExperienceOfEntry(rules, entry, ordinal).value;
      var lines := EntryLines(entry);
      |lines| >= 2 &&
      e.position == Some(Strip(RemoveRange(rules, lines[0]))) &&
      e.company == Some(Strip(CompanyPieces(lines[1])[0])) &&
      e.location == LocationOf(CompanyPieces(lines[1])) &&
      e.description == Some(Strip(Join(lines[2..], "\n"))) &&
      e.startDate == StartDateOf(entry, DateRange(rules, entry)) &&
      e.endDate == EndDateOf(entry, DateRange(rules, entry))
    ensures var e := ExperienceOfEntry(rules, entry, ordinal).value;
      e.id == Some(Unique(ordinal)) &&
      e.position.Some? && Strip(e.position.value) == e.position.value &&
      e.company.Some? && Strip(e.company.value) == e.company.value &&
      (forall j :: 0 <= j < |e.company.value| ==> e.company.value[j] !in CompanySeparators) &&
      e.description.Some? && Strip(e.description.value) == e.description.value &&
      e.isCurrentPosition == Some(IsCurrent(rules, e.endDate)) &&
      (e.startDate.None? || e.endDate.None?) &&
      (DateRange(rules, entry).None? ==> e.startDate == Some("Unknown") && e.endDate.None?)
  {
    var lines := EntryLines(entry);
    StripIdempotent(RemoveRange(rules, lines[0]));
    StripIdempotent(Join(if |lines| >= 2 then lines[2..] else [], "\n"));
    CompanyClean(lines[1]);
    DatesOf(rules, entry);
  }

  /** The experiences of a section: item `i` has id `i` and is built from
      one of the entries of the section. */
  lemma ExperiencesFromEntries(rules: RegexRules, text: String)
    ensures var es := ExperiencesOf(rules, text);
      forall i :: 0 <= i < |es| ==> exists k :: (0 <= k < |Entries(rules, text)| &&
        ExperienceOfEntry(rules, Entries(rules, text)[k], i) == Some(es[i]))
  {
    PushedFrom(ExperienceBuilder(rules), Entries(rules, text));
  }

  /** The entries of a text without line breaks each have one line at
      most. */
  lemma EntriesOneLine(rules: RegexRules, text: String)
    requires '\n' !in text
    ensures forall k :: 0 <= k < |Entries(rules, text)| ==> |EntryLines(Entries(rules, text)[k])| <= 1
  {
    SplitAtDatesOneLine(rules, text);
    forall k | 0 <= k < |Entries(rules, text)| ensures |EntryLines(Entries(rules, text)[k])| <= 1 {
      var e := Entries(rules, text)[k];
      assert e in SplitAtDates(rules, text);
      EntryLinesOneLine(e);
    }
  }

  /** A section on one line yields no experience: every entry needs two
      non-blank lines. */
  lemma ExperiencesOneLine(rules: RegexRules, text: String)
    requires '\n' !in text
    ensures ExperiencesOf(rules, text) == []
  {
    EntriesOneLine(rules, text);
    PushedNone(ExperienceBuilder(rules), Entries(rules, text));
  }

  // ---------------------------------------------------------------------
  // parseEducation

  /** `lines[1] ? lines[1].trim() : 'Unknown'`. */
  function InstitutionOf(line: String): String {
    if line != "" then Strip(line) else "Unknown"
  }

  /** The education built from one entry, `None` when the callback returns
      early. */
  function EducationOfEntry(rules: RegexRules, entry: String, ordinal: nat): (r: Option<Education>)
    ensures r.None? <==> |EntryLines(entry)| < 2
  {
    var lines := EntryLines(entry);
    if |lines| < 2 then None
    else
      var m := DateRange(rules, entry);
      Some(Education(Some(Unique(ordinal)), Some(InstitutionOf(lines[1])), Some(Strip(RemoveRange(rules, lines[0]))),
        None, StartDateOf(entry, m), EndDateOf(entry, m), Some(DescriptionOf(lines))))
  }

  function EducationBuilder(rules: RegexRules): (String, nat) -> Option<Education> {
    (entry: String, ordinal: nat) => EducationOfEntry(rules, entry, ordinal)
  }

  function EducationOf(rules: RegexRules, text: String): seq<Education> {
    Pushed(EducationBuilder(rules), Entries(rules, text))
  }

  /** `parseEducation`. */
  method ParseEducation(rules: RegexRules, text: String) returns (educations: seq<Education>)
    ensures educations == EducationOf(rules, text)
  {
    var entries := Entries(rules, text);
    educations := [];
    for i := 0 to |entries|
      invariant educations == Pushed(EducationBuilder(rules), entries[..i])
    {
      PushedStep(EducationBuilder(rules), entries, i);
      var e := EducationOfEntry(rules, entries[i], |educations|);
      assert EducationBuilder(rules)(entries[i], |educations|) == e;
      if e.Some? {
        educations := educations + [e.value];
      }
    }
    assert entries[..|entries|] == entries;
  }

  /** A built education: its id is the push count, degree (the first line
      without its date) and institution (the second line) are trimmed, the
      description is the remaining lines, it has no field of study, and
      never both dates. */
  lemma EducationShape(rules: RegexRules, entry: String, ordinal: nat)
    requires EducationOfEntry(rules, entry, ordinal).Some?
    ensures var e := EducationOfEntry(rules, entry, ordinal).value;
      var lines := EntryLines(entry);
      e.id == Some(Unique(ordinal)) &&
      e.degree == Some(Strip(RemoveRange(rules, lines[0]))) && Strip(e.degree.value) == e.degree.value &&
      e.institution == Some(Strip(lines[1])) && e.field.None? &&
      e.description == Some(Strip(Join(lines[2..], "\n"))) &&
      e.startDate == StartDateOf(entry, DateRange(rules, entry)) &&
      e.endDate == EndDateOf(entry, DateRange(rules, entry)) &&
      (e.startDate.None? || e.endDate.None?) &&
      (DateRange(rules, entry).None? ==> e.startDate == Some("Unknown") && e.endDate.None?)
  {
    var lines := EntryLines(entry);
    StripIdempotent(RemoveRange(rules, lines[0]));
    assert Strip(lines[1]) != "" by {
      FilledLinesNonBlank(Lines(Strip(entry)));
      assert lines[1] in lines;
    }
  }

  /** The kept lines are not blank. */
  lemma {:induction false} FilledLinesNonBlank(ls: seq<String>)
    ensures forall k :: 0 <= k < |FilledLines(ls)| ==> Strip(FilledLines(ls)[k]) != ""
  {
    if ls != [] {
      FilledLinesNonBlank(ls[..|ls| - 1]);
    }
  }

  lemma EducationFromEntries(rules: RegexRules, text: String)
    ensures var es := EducationOf(rules, text);
      forall i :: 0 <= i < |es| ==> exists k :: (0 <= k < |Entries(rules, text)| &&
        EducationOfEntry(rules, Entries(rules, text)[k], i) == Some(es[i]))
  {
    PushedFrom(EducationBuilder(rules), Entries(rules, text));
  }

  lemma EducationOneLine(rules: RegexRules, text: String)
    requires '\n' !in text
    ensures EducationOf(rules, text) == []
  {
    EntriesOneLine(rules, text);
    PushedNone(EducationBuilder(rules), Entries(rules, text));
  }

  // ---------------------------------------------------------------------
  // parseSkills and parseLanguages

  /** The character class `[,;\n•]`. */
  const ListSeparators: set<char> := {',', ';', '\n', '•'}

  /** `text.replace(REGEX_HEADING_..., '')`: the first heading cut out. */
  function RemoveHeading(text: String, ws: seq<String>): (r: String)
    ensures HeadingIn(text, ws).None? ==> r == text
    ensures HeadingIn(text, ws).Some? ==> |r| + |HeadingIn(text, ws).value.word| == |text|
  {
    match HeadingIn(text, ws)
    case None => text
    case Some(m) => text[..m.index] + text[m.index + |m.word|..]
  }

  /** `.map(s => s.trim()).filter(s => s.length > 1)`. */
  function LongPieces(ps: seq<String>): (r: seq<String>)
    ensures |r| <= |ps|
  {
    if ps == [] then []
    else
      var n := |ps| - 1;
      var t := Strip(ps[n]);
      LongPieces(ps[..n]) + (if |t| > 1 then [t] else [])
  }

  /** The list items of a skills or languages section: the text without its
      heading, trimmed, split at `, ; \n •`, each piece trimmed, and the
      pieces of at most one character dropped. */
  function ListItems(text: String, ws: seq<String>): seq<String> {
    LongPieces(SplitAny(Strip(RemoveHeading(text, ws)), ListSeparators))
  }

  /** Every kept piece is trimmed, has more than one character, and holds
      no separator. */
  lemma {:induction false} LongPiecesShape(ps: seq<String>)
    requires forall k, j :: 0 <= k < |ps| && 0 <= j < |ps[k]| ==> ps[k][j] !in ListSeparators
    ensures forall k :: 0 <= k < |LongPieces(ps)| ==>
      |LongPieces(ps)[k]| > 1 && Strip(LongPieces(ps)[k]) == LongPieces(ps)[k] &&
      forall j :: 0 <= j < |LongPieces(ps)[k]| ==> LongPieces(ps)[k][j] !in ListSeparators
  {
    if ps != [] {
      var n := |ps| - 1;
      LongPiecesShape(ps[..n]);
      StripIdempotent(ps[n]);
      StripChars(ps[n]);
      assert forall j :: 0 <= j < |ps[n]| ==> ps[n][j] !in ListSeparators;
    }
  }

  lemma ListItemsShape(text: String, ws: seq<String>)
    ensures var items := ListItems(text, ws);
      forall k :: 0 <= k < |items| ==>
        |items[k]| > 1 && Strip(items[k]) == items[k] &&
        forall j :: 0 <= j < |items[k]| ==> items[k][j] !in ListSeparators
  {
    LongPiecesShape(SplitAny(Strip(RemoveHeading(text, ws)), ListSeparators));
  }

  /** `parseSkills`: one technical skill per item. */
  function SkillsOf(rules: RegexRules, text: String): (r: seq<Skill>)
    ensures |r| == |ListItems(text, rules.skillsHeads)|
    ensures forall i :: 0 <= i < |r| ==>
      r[i] == Skill(Some(Unique(i)), Some(ListItems(text, rules.skillsHeads)[i]), Some("technical"), None)
  {
    var names := ListItems(text, rules.skillsHeads);
    seq(|names|, i requires 0 <= i < |names| => Skill(Some(Unique(i)), Some(names[i]), Some("technical"), None))
  }

  /** Every skill name is trimmed, longer than one character and free of
      separators; every category is 'technical' and no level is set. */
  lemma SkillsShape(rules: RegexRules, text: String)
    ensures var ss := SkillsOf(rules, text);
      forall i :: 0 <= i < |ss| ==>
        ss[i].name.Some? && |ss[i].name.value| > 1 && Strip(ss[i].name.value) == ss[i].name.value &&
        (forall j :: 0 <= j < |ss[i].name.value| ==> ss[i].name.value[j] !in ListSeparators) &&
        ss[i].category == Some("technical") && ss[i].level.None?
  {
    ListItemsShape(text, rules.skillsHeads);
  }

  /** The letters of `[a-zA-Zçéàè]` under the `i` flag. */
  predicate IsNameLetter(c: char) {
    IsAsciiLetter(c) || c == 'ç' || c == 'é' || c == 'à' || c == 'è' || c == 'Ç' || c == 'É' || c == 'À' || c == 'È'
  }

  /** The first letter at or after `i`: where the language pattern matches. */
  function FirstLetter(s: String, i: nat): (r: Option<nat>)
    ensures r.Some? ==> i <= r.value < |s| && IsNameLetter(s[r.value])
    ensures r.None? ==> forall j :: i <= j < |s| ==> !IsNameLetter(s[j])
    decreases |s| - i
  {
    if i >= |s| then None
    else if IsNameLetter(s[i]) then Some(i)
    else FirstLetter(s, i + 1)
  }

  /** The length of the letter run at `i` (the greedy group 1). */
  function LetterRun(s: String, i: nat): (n: nat)
    ensures i + n <= |s| || n == 0
    ensures forall j :: i <= j < i + n ==> IsNameLetter(s[j])
    decreases |s| - i
  {
    if i < |s| && IsNameLetter(s[i]) then 1 + LetterRun(s, i + 1) else 0
  }

  /** `\((B1|B2|C1|C2|A1|A2|Natif|Native)\)` at `j`: the length of the
      first code of `codes[k..]` that is followed by `)`. */
  function LevelAt(l: String, codes: seq<String>, j: nat, k: nat): (r: Option<nat>)
    requires k <= |codes|
    ensures r.Some? ==> j + 1 + r.value < |l| && l[j + 1..j + 1 + r.value] in codes
    decreases |codes| - k
  {
    if k == |codes| then None
    else if j < |l| && l[j] == '(' && OccursAt(l, codes[k], j + 1) && j + 1 + |codes[k]| < |l| && l[j + 1 + |codes[k]|] == ')' then
      Some(|codes[k]|)
    else LevelAt(l, codes, j, k + 1)
  }

  /** One language item: `match[1]` and `match[2] || 'native'` when the
      pattern matches, else the whole item with 'native'. */
  function LanguageOfItem(rules: RegexRules, item: String, ordinal: nat): Language {
    match FirstLetter(item, 0)
    case None => Language(Some(Unique(ordinal)), Some(item), Some("native"))
    case Some(i) =>
      var n := LetterRun(item, i);
      var j := i + n + SpaceRun(item, i + n);
      Language(Some(Unique(ordinal)), Some(item[i..i + n]), Some(ItemLevel(rules, item, j)))
  }

  /** `match[2] || 'native'`: the code in parentheses at `j` as written, or
      'native'. */
  function ItemLevel(rules: RegexRules, item: String, j: nat): (r: String)
    ensures r == "native" || Lower(r) in rules.levelCodes
    ensures LevelAt(Lower(item), rules.levelCodes, j, 0).None? ==> r == "native"
  {
    match LevelAt(Lower(item), rules.levelCodes, j, 0)
    case Some(c) =>
      LevelCase(rules, item, j);
      item[j + 1..j + 1 + c]
    case None => "native"
  }

  /** `parseLanguages`: one language per item. */
  function LanguagesOf(rules: RegexRules, text: String): (r: seq<Language>)
    ensures |r| == |ListItems(text, rules.languagesHeads)|
    ensures forall i :: 0 <= i < |r| ==> r[i] == LanguageOfItem(rules, ListItems(text, rules.languagesHeads)[i], i)
  {
    var items := ListItems(text, rules.languagesHeads);
    seq(|items|, i requires 0 <= i < |items| => LanguageOfItem(rules, items[i], i))
  }

  /** A language's level is one of the codes as written (in any case), or
      'native'; its name is a run of letters, or the whole item when it has
      no letter. */
  lemma LanguageShape(rules: RegexRules, item: String, ordinal: nat)
    requires |item| > 1
    ensures var lang := LanguageOfItem(rules, item, ordinal);
      lang.id == Some(Unique(ordinal)) && lang.level.Some? && lang.name.Some? &&
      (lang.level.value == "native" || Lower(lang.level.value) in rules.levelCodes) &&
      lang.name.value != "" &&
      ((forall j :: 0 <= j < |lang.name.value| ==> IsNameLetter(lang.name.value[j])) || lang.name.value == item)
  {
    match FirstLetter(item, 0)
    case None =>
    case Some(i) =>
      var n := LetterRun(item, i);
      var name := item[i..i + n];
      assert n >= 1;
      assert forall k :: 0 <= k < |name| ==> name[k] == item[i + k];
  }

  /** A captured level is one of the codes once lower-cased. */
  lemma LevelCase(rules: RegexRules, item: String, j: nat)
    ensures match LevelAt(Lower(item), rules.levelCodes, j, 0)
      case Some(c) => j + 1 + c < |item| && Lower(item[j + 1..j + 1 + c]) in rules.levelCodes
      case None => true
  {
    match LevelAt(Lower(item), rules.levelCodes, j, 0)
    case Some(c) => LowerSlice(item, j + 1, j + 1 + c);
    case None =>
  }

  lemma LanguagesShape(rules: RegexRules, text: String)
    ensures var ls := LanguagesOf(rules, text);
      forall i :: 0 <= i < |ls| ==>
        (ls[i].level.Some? && ls[i].name.Some? && ls[i].name.value != "" &&
         (ls[i].level.value == "native" || Lower(ls[i].level.value) in rules.levelCodes))
  {
    var items := ListItems(text, rules.languagesHeads);
    ListItemsShape(text, rules.languagesHeads);
    forall i | 0 <= i < |items| ensures var lang := LanguageOfItem(rules, items[i], i);
      lang.level.Some? && lang.name.Some? && lang.name.value != "" &&
      (lang.level.value == "native" || Lower(lang.level.value) in rules.levelCodes)
    {
      LanguageShape(rules, items[i], i);
    }
  }

  // ---------------------------------------------------------------------
  // parsePersonalInfo and parseCVText

  /** The patterns left abstract: each gives the first match, `match[0]`. */
  datatype RegexPatterns = RegexPatterns(email: Finder, phone: Finder, linkedin: Finder, website: Finder)

  /** `parsePersonalInfo`: the trimmed first line is the name; the other
      fields are the first matches, with no location key. */
  function PersonalInfoOf(p: RegexPatterns, text: String): PersonalInfo {
    PersonalInfo(Some(Strip(Lines(text)[0])), p.email(text), p.phone(text), None, p.linkedin(text), p.website(text))
  }

  /** The name is one trimmed line, the whole text when it has no break;
      the other fields are the patterns' first matches, and there is no
      location. */
  lemma PersonalInfoName(p: RegexPatterns, text: String)
    ensures var name := PersonalInfoOf(p, text).name;
      name.Some? && '\n' !in name.value && Strip(name.value) == name.value
    ensures '\n' !in text ==> PersonalInfoOf(p, text).name == Some(Strip(text))
    ensures var info := PersonalInfoOf(p, text);
      info.email == p.email(text) && info.phone == p.phone(text) &&
      info.linkedin == p.linkedin(text) && info.website == p.website(text) && info.location.None?
  {
    SplitPiecesAvoid(text, '\n');
    StripChars(Lines(text)[0]);
    StripIdempotent(Lines(text)[0]);
    if '\n' !in text {
      SingleLine(text);
    }
  }

  /** The name comes from the first line: whatever follows the first break
      does not matter. */
  lemma PersonalInfoFirstLine(p: RegexPatterns, first: String, rest: String)
    requires '\n' !in first
    ensures PersonalInfoOf(p, first + "\n" + rest).name == Some(Strip(first))
  {
    SplitWord(first, rest, '\n');
  }

  /** `parseCVText`: a list builder runs only on a truthy section, and the
      personal info only on a non-empty prefix. */
  function ParseCvTextOf(p: RegexPatterns, rules: RegexRules, text: String): CVFormData {
    var s := SectionsOf(rules, text);
    var ex := SectionText(s, ExperienceKey);
    var ed := SectionText(s, EducationKey);
    var sk := SectionText(s, SkillsKey);
    var la := SectionText(s, LanguagesKey);
    CVFormData(
      if s.personalInfo != "" then PersonalInfoOf(p, s.personalInfo) else NoPersonalInfo,
      if Truthy(ex) then ExperiencesOf(rules, ex.value) else [],
      if Truthy(ed) then EducationOf(rules, ed.value) else [],
      if Truthy(sk) then SkillsOf(rules, sk.value) else [],
      if Truthy(la) then LanguagesOf(rules, la.value) else [])
  }

  /** `parseCVText` with the source's own tables. */
  method ParseCvText(p: RegexPatterns, text: String) returns (cv: CVFormData)
    ensures cv == ParseCvTextOf(p, Rules, text)
  {
    var sections := SplitTextIntoSections(Rules, text);
    var personalInfo := if sections.personalInfo != "" then PersonalInfoOf(p, sections.personalInfo) else NoPersonalInfo;
    var experiences: seq<Experience> := [];
    var ex := SectionText(sections, ExperienceKey);
    if Truthy(ex) {
      experiences := ParseExperiences(Rules, ex.value);
    }
    var education: seq<Education> := [];
    var ed := SectionText(sections, EducationKey);
    if Truthy(ed) {
      education := ParseEducation(Rules, ed.value);
    }
    var sk := SectionText(sections, SkillsKey);
    var skills := if Truthy(sk) then SkillsOf(Rules, sk.value) else [];
    var la := SectionText(sections, LanguagesKey);
    var languages := if Truthy(la) then LanguagesOf(Rules, la.value) else [];
    cv := CVFormData(personalInfo, experiences, education, skills, languages);
  }

  /** Every slice is no longer than the text and lacks what the text lacks. */
  lemma {:induction false} ContentWithin(text: String, hs: seq<Heading>, n: nat, c: char)
    requires n <= |hs|
    ensures forall k :: k in ContentUpTo(text, hs, n) ==> |ContentUpTo(text, hs, n)[k]| <= |text|
    ensures c !in text ==> forall k :: k in ContentUpTo(text, hs, n) ==> c !in ContentUpTo(text, hs, n)[k]
  {
    if n > 0 {
      ContentWithin(text, hs, n - 1, c);
      if c !in text {
        SubstringAvoids(text, hs[n - 1].index, SliceEnd(hs, n - 1, |text|), c);
      }
    }
  }

  /** The empty text gives the empty CV. */
  lemma ParseCvTextEmpty(p: RegexPatterns, rules: RegexRules)
    ensures ParseCvTextOf(p, rules, "") == EmptyCV
  {
    var hs := Headings(Indices(rules, ""));
    var s := SectionsOf(rules, "");
    ContentWithin("", hs, |hs|, ' ');
    assert s.personalInfo == "";
    forall k ensures !Truthy(SectionText(s, k)) {
      if k in s.content {
        assert |s.content[k]| <= 0;
      }
    }
    assert ParseCvTextOf(p, rules, "") == CVFormData(NoPersonalInfo, [], [], [], []);
  }

  /** A section whose heading is absent contributes no item. */
  lemma ParseCvTextAbsent(p: RegexPatterns, rules: RegexRules, text: String)
    ensures HeadingIndex(rules, ExperienceKey, text).None? ==> ParseCvTextOf(p, rules, text).experiences == []
    ensures HeadingIndex(rules, EducationKey, text).None? ==> ParseCvTextOf(p, rules, text).education == []
    ensures HeadingIndex(rules, SkillsKey, text).None? ==> ParseCvTextOf(p, rules, text).skills == []
    ensures HeadingIndex(rules, LanguagesKey, text).None? ==> ParseCvTextOf(p, rules, text).languages == []
  {
    var indices := Indices(rules, text);
    SectionKeysFound(text, indices);
    assert forall k :: indices[KeyRank(k)] == HeadingIndex(rules, k, text);
  }

  /** Without any heading everything is personal info. */
  lemma ParseCvTextNoHeading(p: RegexPatterns, rules: RegexRules, text: String)
    requires forall k :: HeadingIndex(rules, k, text).None?
    ensures ParseCvTextOf(p, rules, text) ==
      CVFormData(if text != "" then PersonalInfoOf(p, text) else NoPersonalInfo, [], [], [], [])
  {
    NoHeadingAllPersonal(rules, text);
  }

  /** A text on one line yields neither experience nor education: each
      entry of those sections needs two lines. */
  lemma ParseCvTextOneLine(p: RegexPatterns, rules: RegexRules, text: String)
    requires '\n' !in text
    ensures ParseCvTextOf(p, rules, text).experiences == []
    ensures ParseCvTextOf(p, rules, text).education == []
  {
    var s := SectionsOf(rules, text);
    var hs := Headings(Indices(rules, text));
    ContentWithin(text, hs, |hs|, '\n');
    if Truthy(SectionText(s, ExperienceKey)) {
      ExperiencesOneLine(rules, SectionText(s, ExperienceKey).value);
    }
    if Truthy(SectionText(s, EducationKey)) {
      EducationOneLine(rules, SectionText(s, EducationKey).value);
    }
  }
}
