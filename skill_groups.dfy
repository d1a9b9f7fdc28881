/** `groupByCat` of the PDF generator (app/api/cv/generate/route.ts): the
    skills gathered per category in a map that keeps insertion order, the
    entries sorted by category, and the categories uppercased. The locale
    comparison of the sort is a parameter: any total order on strings. */
module SkillGroups {
  import opened Wrappers
  import opened Text
  import opened CvTypes

  const TechnicalTitle := "Compétences Techniques"
  const OtherTitle := "Autres"

  /** The category a skill is filed under. */
  function CategoryOf(s: Skill): (r: String)
    ensures r != ""
  {
    if s.category == Some("technical") then TechnicalTitle
    else if Truthy(s.category) then s.category.value
    else OtherTitle
  }

  /** 'technical' is filed under the French title, a missing or empty
      category under "Autres", any other category under itself. */
  lemma CategoryDefaults(s: Skill)
    ensures s.category == Some("technical") ==> CategoryOf(s) == "Compétences Techniques"
    ensures !Truthy(s.category) ==> CategoryOf(s) == "Autres"
    ensures Truthy(s.category) && s.category != Some("technical") ==> CategoryOf(s) == s.category.value
  {
  }

  /** A map entry: a category and the names filed under it. A skill without
      a name contributes `None` (`s.name!` does not check). */
  datatype Group = Group(cat: String, list: seq<Option<String>>)

  /** The position of `cat` among the entries. */
  function Find(gs: seq<Group>, cat: String): (r: Option<nat>)
    ensures r.Some? ==> r.value < |gs| && gs[r.value].cat == cat
    ensures r.None? ==> forall k :: 0 <= k < |gs| ==> gs[k].cat != cat
  {
    if gs == [] then None
    else if gs[0].cat == cat then Some(0)
    else match Find(gs[1..], cat)
      case Some(k) => Some(k + 1)
      case None => None
  }

  /** `map.set(cat, [...(map.get(cat) || []), name])`: an existing entry
      keeps its place, a new one goes at the end. */
  function AddName(gs: seq<Group>, cat: String, name: Option<String>): seq<Group> {
    match Find(gs, cat)
    case Some(k) => gs[k := Group(cat, gs[k].list + [name])]
    case None => gs + [Group(cat, [name])]
  }

  /** The map after `reduce` over the skills. */
  function Groups(skills: seq<Skill>): seq<Group>
    decreases |skills|
  {
    if skills == [] then []
    else
      var last := skills[|skills| - 1];
      AddName(Groups(skills[..|skills| - 1]), CategoryOf(last), last.name)
  }

  /** The `reduce` loop. */
  method GroupSkills(skills: seq<Skill>) returns (groups: seq<Group>)
    ensures groups == Groups(skills)
  {
    groups := [];
    for i := 0 to |skills|
      invariant groups == Groups(skills[..i])
    {
      var s := skills[i];
      var cat := CategoryOf(s);
      assert skills[..i + 1][..i] == skills[..i];
      assert Groups(skills[..i + 1]) == AddName(groups, cat, s.name);
      var at := Find(groups, cat);
      if at.Some? {
        groups := groups[at.value := Group(cat, groups[at.value].list + [s.name])];
      } else {
        groups := groups + [Group(cat, [s.name])];
      }
    }
    assert skills[..|skills|] == skills;
  }

  /** The names of the skills filed under `cat`, in input order. */
  function NamesIn(skills: seq<Skill>, cat: String): seq<Option<String>>
    decreases |skills|
  {
    if skills == [] then []
    else
      var last := skills[|skills| - 1];
      NamesIn(skills[..|skills| - 1], cat) + (if CategoryOf(last) == cat then [last.name] else [])
  }

  predicate DistinctCats(gs: seq<Group>) {
    forall i, j :: 0 <= i < |gs| && 0 <= j < |gs| && gs[i].cat == gs[j].cat ==> i == j
  }

  /** The number of names over all entries. */
  function Count(gs: seq<Group>): nat
    decreases |gs|
  {
    if gs == [] then 0 else Count(gs[..|gs| - 1]) + |gs[|gs| - 1].list|
  }

  lemma {:induction false} CountUpdate(gs: seq<Group>, k: nat, g: Group)
    requires k < |gs|
    ensures Count(gs[k := g]) + |gs[k].list| == Count(gs) + |g.list|
    decreases |gs|
  {
    var n := |gs| - 1;
    var t := gs[k := g];
    assert t[..n] == if k < n then gs[..n][k := g] else gs[..n];
    if k < n {
      CountUpdate(gs[..n], k, g);
    }
  }

  lemma CountSnoc(gs: seq<Group>, g: Group)
    ensures Count(gs + [g]) == Count(gs) + |g.list|
  {
    assert (gs + [g])[..|gs|] == gs;
  }

  /** Filing one name: the categories stay distinct, the entry of `cat`
      (the existing one, else a new last one) gets the name, every other
      entry is unchanged, and there is one name more. */
  lemma AddNameSpec(gs: seq<Group>, cat: String, name: Option<String>)
    requires DistinctCats(gs)
    ensures var r := AddName(gs, cat, name);
      DistinctCats(r) &&
      |r| == |gs| + (if Find(gs, cat).Some? then 0 else 1) &&
      (forall k :: 0 <= k < |gs| ==>
        r[k].cat == gs[k].cat && r[k].list == gs[k].list + (if gs[k].cat == cat then [name] else [])) &&
      (Find(gs, cat).None? ==> r[|gs|] == Group(cat, [name])) &&
      Count(r) == Count(gs) + 1
  {
    var r := AddName(gs, cat, name);
    match Find(gs, cat)
    case Some(k) =>
      var g := Group(cat, gs[k].list + [name]);
      assert r == gs[k := g];
      CountUpdate(gs, k, g);
      forall i | 0 <= i < |gs|
        ensures r[i].cat == gs[i].cat && r[i].list == gs[i].list + (if gs[i].cat == cat then [name] else [])
      {
        if i != k {
          assert gs[i].cat != cat;
        }
      }
    case None =>
      var g := Group(cat, [name]);
      assert r == gs + [g];
      CountSnoc(gs, g);
      forall i | 0 <= i < |gs|
        ensures r[i].cat == gs[i].cat && r[i].list == gs[i].list + (if gs[i].cat == cat then [name] else [])
      {
        assert gs[i].cat != cat;
      }
  }

  /** The entries have distinct categories and as many names as there are
      skills. */
  lemma {:induction false} GroupsDistinct(skills: seq<Skill>)
    ensures DistinctCats(Groups(skills)) && Count(Groups(skills)) == |skills|
    decreases |skills|
  {
    if skills != [] {
      var n := |skills| - 1;
      GroupsDistinct(skills[..n]);
      AddNameSpec(Groups(skills[..n]), CategoryOf(skills[n]), skills[n].name);
    }
  }

  /** Where a category is found after filing a name. */
  lemma FindAfterAdd(gs: seq<Group>, cat: String, name: Option<String>, c: String)
    requires DistinctCats(gs)
    ensures Find(AddName(gs, cat, name), c) ==
      if Find(gs, c).Some? then Find(gs, c) else if c == cat then Some(|gs|) else None
  {
    var r := AddName(gs, cat, name);
    AddNameSpec(gs, cat, name);
    match Find(gs, c)
    case Some(j) =>
      assert r[j].cat == c;
    case None =>
      if c == cat {
        assert r[|gs|].cat == c;
      }
  }

  /** A category has an entry exactly when some skill is filed under it,
      and the entry holds exactly those skills' names, in input order. */
  lemma {:induction false} GroupsAt(skills: seq<Skill>, c: String)
    ensures var f := Find(Groups(skills), c);
      (f.None? <==> NamesIn(skills, c) == []) &&
      (f.Some? ==> Groups(skills)[f.value].list == NamesIn(skills, c))
    decreases |skills|
  {
    if skills != [] {
      var n := |skills| - 1;
      var init := skills[..n];
      var cat := CategoryOf(skills[n]);
      var name := skills[n].name;
      var g0 := Groups(init);
      assert Groups(skills) == AddName(g0, cat, name);
      assert NamesIn(skills, c) == NamesIn(init, c) + (if cat == c then [name] else []);
      GroupsAt(init, c);
      GroupsDistinct(init);
      AddNameSpec(g0, cat, name);
      FindAfterAdd(g0, cat, name, c);
    }
  }

  /** Each entry holds exactly the names of the skills filed under it. */
  lemma GroupsNames(skills: seq<Skill>)
    ensures var gs := Groups(skills);
      forall k :: 0 <= k < |gs| ==> gs[k].list == NamesIn(skills, gs[k].cat) && gs[k].list != []
  {
    var gs := Groups(skills);
    GroupsDistinct(skills);
    forall k | 0 <= k < |gs| ensures gs[k].list == NamesIn(skills, gs[k].cat) && gs[k].list != [] {
      GroupsAt(skills, gs[k].cat);
      assert Find(gs, gs[k].cat) == Some(k);
    }
  }

  /** Every skill's category has an entry. */
  lemma {:induction false} GroupsCover(skills: seq<Skill>, i: nat)
    requires i < |skills|
    ensures Find(Groups(skills), CategoryOf(skills[i])).Some?
    decreases |skills|
  {
    GroupsAt(skills, CategoryOf(skills[i]));
    NamesInHas(skills, i);
  }

  /** A skill's own category has at least its name. */
  lemma {:induction false} NamesInHas(skills: seq<Skill>, i: nat)
    requires i < |skills|
    ensures NamesIn(skills, CategoryOf(skills[i])) != []
    decreases |skills|
  {
    var n := |skills| - 1;
    var c := CategoryOf(skills[i]);
    var init := skills[..n];
    var tail := if CategoryOf(skills[n]) == c then [skills[n].name] else [];
    assert NamesIn(skills, c) == NamesIn(init, c) + tail;
    if i < n {
      assert init[i] == skills[i];
      NamesInHas(init, i);
      assert |NamesIn(skills, c)| >= |NamesIn(init, c)| > 0;
    } else {
      assert |tail| == 1;
    }
  }

  // ---------------------------------------------------------------------
  // The sort

  /** A comparison every pair of strings answers one way or the other. */
  ghost predicate IsTotal(le: (String, String) -> bool) {
    forall a, b :: le(a, b) || le(b, a)
  }

  predicate SortedBy(gs: seq<Group>, le: (String, String) -> bool) {
    forall i :: 0 <= i && i + 1 < |gs| ==> le(gs[i].cat, gs[i + 1].cat)
  }

  function InsertGroup(g: Group, gs: seq<Group>, le: (String, String) -> bool): (r: seq<Group>)
    ensures |r| == |gs| + 1
    ensures multiset(r) == multiset(gs) + multiset{g}
    ensures r[0] == g || (gs != [] && r[0] == gs[0])
  {
    if gs == [] || le(g.cat, gs[0].cat) then [g] + gs
    else
      assert gs == [gs[0]] + gs[1..];
      [gs[0]] + InsertGroup(g, gs[1..], le)
  }

  function SortGroups(gs: seq<Group>, le: (String, String) -> bool): (r: seq<Group>)
    ensures multiset(r) == multiset(gs)
    decreases |gs|
  {
    if gs == [] then []
    else
      assert gs == [gs[0]] + gs[1..];
      InsertGroup(gs[0], SortGroups(gs[1..], le), le)
  }

  lemma {:induction false} InsertSorted(g: Group, gs: seq<Group>, le: (String, String) -> bool)
    requires IsTotal(le) && SortedBy(gs, le)
    ensures SortedBy(InsertGroup(g, gs, le), le)
    decreases |gs|
  {
    if !(gs == [] || le(g.cat, gs[0].cat)) {
      InsertSorted(g, gs[1..], le);
      assert le(gs[0].cat, g.cat);
    }
  }

  lemma {:induction false} CountCons(g: Group, gs: seq<Group>)
    ensures Count([g] + gs) == |g.list| + Count(gs)
    decreases |gs|
  {
    if gs != [] {
      var n := |gs| - 1;
      assert ([g] + gs)[..n + 1] == [g] + gs[..n];
      CountCons(g, gs[..n]);
    } else {
      assert ([g] + gs)[..0] == [];
    }
  }

  lemma {:induction false} InsertCount(g: Group, gs: seq<Group>, le: (String, String) -> bool)
    ensures Count(InsertGroup(g, gs, le)) == Count(gs) + |g.list|
    decreases |gs|
  {
    if gs == [] || le(g.cat, gs[0].cat) {
      CountCons(g, gs);
    } else {
      var rest := InsertGroup(g, gs[1..], le);
      assert InsertGroup(g, gs, le) == [gs[0]] + rest;
      InsertCount(g, gs[1..], le);
      CountCons(gs[0], gs[1..]);
      CountCons(gs[0], rest);
      assert [gs[0]] + gs[1..] == gs;
    }
  }

  /** Inserting an entry whose category is new keeps the categories distinct. */
  lemma {:induction false} InsertDistinct(g: Group, gs: seq<Group>, le: (String, String) -> bool)
    requires DistinctCats(gs) && forall x :: x in gs ==> x.cat != g.cat
    ensures DistinctCats(InsertGroup(g, gs, le))
    decreases |gs|
  {
    if !(gs == [] || le(g.cat, gs[0].cat)) {
      var rest := InsertGroup(g, gs[1..], le);
      InsertDistinct(g, gs[1..], le);
      forall x | x in rest ensures x.cat != gs[0].cat {
        assert x in multiset(rest);
      }
    }
  }

  /** Sorting gives an ordered sequence. */
  lemma {:induction false} SortSorted(gs: seq<Group>, le: (String, String) -> bool)
    requires IsTotal(le)
    ensures SortedBy(SortGroups(gs, le), le)
    decreases |gs|
  {
    if gs != [] {
      SortSorted(gs[1..], le);
      InsertSorted(gs[0], SortGroups(gs[1..], le), le);
    }
  }

  /** Sorting keeps the number of names. */
  lemma {:induction false} SortCount(gs: seq<Group>, le: (String, String) -> bool)
    ensures Count(SortGroups(gs, le)) == Count(gs)
    decreases |gs|
  {
    if gs != [] {
      SortCount(gs[1..], le);
      InsertCount(gs[0], SortGroups(gs[1..], le), le);
      CountCons(gs[0], gs[1..]);
      assert [gs[0]] + gs[1..] == gs;
    }
  }

  /** Sorting keeps distinct categories distinct. */
  lemma {:induction false} SortDistinct(gs: seq<Group>, le: (String, String) -> bool)
    requires DistinctCats(gs)
    ensures DistinctCats(SortGroups(gs, le))
    decreases |gs|
  {
    if gs != [] {
      var rest := SortGroups(gs[1..], le);
      SortDistinct(gs[1..], le);
      forall x | x in rest ensures x.cat != gs[0].cat {
        assert x in multiset(gs[1..]);
      }
      InsertDistinct(gs[0], rest, le);
    }
  }

  /** `groupByCat`: no skills give no entries; otherwise the sorted entries
      with their categories uppercased. */
  function GroupByCat(skills: Option<seq<Skill>>, le: (String, String) -> bool): seq<Group> {
    match skills
    case None => []
    case Some(s) =>
      var sorted := SortGroups(Groups(s), le);
      seq(|sorted|, k requires 0 <= k < |sorted| => Group(Upper(sorted[k].cat), sorted[k].list))
  }

  /** Renaming the categories keeps the number of names. */
  lemma {:induction false} SameCount(a: seq<Group>, b: seq<Group>)
    requires |a| == |b| && forall k :: 0 <= k < |a| ==> a[k].list == b[k].list
    ensures Count(a) == Count(b)
    decreases |a|
  {
    if a != [] {
      SameCount(a[..|a| - 1], b[..|b| - 1]);
    }
  }

  /** The sorted entries are the map's: each holds exactly the names of
      the skills filed under its category, at least one. */
  lemma SortedNames(skills: seq<Skill>, le: (String, String) -> bool)
    ensures var sorted := SortGroups(Groups(skills), le);
      forall k :: 0 <= k < |sorted| ==> sorted[k].list == NamesIn(skills, sorted[k].cat) && sorted[k].list != []
  {
    var gs := Groups(skills);
    var sorted := SortGroups(gs, le);
    GroupsNames(skills);
    forall k | 0 <= k < |sorted|
      ensures sorted[k].list == NamesIn(skills, sorted[k].cat) && sorted[k].list != []
    {
      assert sorted[k] in multiset(gs);
      var m :| 0 <= m < |gs| && gs[m] == sorted[k];
    }
  }

  /** The result lists the entries of the map in sorted order, uppercased:
      entry k comes from an entry whose category `c` is distinct from the
      others' and sorted, and whose names are exactly those of the skills
      filed under `c`, in input order; the names number as many as the
      skills. Undefined skills give no entries. */
  lemma GroupByCatSpec(skills: seq<Skill>, le: (String, String) -> bool)
    requires IsTotal(le)
    ensures var sorted := SortGroups(Groups(skills), le);
      var r := GroupByCat(Some(skills), le);
      |r| == |sorted| && SortedBy(sorted, le) && DistinctCats(sorted) &&
      (forall k :: 0 <= k < |r| ==>
        r[k].cat == Upper(sorted[k].cat) && r[k].list == NamesIn(skills, sorted[k].cat) && r[k].list != []) &&
      Count(r) == |skills|
    ensures GroupByCat(None, le) == []
  {
    var gs := Groups(skills);
    GroupsDistinct(skills);
    SortSorted(gs, le);
    SortCount(gs, le);
    SortDistinct(gs, le);
    SortedNames(skills, le);
    SameCount(SortGroups(gs, le), GroupByCat(Some(skills), le));
  }
}
