/** Searching a text with compiled patterns that the model leaves abstract,
    tried in a fixed order, and the stripped non-blank lines of a text:
    both parsers of the Python scripts and the TypeScript parser use them. */
module Search {
  import opened Wrappers
  import opened Text

  /** A compiled pattern, applied with `search`: the matched text (or the
      group the source reads), if any.  The email, phone, LinkedIn, GitHub,
      deployed-site and location patterns are of this kind. */
  type Finder = String -> Option<String>

  /** The result of the first finder in `fs[k..]` that matches. */
  function FirstMatchFrom(fs: seq<Finder>, text: String, k: nat): (r: Option<String>)
    requires k <= |fs|
    decreases |fs| - k
  {
    if k == |fs| then None
    else if fs[k](text).Some? then fs[k](text)
    else FirstMatchFrom(fs, text, k + 1)
  }

  /** The patterns are tried in order: a result is the match of some
      pattern with none matching before it, and no result means no
      pattern matches. */
  lemma {:induction false} FirstMatchInOrder(fs: seq<Finder>, text: String, k: nat)
    requires k <= |fs|
    ensures var r := FirstMatchFrom(fs, text, k);
      r.Some? ==> exists i :: k <= i < |fs| && fs[i](text) == r && forall j :: k <= j < i ==> fs[j](text).None?
    ensures FirstMatchFrom(fs, text, k).None? <==> forall i :: k <= i < |fs| ==> fs[i](text).None?
    decreases |fs| - k
  {
    if k < |fs| && fs[k](text).None? {
      FirstMatchInOrder(fs, text, k + 1);
    }
  }

  /** The loop `for pattern in patterns: match = re.search(...); if match:
      ...; break`, shared by the phone and the location families. */
  method FirstMatch(fs: seq<Finder>, text: String) returns (m: Option<String>)
    ensures m == FirstMatchFrom(fs, text, 0)
  {
    m := None;
    var k := 0;
    while k < |fs|
      invariant k <= |fs|
      invariant FirstMatchFrom(fs, text, k) == FirstMatchFrom(fs, text, 0)
    {
      var found := fs[k](text);
      if found.Some? {
        m := found;
        return;
      }
      k := k + 1;
    }
  }

  /** A matched group, stripped. */
  function StripMatch(m: Option<String>): (r: Option<String>)
    ensures r.Some? <==> m.Some?
    ensures r.Some? ==> r.value == Strip(m.value)
  {
    match m
    case None => None
    case Some(v) => Some(Strip(v))
  }

  /** The stripped non-blank members of `ls`, in order. */
  function NonBlank(ls: seq<String>): (r: seq<String>)
    ensures |r| <= |ls|
  {
    if ls == [] then []
    else
      var s := Strip(ls[|ls| - 1]);
      NonBlank(ls[..|ls| - 1]) + (if s != "" then [s] else [])
  }

  /** One more line is kept, stripped, when it is not blank. */
  lemma NonBlankSnoc(ls: seq<String>, l: String)
    ensures NonBlank(ls + [l]) == NonBlank(ls) + (if Strip(l) != "" then [Strip(l)] else [])
  {
    assert (ls + [l])[..|ls|] == ls;
  }

  /** `NonBlank` keeps exactly the stripped lines that are not empty. */
  lemma {:induction false} NonBlankLines(ls: seq<String>)
    ensures "" !in NonBlank(ls)
  {
    if ls != [] {
      NonBlankLines(ls[..|ls| - 1]);
    }
  }
}
