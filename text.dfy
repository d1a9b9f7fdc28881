/** String operations shared by the Python and TypeScript parsers, stated
    over `seq<char>`.  Whitespace is the six ASCII whitespace characters;
    case mapping covers ASCII and Latin-1 (the French accented letters the
    CVs contain); a "word character" is Python's `\w` restricted to ASCII
    letters, digits, `_` and the Latin letters of U+00C0..U+024F. */
module Text {
  import opened Wrappers

  type String = seq<char>

  // ---------------------------------------------------------------------
  // Character classes

  predicate IsSpace(c: char) {
    c == ' ' || c == '\t' || c == '\n' || c == '\r' || c == '\U{000B}' || c == '\U{000C}'
  }

  predicate IsDigit(c: char) { '0' <= c <= '9' }

  predicate IsAsciiUpper(c: char) { 'A' <= c <= 'Z' }

  predicate IsAsciiLower(c: char) { 'a' <= c <= 'z' }

  predicate IsAsciiLetter(c: char) { IsAsciiUpper(c) || IsAsciiLower(c) }

  /** Latin letters beyond ASCII (Latin-1 Supplement and Latin Extended-A/B),
      leaving out the two arithmetic signs of that block. */
  predicate IsLatinLetter(c: char) {
    '\U{00C0}' <= c <= '\U{024F}' && c != '\U{00D7}' && c != '\U{00F7}'
  }

  /** Python's `\w` on the characters a CV contains. */
  predicate IsWordChar(c: char) {
    IsAsciiLetter(c) || IsDigit(c) || c == '_' || IsLatinLetter(c)
  }

  /** JavaScript's `\w` (ASCII only). */
  predicate IsJsWordChar(c: char) {
    IsAsciiLetter(c) || IsDigit(c) || c == '_'
  }

  predicate IsUpperLatin1(c: char) {
    '\U{00C0}' <= c <= '\U{00DE}' && c != '\U{00D7}'
  }

  predicate IsLowerLatin1(c: char) {
    '\U{00E0}' <= c <= '\U{00FE}' && c != '\U{00F7}'
  }

  function LowerChar(c: char): (r: char)
    ensures !IsAsciiUpper(r) && !IsUpperLatin1(r)
    ensures IsAsciiLetter(c) <==> IsAsciiLetter(r)
  {
    if IsAsciiUpper(c) || IsUpperLatin1(c) then (c as int + 32) as char else c
  }

  function UpperChar(c: char): (r: char)
    ensures !IsAsciiLower(r) && !IsLowerLatin1(r)
  {
    if IsAsciiLower(c) || IsLowerLatin1(c) then (c as int - 32) as char else c
  }

  function Lower(s: String): String {
    seq(|s|, i requires 0 <= i < |s| => LowerChar(s[i]))
  }

  function Upper(s: String): String {
    seq(|s|, i requires 0 <= i < |s| => UpperChar(s[i]))
  }

  lemma LowerIdempotent(s: String)
    ensures Lower(Lower(s)) == Lower(s)
  {
  }

  lemma LowerConcat(a: String, b: String)
    ensures Lower(a + b) == Lower(a) + Lower(b)
  {
  }

  lemma LowerSlice(s: String, a: nat, b: nat)
    requires a <= b <= |s|
    ensures Lower(s)[a..b] == Lower(s[a..b])
  {
  }

  /** Python's `str.title()` on a single lower-case word: first letter up. */
  function TitleWord(s: String): (r: String)
    ensures |r| == |s|
    ensures s != [] ==> r[0] == UpperChar(s[0]) && r[1..] == s[1..]
  {
    if s == [] then [] else [UpperChar(s[0])] + s[1..]
  }

  // ---------------------------------------------------------------------
  // Prefixes, searching

  predicate StartsWith<T(==)>(s: seq<T>, p: seq<T>) {
    |p| <= |s| && s[..|p|] == p
  }

  predicate EndsWith<T(==)>(s: seq<T>, p: seq<T>) {
    |p| <= |s| && s[|s| - |p|..] == p
  }

  predicate OccursAt<T(==)>(s: seq<T>, sub: seq<T>, i: nat) {
    i + |sub| <= |s| && s[i..i + |sub|] == sub
  }

  /** The first index at which `sub` occurs in `s` (JavaScript `indexOf`,
      Python `find`). */
  function IndexOfFrom<T(==)>(s: seq<T>, sub: seq<T>, from: nat): (r: Option<nat>)
    requires from <= |s|
    ensures r.Some? ==> from <= r.value && OccursAt(s, sub, r.value)
    decreases |s| - from
  {
    if OccursAt(s, sub, from) then Some(from)
    else if from == |s| then None
    else IndexOfFrom(s, sub, from + 1)
  }

  /** `IndexOfFrom` finds the first occurrence from `from` on, and finds
      nothing only when there is no occurrence from `from` on. */
  lemma {:induction false} IndexOfFromLeftmost<T>(s: seq<T>, sub: seq<T>, from: nat)
    requires from <= |s|
    ensures var r := IndexOfFrom(s, sub, from);
      r.Some? ==> forall k :: from <= k < r.value ==> !OccursAt(s, sub, k)
    ensures IndexOfFrom(s, sub, from).None? ==> forall k :: from <= k <= |s| ==> !OccursAt(s, sub, k)
    decreases |s| - from
  {
    if !OccursAt(s, sub, from) && from < |s| {
      IndexOfFromLeftmost(s, sub, from + 1);
    }
  }

  function IndexOf<T(==)>(s: seq<T>, sub: seq<T>): (r: Option<nat>)
    ensures r.Some? ==> OccursAt(s, sub, r.value)
  {
    IndexOfFrom(s, sub, 0)
  }

  /** `IndexOf` is the first occurrence, and `None` means there is none. */
  lemma IndexOfLeftmost<T>(s: seq<T>, sub: seq<T>)
    ensures var r := IndexOf(s, sub); r.Some? ==> forall k :: 0 <= k < r.value ==> !OccursAt(s, sub, k)
    ensures IndexOf(s, sub).None? ==> forall k :: 0 <= k <= |s| ==> !OccursAt(s, sub, k)
  {
    IndexOfFromLeftmost(s, sub, 0);
  }

  predicate Contains<T(==)>(s: seq<T>, sub: seq<T>) {
    IndexOf(s, sub).Some?
  }

  /** Some word of `ws` occurs in `s`. */
  predicate ContainsAny(s: String, ws: seq<String>) {
    exists k :: 0 <= k < |ws| && Contains(s, ws[k])
  }

  /** `s` starts with some member of `prefixes`. */
  predicate StartsWithAny(s: String, prefixes: seq<String>) {
    exists i :: 0 <= i < |prefixes| && StartsWith(s, prefixes[i])
  }

  /** `sub` is a contiguous part of `s`. */
  lemma ContainsWitness<T>(s: seq<T>, sub: seq<T>, i: nat)
    requires OccursAt(s, sub, i)
    ensures Contains(s, sub)
  {
    IndexOfLeftmost(s, sub);
  }

  /** The last index at which `c` occurs (JavaScript `lastIndexOf`). */
  function LastIndexOfChar(s: String, c: char): (r: Option<nat>)
    ensures r.Some? ==> r.value < |s| && s[r.value] == c
    ensures r.Some? ==> forall k :: r.value < k < |s| ==> s[k] != c
    ensures r.None? ==> c !in s
  {
    if s == [] then None
    else if s[|s| - 1] == c then Some(|s| - 1)
    else LastIndexOfChar(s[..|s| - 1], c)
  }

  /** Replaces the first occurrence of `pat` (JavaScript `replace` with a
      string pattern). */
  function ReplaceFirst(s: String, pat: String, rep: String): (r: String)
  {
    match IndexOf(s, pat)
    case None => s
    case Some(i) => s[..i] + rep + s[i + |pat|..]
  }

  // ---------------------------------------------------------------------
  // Trimming

  function TrimStart(s: String): (r: String)
    ensures |r| <= |s|
  {
    if s != [] && IsSpace(s[0]) then TrimStart(s[1..]) else s
  }

  function TrimEnd(s: String): (r: String)
    ensures |r| <= |s|
  {
    if s != [] && IsSpace(s[|s| - 1]) then TrimEnd(s[..|s| - 1]) else s
  }

  /** `TrimStart` keeps a suffix that starts with a non-space, having
      removed only whitespace. */
  lemma {:induction false} TrimStartSuffix(s: String)
    ensures TrimStart(s) == s[|s| - |TrimStart(s)|..]
    ensures TrimStart(s) == [] || !IsSpace(TrimStart(s)[0])
    ensures forall i :: 0 <= i < |s| - |TrimStart(s)| ==> IsSpace(s[i])
  {
    if s != [] && IsSpace(s[0]) {
      TrimStartSuffix(s[1..]);
      assert forall i :: 1 <= i < |s| ==> s[i] == s[1..][i - 1];
    }
  }

  /** `TrimEnd` keeps a prefix that ends with a non-space, having removed
      only whitespace. */
  lemma {:induction false} TrimEndPrefix(s: String)
    ensures TrimEnd(s) == s[..|TrimEnd(s)|]
    ensures TrimEnd(s) == [] || !IsSpace(TrimEnd(s)[|TrimEnd(s)| - 1])
    ensures forall i :: |TrimEnd(s)| <= i < |s| ==> IsSpace(s[i])
  {
    if s != [] && IsSpace(s[|s| - 1]) {
      TrimEndPrefix(s[..|s| - 1]);
    }
  }

  predicate AllSpace(s: String) {
    forall i :: 0 <= i < |s| ==> IsSpace(s[i])
  }

  /** Python `strip()` and JavaScript `trim()`: the part of `s` between its
      leading and trailing whitespace. */
  function Strip(s: String): (r: String)
    ensures |r| <= |s|
  {
    TrimEnd(TrimStart(s))
  }

  /** The stripped text neither starts nor ends with whitespace. */
  lemma StripEnds(s: String)
    ensures Strip(s) == [] || (!IsSpace(Strip(s)[0]) && !IsSpace(Strip(s)[|Strip(s)| - 1]))
  {
    var t := TrimStart(s);
    TrimStartSuffix(s);
    TrimEndPrefix(t);
    if TrimEnd(t) != [] {
      assert TrimEnd(t)[0] == t[0];
    }
  }

  /** The stripped text is empty exactly when the text is all whitespace. */
  lemma StripEmpty(s: String)
    ensures Strip(s) == [] <==> AllSpace(s)
  {
    var t := TrimStart(s);
    TrimStartSuffix(s);
    TrimEndPrefix(t);
    if TrimEnd(t) != [] {
      assert !IsSpace(t[0]);
      assert t[0] == s[|s| - |t|];
    }
  }

  /** Every character of the stripped text occurs in the text. */
  lemma StripChars(s: String)
    ensures forall i :: 0 <= i < |Strip(s)| ==> Strip(s)[i] in s
  {
    var t := TrimStart(s);
    var r := TrimEnd(t);
    TrimStartSuffix(s);
    TrimEndPrefix(t);
    forall i | 0 <= i < |r| ensures r[i] in s {
      assert r[i] == t[i];
      assert t[i] == s[|s| - |t| + i];
    }
  }

  /** Stripping adds no character, so one that is absent stays absent. */
  lemma StripKeepsOut(s: String, out: set<char>)
    requires forall j :: 0 <= j < |s| ==> s[j] !in out
    ensures forall j :: 0 <= j < |Strip(s)| ==> Strip(s)[j] !in out
  {
    StripChars(s);
    forall j | 0 <= j < |Strip(s)| ensures Strip(s)[j] !in out {
      var k :| 0 <= k < |s| && s[k] == Strip(s)[j];
    }
  }

  lemma StripIdempotent(s: String)
    ensures Strip(Strip(s)) == Strip(s)
  {
    var r := Strip(s);
    StripEnds(s);
    if r != [] {
      assert TrimStart(r) == r;
      assert TrimEnd(r) == r;
    }
  }

  lemma StripNoSpace(s: String)
    requires forall i :: 0 <= i < |s| ==> !IsSpace(s[i])
    ensures Strip(s) == s
  {
    if s != [] {
      assert !IsSpace(s[0]);
      assert !IsSpace(s[|s| - 1]);
    }
  }

  // ---------------------------------------------------------------------
  // Splitting and joining

  /** Python `str.split(sep)` / JavaScript `split(sep)` with a non-empty
      string separator: always at least one piece. */
  function SplitSeq<T(==)>(s: seq<T>, sep: seq<T>): (r: seq<seq<T>>)
    requires |sep| > 0
    ensures |r| >= 1
    decreases |s|
  {
    if |s| < |sep| then [s]
    else if s[..|sep|] == sep then [[]] + SplitSeq(s[|sep|..], sep)
    else
      var rest := SplitSeq(s[1..], sep);
      [[s[0]] + rest[0]] + rest[1..]
  }

  function Join<T>(parts: seq<seq<T>>, sep: seq<T>): seq<T> {
    if parts == [] then []
    else if |parts| == 1 then parts[0]
    else parts[0] + sep + Join(parts[1..], sep)
  }

  lemma JoinConsHead<T>(x: T, parts: seq<seq<T>>, sep: seq<T>)
    requires |parts| >= 1
    ensures Join([[x] + parts[0]] + parts[1..], sep) == [x] + Join(parts, sep)
  {
    var ps := [[x] + parts[0]] + parts[1..];
    if |parts| > 1 {
      assert ps[1..] == parts[1..];
    }
  }

  /** Joining one more part adds the separator and the part. */
  lemma {:induction false} JoinSnoc<T>(parts: seq<seq<T>>, x: seq<T>, sep: seq<T>)
    requires parts != []
    ensures Join(parts + [x], sep) == Join(parts, sep) + sep + x
    decreases |parts|
  {
    if |parts| == 1 {
      assert (parts + [x])[1..] == [x];
    } else {
      JoinSnoc(parts[1..], x, sep);
      assert (parts + [x])[1..] == parts[1..] + [x];
    }
  }

  /** Splitting and joining with the same separator gives back the text. */
  lemma {:induction false} SplitJoin<T>(s: seq<T>, sep: seq<T>)
    requires |sep| > 0
    ensures Join(SplitSeq(s, sep), sep) == s
    decreases |s|
  {
    if |s| < |sep| {
    } else if s[..|sep|] == sep {
      SplitJoin(s[|sep|..], sep);
      var rest := SplitSeq(s[|sep|..], sep);
      assert SplitSeq(s, sep) == [[]] + rest;
      assert ([[]] + rest)[1..] == rest;
      assert s == sep + s[|sep|..];
    } else {
      SplitJoin(s[1..], sep);
      var rest := SplitSeq(s[1..], sep);
      JoinConsHead(s[0], rest, sep);
      assert s == [s[0]] + s[1..];
    }
  }

  /** With a one-character separator no piece contains it. */
  lemma {:induction false} SplitPiecesAvoid(s: String, c: char)
    ensures forall k :: 0 <= k < |SplitSeq(s, [c])| ==> c !in SplitSeq(s, [c])[k]
    decreases |s|
  {
    if |s| >= 1 {
      SplitPiecesAvoid(s[1..], c);
      if s[..1] != [c] {
        assert s[0] != c;
      }
    }
  }

  /** A text without the separator is one piece. */
  lemma {:induction false} SplitWithoutSep<T>(s: seq<T>, sep: seq<T>)
    requires |sep| > 0
    requires !Contains(s, sep)
    ensures SplitSeq(s, sep) == [s]
    decreases |s|
  {
    IndexOfLeftmost(s, sep);
    if |s| >= |sep| {
      assert !OccursAt(s, sep, 0);
      assert !Contains(s[1..], sep) by {
        IndexOfLeftmost(s[1..], sep);
        forall k | 0 <= k <= |s[1..]| ensures !OccursAt(s[1..], sep, k) {
          assert !OccursAt(s, sep, k + 1);
          if k + |sep| <= |s[1..]| {
            assert s[1..][k..k + |sep|] == s[k + 1..k + 1 + |sep|];
          }
        }
      }
      SplitWithoutSep(s[1..], sep);
      assert [s[0]] + s[1..] == s;
    }
  }

  /** Splitting at a one-character separator that first occurs right after `w`. */
  lemma {:induction false} SplitWord(w: String, rest: String, c: char := ' ')
    requires c !in w
    ensures SplitSeq(w + [c] + rest, [c]) == [w] + SplitSeq(rest, [c])
    decreases |w|
  {
    var s := w + [c] + rest;
    if w == [] {
      assert s == [c] + rest;
      assert s[..1] == [c] && s[1..] == rest;
    } else {
      assert s[..1] == [w[0]] != [c];
      assert s[1..] == w[1..] + [c] + rest;
      SplitWord(w[1..], rest, c);
      assert [w[0]] + w[1..] == w;
    }
  }

  /** A word without spaces splits into itself. */
  lemma {:induction false} SplitNoSpace(w: String)
    requires ' ' !in w
    ensures SplitSeq(w, " ") == [w]
    decreases |w|
  {
    if w != [] {
      assert w[..1] == [w[0]] != " ";
      SplitNoSpace(w[1..]);
      assert [w[0]] + w[1..] == w;
    }
  }

  /** Splitting words without spaces, joined by single spaces, gives the
      words back. */
  lemma {:induction false} JoinSplit(parts: seq<String>)
    requires |parts| >= 1
    requires forall k :: 0 <= k < |parts| ==> ' ' !in parts[k]
    ensures SplitSeq(Join(parts, " "), " ") == parts
    decreases |parts|
  {
    if |parts| == 1 {
      SplitNoSpace(parts[0]);
    } else {
      JoinSplit(parts[1..]);
      SplitWord(parts[0], Join(parts[1..], " "));
      assert [parts[0]] + parts[1..] == parts;
    }
  }

  /** JavaScript `split` with a one-character class `[...]`: the pieces
      between separator characters. */
  function SplitAny(s: String, seps: set<char>): (r: seq<String>)
    ensures |r| >= 1
    ensures forall k, j :: 0 <= k < |r| && 0 <= j < |r[k]| ==> r[k][j] !in seps
    ensures (forall i :: 0 <= i < |s| ==> s[i] !in seps) ==> r == [s]
  {
    if s == [] then [[]]
    else if s[0] in seps then [[]] + SplitAny(s[1..], seps)
    else
      var rest := SplitAny(s[1..], seps);
      assert [s[0]] + s[1..] == s;
      [[s[0]] + rest[0]] + rest[1..]
  }

  function Lines(s: String): (r: seq<String>)
    ensures |r| >= 1
  {
    SplitSeq(s, "\n")
  }

  /** The text has no line break, so it splits into a single line. */
  lemma SingleLine(s: String)
    requires '\n' !in s
    ensures Lines(s) == [s]
  {
    forall k | 0 <= k <= |s| ensures !OccursAt(s, "\n", k) {
      if k + 1 <= |s| {
        assert s[k..k + 1][0] == s[k];
      }
    }
    SplitWithoutSep(s, "\n");
  }

  /** A line without a break followed by one break: the line, then an
      empty last piece. */
  lemma {:induction false} LinesOfTerminated(s: String)
    requires '\n' !in s
    ensures Lines(s + "\n") == [s, ""]
  {
    if s == [] {
      assert (s + "\n")[..1] == "\n";
      assert (s + "\n")[1..] == [];
      assert SplitSeq<char>([], "\n") == [[]];
      assert SplitSeq(s + "\n", "\n") == [[]] + SplitSeq<char>([], "\n");
    } else {
      assert (s + "\n")[..1] != "\n" by { assert (s + "\n")[0] == s[0]; }
      assert (s + "\n")[1..] == s[1..] + "\n";
      LinesOfTerminated(s[1..]);
      assert [s[0]] + s[1..] == s;
    }
  }

  /** `Strip` cuts a contiguous piece out of the text. */
  lemma StripSlice(s: String)
    ensures var a := |s| - |TrimStart(s)|; a + |Strip(s)| <= |s| && Strip(s) == s[a..a + |Strip(s)|]
  {
    TrimStartSuffix(s);
    TrimEndPrefix(TrimStart(s));
  }

  // ---------------------------------------------------------------------
  // Whitespace collapsing

  /** Replaces each maximal run of whitespace by `rep` (Python
      `re.sub(r'\s+', rep, s)`, JavaScript `replace(/\s+/g, rep)`). */
  function Collapse(s: String, rep: String): (r: String)
    ensures s != [] && !IsSpace(s[0]) ==> r != [] && r[0] == s[0]
    ensures s != [] && IsSpace(s[0]) ==> StartsWith(r, rep)
    ensures (forall i :: 0 <= i < |rep| ==> !IsSpace(rep[i])) ==>
              forall i :: 0 <= i < |r| ==> !IsSpace(r[i])
    ensures forall i :: 0 <= i < |r| ==> r[i] in s || r[i] in rep
    decreases |s|
  {
    if s == [] then []
    else if IsSpace(s[0]) then
      var t := TrimStart(s);
      TrimStartSuffix(s);
      var tail := Collapse(t, rep);
      assert forall i :: 0 <= i < |t| ==> t[i] == s[|s| - |t| + i];
      rep + tail
    else [s[0]] + Collapse(s[1..], rep)
  }

  predicate NoDoubleSpace(s: String) {
    forall i :: 0 <= i && i + 1 < |s| ==> !(IsSpace(s[i]) && IsSpace(s[i + 1]))
  }

  predicate OnlyBlank(s: String) {
    forall i :: 0 <= i < |s| ==> IsSpace(s[i]) ==> s[i] == ' '
  }

  /** Collapsing to one space leaves single spaces only, never two in a row. */
  lemma {:induction false} CollapseSpace(s: String)
    ensures OnlyBlank(Collapse(s, " ")) && NoDoubleSpace(Collapse(s, " "))
    decreases |s|
  {
    if s == [] {
    } else if IsSpace(s[0]) {
      var t := TrimStart(s);
      TrimStartSuffix(s);
      CollapseSpace(t);
      var tail := Collapse(t, " ");
      assert tail == [] || !IsSpace(tail[0]);
      assert Collapse(s, " ") == " " + tail;
    } else {
      CollapseSpace(s[1..]);
      assert Collapse(s, " ") == [s[0]] + Collapse(s[1..], " ");
    }
  }

  // ---------------------------------------------------------------------
  // Python words: `re.findall(r'\b\w+\b', s)`

  /** The longest prefix of word characters. */
  function WordPrefix(s: String): (r: String)
    ensures |r| <= |s| && r == s[..|r|]
    ensures forall i :: 0 <= i < |r| ==> IsWordChar(r[i])
    ensures |r| < |s| ==> !IsWordChar(s[|r|])
  {
    if s != [] && IsWordChar(s[0]) then [s[0]] + WordPrefix(s[1..]) else []
  }

  /** The maximal runs of word characters, in order. */
  function Words(s: String): (r: seq<String>)
    ensures forall k :: 0 <= k < |r| ==> r[k] != [] && forall i :: 0 <= i < |r[k]| ==> IsWordChar(r[k][i])
    decreases |s|
  {
    if s == [] then []
    else if !IsWordChar(s[0]) then Words(s[1..])
    else
      var w := WordPrefix(s);
      [w] + Words(s[|w|..])
  }

  // ---------------------------------------------------------------------
  // Numbers

  predicate IsDigits(s: String) {
    s != [] && forall i :: 0 <= i < |s| ==> IsDigit(s[i])
  }

  function DigitChar(d: nat): (c: char)
    requires d < 10
    ensures IsDigit(c)
  {
    ('0' as int + d) as char
  }

  /** Decimal rendering of a natural number. */
  function NatToString(n: nat): (r: String)
    ensures IsDigits(r)
    ensures r[0] == '0' ==> n == 0
  {
    if n < 10 then [DigitChar(n)] else NatToString(n / 10) + [DigitChar(n % 10)]
  }

  function DigitValue(c: char): nat
    requires IsDigit(c)
  {
    c as int - '0' as int
  }

  function DigitsValue(s: String): nat
    requires forall i :: 0 <= i < |s| ==> IsDigit(s[i])
  {
    if s == [] then 0 else DigitsValue(s[..|s| - 1]) * 10 + DigitValue(s[|s| - 1])
  }

  /** Reading back the decimal rendering gives the number. */
  lemma {:induction false} NatToStringRoundTrip(n: nat)
    ensures DigitsValue(NatToString(n)) == n
  {
    if n >= 10 {
      NatToStringRoundTrip(n / 10);
      var r := NatToString(n);
      assert r[..|r| - 1] == NatToString(n / 10);
    }
  }

  /** Python slicing `s[a:b]` with both bounds non-negative: clamped. */
  function Slice<T>(s: seq<T>, a: nat, b: nat): (r: seq<T>)
    ensures |r| == if a < b && a < |s| then (if b <= |s| then b else |s|) - a else 0
  {
    var hi := if b <= |s| then b else |s|;
    if a < hi then s[a..hi] else []
  }

  /** A bound clamped into `0..n`. */
  function Clamp(a: int, n: nat): (r: nat)
    ensures r <= n
    ensures 0 <= a <= n ==> r == a
  {
    if a < 0 then 0 else if a > n then n else a
  }

  /** JavaScript `substring(a, b)`: both bounds clamped to the text, and
      swapped when they come in the wrong order. */
  function Substring(s: String, a: int, b: int): (r: String)
    ensures 0 <= a <= b <= |s| ==> r == s[a..b]
    ensures |r| <= |s|
  {
    var x := Clamp(a, |s|);
    var y := Clamp(b, |s|);
    if x <= y then s[x..y] else s[y..x]
  }

  /** A substring holds no character its string lacks. */
  lemma SubstringAvoids(s: String, a: int, b: int, c: char)
    requires c !in s
    ensures c !in Substring(s, a, b)
  {
    var x := Clamp(a, |s|);
    var y := Clamp(b, |s|);
    if x <= y {
      assert forall j :: 0 <= j < y - x ==> s[x..y][j] == s[x + j];
    } else {
      assert forall j :: 0 <= j < x - y ==> s[y..x][j] == s[y + j];
    }
  }

  function Min(a: int, b: int): int { if a <= b then a else b }

  function Max(a: int, b: int): int { if a >= b then a else b }
}
