/** The generic helpers of lib/utils/index.ts: the password rules, text
    cleaning, the e-mail shape test and the class-name joiner. */
module Utils {
  import opened Wrappers
  import opened Text

  // ---------------------------------------------------------------------
  // cn

  /** `inputs.filter(Boolean)`: the non-empty strings, in order. */
  function NonEmpty(inputs: seq<String>): (r: seq<String>)
    ensures |r| <= |inputs|
    ensures "" !in r
    decreases |inputs|
  {
    if inputs == [] then []
    else
      var last := inputs[|inputs| - 1];
      NonEmpty(inputs[..|inputs| - 1]) + (if last != "" then [last] else [])
  }

  /** `cn(...inputs)`: the non-empty arguments joined by single spaces. */
  function Cn(inputs: seq<String>): String {
    Join(NonEmpty(inputs), " ")
  }

  /** Empty arguments are dropped and the others kept in order. */
  lemma CnSnoc(inputs: seq<String>, x: String)
    ensures NonEmpty(inputs + [x]) == NonEmpty(inputs) + (if x != "" then [x] else [])
  {
    assert (inputs + [x])[..|inputs|] == inputs;
  }

  /** With no non-empty argument the result is empty. */
  lemma {:induction false} CnAllEmpty(inputs: seq<String>)
    requires forall k :: 0 <= k < |inputs| ==> inputs[k] == ""
    ensures Cn(inputs) == ""
    decreases |inputs|
  {
    if inputs != [] {
      CnAllEmpty(inputs[..|inputs| - 1]);
    }
  }

  /** Every kept argument comes from the input, and each non-empty input is
      kept. */
  lemma {:induction false} NonEmptyMembers(inputs: seq<String>)
    ensures forall x :: x in NonEmpty(inputs) <==> x in inputs && x != ""
    decreases |inputs|
  {
    if inputs != [] {
      var init := inputs[..|inputs| - 1];
      NonEmptyMembers(init);
      assert inputs == init + [inputs[|inputs| - 1]];
    }
  }

  /** When no argument holds a space, splitting the result at spaces gives
      back the non-empty arguments. */
  lemma CnSplit(inputs: seq<String>)
    requires forall k :: 0 <= k < |inputs| ==> ' ' !in inputs[k]
    requires NonEmpty(inputs) != []
    ensures SplitSeq(Cn(inputs), " ") == NonEmpty(inputs)
  {
    NonEmptyMembers(inputs);
    var kept := NonEmpty(inputs);
    forall k | 0 <= k < |kept|
      ensures ' ' !in kept[k]
    {
      assert kept[k] in kept;
    }
    JoinSplit(kept);
  }

  // ---------------------------------------------------------------------
  // isValidEmail

  predicate NoSpaceAnywhere(s: String) {
    forall k :: 0 <= k < |s| ==> !IsSpace(s[k])
  }

  /** `/^[^\s@]+@[^\s@]+\.[^\s@]+$/`: a local part, '@', then a domain
      with a '.' that has text on both sides, where no part holds
      whitespace or another '@'. `at` and `dot` are the positions of the
      '@' and of the chosen '.'. */
  predicate EmailMatchAt(s: String, at: nat, dot: nat) {
    0 < at && at + 1 < dot && dot + 1 < |s| && s[at] == '@' && s[dot] == '.' &&
    NoSpaceAnywhere(s) && (forall k :: 0 <= k < |s| && k != at ==> s[k] != '@')
  }

  predicate EmailMatch(s: String) {
    exists at: nat, dot: nat :: at < |s| && dot < |s| && EmailMatchAt(s, at, dot)
  }

  /** The domain has a '.' strictly inside it. */
  predicate DotInside(d: String) {
    |d| >= 3 && '.' in d[1..|d| - 1]
  }

  /** `isValidEmail`, decided by locating the '@'. */
  function IsValidEmail(email: String): bool {
    NoSpaceAnywhere(email) &&
    match LastIndexOfChar(email, '@')
    case None => false
    case Some(at) => 0 < at && '@' !in email[..at] && DotInside(email[at + 1..])
  }

  /** The decision procedure agrees with the regular expression. */
  lemma EmailSound(email: String)
    requires IsValidEmail(email)
    ensures EmailMatch(email)
  {
    var at := LastIndexOfChar(email, '@').value;
    var d := email[at + 1..];
    var j :| 0 <= j < |d[1..|d| - 1]| && d[1..|d| - 1][j] == '.';
    var dot := at + 2 + j;
    assert email[dot] == '.';
    forall k | 0 <= k < |email| && k != at
      ensures email[k] != '@'
    {
      if k < at {
        assert email[k] == email[..at][k];
      }
    }
    assert EmailMatchAt(email, at, dot);
  }

  lemma EmailComplete(email: String, at: nat, dot: nat)
    requires EmailMatchAt(email, at, dot)
    ensures IsValidEmail(email)
  {
    var r := LastIndexOfChar(email, '@');
    assert email[at] == '@';
    assert r.Some?;
    assert r.value == at;
    assert '@' !in email[..at] by {
      forall k | 0 <= k < at
        ensures email[..at][k] != '@'
      {
        assert email[..at][k] == email[k];
      }
    }
    var d := email[at + 1..];
    assert d[1..|d| - 1][dot - at - 2] == '.';
  }

  lemma EmailSpec(email: String)
    ensures IsValidEmail(email) <==> EmailMatch(email)
  {
    if IsValidEmail(email) {
      EmailSound(email);
    }
    if EmailMatch(email) {
      var at: nat, dot: nat :| EmailMatchAt(email, at, dot);
      EmailComplete(email, at, dot);
    }
  }

  /** A second '@', a domain without an inner dot and a space are each
      rejected; "a@b.c" is accepted. */
  lemma EmailSamples()
    ensures IsValidEmail("a@b.c")
    ensures !IsValidEmail("a@b@c.d")
    ensures !IsValidEmail("a@bc")
    ensures !IsValidEmail("a b@c.d")
  {
    assert EmailMatchAt("a@b.c", 1, 3);
    EmailComplete("a@b.c", 1, 3);
    assert !NoSpaceAnywhere("a b@c.d") by {
      assert IsSpace("a b@c.d"[1]);
    }
    var two := "a@b@c.d";
    assert two[3] == '@' && two[4] != '@' && two[5] != '@' && two[6] != '@';
    assert LastIndexOfChar(two, '@') == Some(3);
    assert two[..3][1] == '@';
    var nodot := "a@bc";
    assert nodot[1] == '@' && nodot[2] != '@' && nodot[3] != '@';
    assert LastIndexOfChar(nodot, '@') == Some(1);
  }

  // ---------------------------------------------------------------------
  // cleanText

  /** `replace(/^\w/, c => c.toUpperCase())`. */
  function UpperFirst(s: String): (r: String)
    ensures |r| == |s|
    ensures s != [] ==> r[1..] == s[1..]
  {
    if s != [] && IsJsWordChar(s[0]) then [UpperChar(s[0])] + s[1..] else s
  }

  /** `cleanText`: trimmed, every run of whitespace a single space, and the
      first character uppercased when it is a word character. */
  function CleanText(text: String): String {
    UpperFirst(Collapse(Strip(text), " "))
  }

  /** Collapsing keeps a non-space last character. */
  lemma {:induction false} CollapseLast(s: String)
    requires s != [] && !IsSpace(s[|s| - 1])
    ensures Collapse(s, " ") != [] && !IsSpace(Collapse(s, " ")[|Collapse(s, " ")| - 1])
    decreases |s|
  {
    if IsSpace(s[0]) {
      var t := TrimStart(s);
      TrimStartSuffix(s);
      assert t != [] && t[|t| - 1] == s[|s| - 1];
      CollapseLast(t);
    } else if |s| > 1 {
      CollapseLast(s[1..]);
    }
  }

  /** Text that already has single spaces only is left as it is. */
  lemma {:induction false} CollapseSingle(s: String)
    requires OnlyBlank(s) && NoDoubleSpace(s)
    ensures Collapse(s, " ") == s
    decreases |s|
  {
    if s != [] {
      if IsSpace(s[0]) {
        assert s[0] == ' ';
        assert |s| == 1 || !IsSpace(s[1]);
        assert TrimStart(s[1..]) == s[1..];
        assert TrimStart(s) == s[1..];
        CollapseSingle(s[1..]);
        assert [s[0]] + s[1..] == s;
      } else {
        CollapseSingle(s[1..]);
        assert [s[0]] + s[1..] == s;
      }
    }
  }

  /** The shape of the cleaned text: no whitespace at either end, only
      single spaces, and an uppercase first word character. */
  predicate Cleaned(r: String) {
    (r == [] || (!IsSpace(r[0]) && !IsSpace(r[|r| - 1]))) &&
    OnlyBlank(r) && NoDoubleSpace(r) &&
    (r != [] && IsJsWordChar(r[0]) ==> !IsAsciiLower(r[0]))
  }

  lemma UpperCharJsWord(c: char)
    requires IsJsWordChar(c)
    ensures IsJsWordChar(UpperChar(c)) && !IsSpace(UpperChar(c))
  {
  }

  lemma CleanTextShape(text: String)
    ensures Cleaned(CleanText(text))
  {
    var s := Strip(text);
    StripEnds(text);
    var c := Collapse(s, " ");
    CollapseSpace(s);
    if s != [] {
      CollapseLast(s);
      assert c[0] == s[0];
    }
    UpperFirstCleaned(c);
  }

  /** Uppercasing the first character keeps the spacing of a text whose ends
      are not whitespace. */
  lemma UpperFirstCleaned(c: String)
    requires c == [] || (!IsSpace(c[0]) && !IsSpace(c[|c| - 1]))
    requires OnlyBlank(c) && NoDoubleSpace(c)
    ensures Cleaned(UpperFirst(c))
  {
    var r := UpperFirst(c);
    if c != [] && IsJsWordChar(c[0]) {
      UpperCharJsWord(c[0]);
      assert r[0] == UpperChar(c[0]);
      forall i | 0 < i < |r| ensures r[i] == c[i] {
        assert r[i] == r[1..][i - 1];
      }
      assert OnlyBlank(r) by {
        forall i | 0 <= i < |r| && IsSpace(r[i]) ensures r[i] == ' ' {
          if i > 0 { assert r[i] == c[i]; }
        }
      }
      assert NoDoubleSpace(r) by {
        forall i | 0 <= i && i + 1 < |r| ensures !(IsSpace(r[i]) && IsSpace(r[i + 1])) {
          assert r[i + 1] == c[i + 1];
          if i > 0 { assert r[i] == c[i]; }
        }
      }
      if |r| > 1 {
        assert r[|r| - 1] == c[|c| - 1];
      }
    }
  }

  /** Cleaning cleaned text changes nothing. */
  lemma CleanedFixed(r: String)
    requires Cleaned(r)
    ensures CleanText(r) == r
  {
    if r != [] {
      StripNoEnds(r);
    }
    CollapseSingle(r);
    if r != [] && IsJsWordChar(r[0]) {
      assert [UpperChar(r[0])] + r[1..] == r;
    }
  }

  lemma StripNoEnds(s: String)
    requires s != [] && !IsSpace(s[0]) && !IsSpace(s[|s| - 1])
    ensures Strip(s) == s
  {
    assert TrimStart(s) == s;
  }

  /** `cleanText` is idempotent. */
  lemma CleanTextIdempotent(text: String)
    ensures CleanText(CleanText(text)) == CleanText(text)
  {
    CleanTextShape(text);
    CleanedFixed(CleanText(text));
  }

  // ---------------------------------------------------------------------
  // validatePassword

  const MinLength: nat := 8

  const LengthError := "Au moins 8 caractères"
  const UpperError := "Au moins une majuscule"
  const LowerError := "Au moins une minuscule"
  const DigitError := "Au moins un chiffre"

  predicate HasUpper(p: String) { exists i :: 0 <= i < |p| && IsAsciiUpper(p[i]) }
  predicate HasLower(p: String) { exists i :: 0 <= i < |p| && IsAsciiLower(p[i]) }
  predicate HasDigit(p: String) { exists i :: 0 <= i < |p| && IsDigit(p[i]) }

  datatype PasswordCheck = PasswordCheck(isValid: bool, errors: seq<String>)

  /** The failed rules, in the fixed order length, uppercase, lowercase,
      digit. */
  function PasswordErrors(p: String): seq<String> {
    (if |p| < MinLength then [LengthError] else []) +
    (if !HasUpper(p) then [UpperError] else []) +
    (if !HasLower(p) then [LowerError] else []) +
    (if !HasDigit(p) then [DigitError] else [])
  }

  /** `validatePassword`: pushes one message per failed rule. */
  method ValidatePassword(password: String) returns (r: PasswordCheck)
    ensures r.errors == PasswordErrors(password)
    ensures r.isValid <==> |password| >= MinLength && HasUpper(password) && HasLower(password) && HasDigit(password)
  {
    var errors: seq<String> := [];
    if |password| < MinLength {
      errors := errors + [LengthError];
    }
    if !HasUpper(password) {
      errors := errors + [UpperError];
    }
    if !HasLower(password) {
      errors := errors + [LowerError];
    }
    if !HasDigit(password) {
      errors := errors + [DigitError];
    }
    r := PasswordCheck(|errors| == 0, errors);
  }

  /** The position of a message in the fixed order of the rules. */
  function Rank(e: String): nat {
    if e == LengthError then 0
    else if e == UpperError then 1
    else if e == LowerError then 2
    else 3
  }

  /** Each message is present exactly when its rule fails, no message
      twice, and they come in the order of the rules. */
  lemma PasswordErrorsSpec(p: String)
    ensures LengthError in PasswordErrors(p) <==> |p| < MinLength
    ensures UpperError in PasswordErrors(p) <==> !HasUpper(p)
    ensures LowerError in PasswordErrors(p) <==> !HasLower(p)
    ensures DigitError in PasswordErrors(p) <==> !HasDigit(p)
    ensures forall i, j :: 0 <= i < j < |PasswordErrors(p)| ==>
      Rank(PasswordErrors(p)[i]) < Rank(PasswordErrors(p)[j])
    ensures PasswordErrors(p) == [] <==> |p| >= MinLength && HasUpper(p) && HasLower(p) && HasDigit(p)
  {
    assert LengthError != UpperError && LengthError != LowerError && LengthError != DigitError;
    assert UpperError != LowerError && UpperError != DigitError;
    assert LowerError[11] != DigitError[11];
  }

  /** The empty password fails all four rules; "weak" fails all but the
      lowercase rule. */
  lemma PasswordSamples()
    ensures PasswordErrors("") == [LengthError, UpperError, LowerError, DigitError]
    ensures PasswordErrors("weak") == [LengthError, UpperError, DigitError]
  {
    var w := "weak";
    assert IsAsciiLower(w[0]);
    assert !HasUpper(w) by {
      forall i | 0 <= i < |w| ensures !IsAsciiUpper(w[i]) {
      }
    }
    assert !HasDigit(w) by {
      forall i | 0 <= i < |w| ensures !IsDigit(w[i]) {
      }
    }
  }
}
