/** Input validation of the request bodies (app/schemas.py) and the response
    kinds the routers return. Character classes are ASCII. */
module Schemas {
  import opened Wrappers

  // ---- Field bounds (pydantic `Field(min_length, max_length)`) ----

  const FULL_NAME_MIN: nat := 3
  const FULL_NAME_MAX: nat := 200
  const PASSWORD_MIN: nat := 8
  const TITLE_MIN: nat := 1
  const TITLE_MAX: nat := 100
  const DESCRIPTION_MIN: nat := 20
  const DESCRIPTION_MAX: nat := 2000
  const COVER_LETTER_MAX: nat := 200

  predicate LengthWithin(s: string, lo: nat, hi: nat)
  {
    lo <= |s| <= hi
  }

  /** An optional field is checked only when present. */
  predicate OptionalLengthWithin(s: Option<string>, lo: nat, hi: nat)
  {
    s.None? || LengthWithin(s.value, lo, hi)
  }

  // ---- Character classes ----

  predicate IsUpper(c: char) { 'A' <= c <= 'Z' }
  predicate IsLower(c: char) { 'a' <= c <= 'z' }
  predicate IsDigit(c: char) { '0' <= c <= '9' }
  predicate IsLetter(c: char) { IsUpper(c) || IsLower(c) }
  /** `\w`: a letter, a digit or the underscore. */
  predicate IsWordChar(c: char) { IsLetter(c) || IsDigit(c) || c == '_' }
  /** The characters `str.strip()` removes (ASCII part of `str.isspace`). */
  predicate IsSpace(c: char)
  {
    c == ' ' || c == '\t' || c == '\n' || c == '\r' || c == '\U{0B}' || c == '\U{0C}'
    || c == '\U{1C}' || c == '\U{1D}' || c == '\U{1E}' || c == '\U{1F}'
  }

  /** `str.isalpha()`: non-empty and letters only. */
  predicate IsAlpha(s: string)
  {
    |s| > 0 && forall i :: 0 <= i < |s| ==> IsLetter(s[i])
  }

  // ---- strip() and split(" ") ----

  /** Number of leading whitespace characters. */
  function LeadingSpaces(s: string): (k: nat)
    ensures k <= |s|
    ensures forall i :: 0 <= i < k ==> IsSpace(s[i])
    ensures k < |s| ==> !IsSpace(s[k])
  {
    if |s| > 0 && IsSpace(s[0]) then 1 + LeadingSpaces(s[1..]) else 0
  }

  /** Number of trailing whitespace characters. */
  function TrailingSpaces(s: string): (k: nat)
    ensures k <= |s|
    ensures forall i :: |s| - k <= i < |s| ==> IsSpace(s[i])
    ensures k < |s| ==> !IsSpace(s[|s| - 1 - k])
  {
    if |s| > 0 && IsSpace(s[|s| - 1]) then 1 + TrailingSpaces(s[..|s| - 1]) else 0
  }

  /** `str.strip()`: the result is an infix of `s` that neither starts nor
      ends with whitespace, and only whitespace was cut off. */
  function Strip(s: string): (r: string)
    ensures r == [] || (!IsSpace(r[0]) && !IsSpace(r[|r| - 1]))
    ensures exists lo, hi ::
              0 <= lo <= hi <= |s| && r == s[lo..hi] &&
              (forall i :: 0 <= i < lo ==> IsSpace(s[i])) &&
              (forall i :: hi <= i < |s| ==> IsSpace(s[i]))
  {
    var lo := LeadingSpaces(s);
    var t := s[lo..];
    var hi := lo + (|t| - TrailingSpaces(t));
    assert t[..|t| - TrailingSpaces(t)] == s[lo..hi];
    s[lo..hi]
  }

  /** The inverse of `split(" ")`: the parts glued with single spaces. */
  function Join(parts: seq<string>): string
    requires |parts| > 0
  {
    if |parts| == 1 then parts[0] else parts[0] + " " + Join(parts[1..])
  }

  predicate NoSpace(p: string)
  {
    forall i :: 0 <= i < |p| ==> p[i] != ' '
  }

  /** `str.split(" ")`: cut at every single space, keeping empty parts. */
  function Split(s: string): (parts: seq<string>)
    ensures |parts| > 0
    ensures forall k :: 0 <= k < |parts| ==> NoSpace(parts[k])
    ensures Join(parts) == s
  {
    if s == [] then [""]
    else
      var rest := Split(s[1..]);
      if s[0] == ' ' then
        assert Join([""] + rest) == " " + Join(rest) by {
          assert ([""] + rest)[1..] == rest;
        }
        [""] + rest
      else
        var parts := [[s[0]] + rest[0]] + rest[1..];
        JoinConsHead(s[0], rest);
        parts
  }

  lemma ConcatAssoc(a: string, b: string, c: string)
    ensures (a + b) + c == a + (b + c)
  {
  }

  /** Prepending a character to the first part prepends it to the join. */
  lemma JoinConsHead(c: char, parts: seq<string>)
    requires |parts| > 0
    ensures Join([[c] + parts[0]] + parts[1..]) == [c] + Join(parts)
  {
    var q := [[c] + parts[0]] + parts[1..];
    if |parts| > 1 {
      var head, rest := parts[0], Join(parts[1..]);
      assert q[1..] == parts[1..];
      ConcatAssoc([c], head, " ");
      ConcatAssoc([c], head + " ", rest);
    }
  }

  /** Splitting a join of space-free parts gives the parts back. */
  lemma {:induction false} SplitJoin(parts: seq<string>)
    requires |parts| > 0
    requires forall k :: 0 <= k < |parts| ==> NoSpace(parts[k])
    ensures Split(Join(parts)) == parts
    decreases |Join(parts)|, |parts[0]|
  {
    var p0 := parts[0];
    if |parts| == 1 {
      SplitSpaceFree(p0);
    } else if p0 == [] {
      var s := Join(parts);
      assert s == " " + Join(parts[1..]);
      assert s[1..] == Join(parts[1..]);
      SplitJoin(parts[1..]);
      assert [""] + parts[1..] == parts;
    } else {
      var s := Join(parts);
      var tail := [p0[1..]] + parts[1..];
      assert tail[1..] == parts[1..];
      assert Join(tail) == p0[1..] + " " + Join(parts[1..]);
      assert s == [p0[0]] + Join(tail);
      assert s[1..] == Join(tail);
      forall k | 0 <= k < |tail| ensures NoSpace(tail[k]) {
        if k == 0 {
          assert forall i :: 0 <= i < |p0[1..]| ==> p0[1..][i] == p0[i + 1];
        } else {
          assert tail[k] == parts[k];
        }
      }
      SplitJoin(tail);
      assert [p0[0]] + p0[1..] == p0;
      assert [[p0[0]] + tail[0]] + tail[1..] == parts;
    }
  }

  /** A space-free string is a single part. */
  lemma {:induction false} SplitSpaceFree(p: string)
    requires NoSpace(p)
    ensures Split(p) == [p]
  {
    if p != [] {
      SplitSpaceFree(p[1..]);
      assert [p[0]] + p[1..] == p;
    }
  }

  // ---- SignupIn.name_must_be_two_parts ----

  /** Exactly two space-separated parts after stripping, each alphabetic. */
  predicate NameTwoParts(v: string)
  {
    var parts := Split(Strip(v));
    |parts| == 2 && IsAlpha(parts[0]) && IsAlpha(parts[1])
  }

  lemma AlphaNoSpace(p: string)
    requires IsAlpha(p)
    ensures NoSpace(p)
  {
  }

  /** A letters-only first and last name joined by one space is accepted,
      with any surrounding whitespace. */
  lemma {:induction false} NameAccepted(first: string, last: string)
    requires IsAlpha(first) && IsAlpha(last)
    ensures NameTwoParts(first + " " + last)
  {
    var v := first + " " + last;
    assert Join([first, last]) == v;
    AlphaNoSpace(first);
    AlphaNoSpace(last);
    SplitJoin([first, last]);
    StripClean(v);
  }

  /** A doubled inner space yields three parts and is rejected. */
  lemma {:induction false} DoubleSpaceRejected(first: string, last: string)
    requires IsAlpha(first) && IsAlpha(last)
    ensures !NameTwoParts(first + "  " + last)
  {
    var v := first + "  " + last;
    assert [first, "", last][1..] == ["", last];
    assert ["", last][1..] == [last];
    assert Join(["", last]) == " " + last;
    assert Join([first, "", last]) == first + " " + (" " + last);
    assert first + " " + (" " + last) == v;
    AlphaNoSpace(first);
    AlphaNoSpace(last);
    SplitJoin([first, "", last]);
    StripClean(v);
  }

  /** Conversely, every accepted name is, once stripped, two letter-only
      words around a single space. */
  lemma NameShape(v: string)
    requires NameTwoParts(v)
    ensures var p := Split(Strip(v));
            Strip(v) == p[0] + " " + p[1] && IsAlpha(p[0]) && IsAlpha(p[1])
  {
    var p := Split(Strip(v));
    assert Join(p) == Strip(v);
    assert p[1..] == [p[1]];
    assert Join(p[1..]) == p[1];
  }

  /** A string that neither starts nor ends with whitespace is its own strip. */
  lemma StripClean(s: string)
    requires s != [] && !IsSpace(s[0]) && !IsSpace(s[|s| - 1])
    ensures Strip(s) == s
  {
    assert LeadingSpaces(s) == 0;
    assert s[0..] == s;
    assert TrailingSpaces(s) == 0;
  }

  // ---- SignupIn.strong_pwd ----

  /** The password rules in the order the validator checks them. */
  datatype PasswordRule = MinLength | HasUpper | HasLower | HasDigit | HasSpecial

  function RuleRank(rule: PasswordRule): nat
  {
    match rule
    case MinLength => 0
    case HasUpper => 1
    case HasLower => 2
    case HasDigit => 3
    case HasSpecial => 4
  }

  predicate Contains(v: string, c: char -> bool)
  {
    exists i :: 0 <= i < |v| && c(v[i])
  }

  predicate RuleHolds(rule: PasswordRule, v: string)
  {
    match rule
    case MinLength => |v| >= PASSWORD_MIN
    case HasUpper => Contains(v, IsUpper)
    case HasLower => Contains(v, IsLower)
    case HasDigit => Contains(v, IsDigit)
    case HasSpecial => Contains(v, c => !IsWordChar(c))
  }

  /** The first rule the password breaks (its error message), or None when it
      is accepted. */
  function CheckPassword(v: string): (r: Option<PasswordRule>)
    ensures r.None? <==> forall rule :: RuleHolds(rule, v)
    ensures r.Some? ==> !RuleHolds(r.value, v)
    ensures r.Some? ==> forall rule :: RuleRank(rule) < RuleRank(r.value) ==> RuleHolds(rule, v)
  {
    if !RuleHolds(MinLength, v) then Some(MinLength)
    else if !RuleHolds(HasUpper, v) then Some(HasUpper)
    else if !RuleHolds(HasLower, v) then Some(HasLower)
    else if !RuleHolds(HasDigit, v) then Some(HasDigit)
    else if !RuleHolds(HasSpecial, v) then Some(HasSpecial)
    else
      AllRulesHold(v);
      None
  }

  lemma AllRulesHold(v: string)
    requires RuleHolds(MinLength, v) && RuleHolds(HasUpper, v) && RuleHolds(HasLower, v)
    requires RuleHolds(HasDigit, v) && RuleHolds(HasSpecial, v)
    ensures forall rule :: RuleHolds(rule, v)
  {
    forall rule ensures RuleHolds(rule, v) {
      match rule
      case MinLength =>
      case HasUpper =>
      case HasLower =>
      case HasDigit =>
      case HasSpecial =>
    }
  }

  /** "abc" is refused for its length first; "Str0ng!Pass" is accepted. */
  lemma PasswordExamples()
    ensures CheckPassword("abc") == Some(MinLength)
    ensures CheckPassword("Str0ng!Pass") == None
  {
    var v := "Str0ng!Pass";
    assert IsUpper(v[0]) && IsLower(v[1]) && IsDigit(v[3]) && !IsWordChar(v[6]);
    assert RuleHolds(HasSpecial, v) by {
      assert (c => !IsWordChar(c))(v[6]);
    }
  }

  // ---- Request schemas ----

  /** SignupIn: full_name bounds and two-part shape, a strong password. */
  predicate SignupInValid(fullName: string, password: string)
  {
    LengthWithin(fullName, FULL_NAME_MIN, FULL_NAME_MAX) && NameTwoParts(fullName)
    && CheckPassword(password).None?
  }

  /** A two-word letters-only name with a strong password signs up; a doubled
      inner space, a name under three characters or a short password do not. */
  lemma SignupExamples()
    ensures SignupInValid("Ada Lovelace", "Str0ng!Pass")
    ensures !SignupInValid("Ada  Lovelace", "Str0ng!Pass")
    ensures !SignupInValid("Al", "Str0ng!Pass")
    ensures !SignupInValid("Ada Lovelace", "abc")
  {
    var first, last := "Ada", "Lovelace";
    assert first + " " + last == "Ada Lovelace";
    assert first + "  " + last == "Ada  Lovelace";
    assert IsAlpha(first) && IsAlpha(last);
    NameAccepted(first, last);
    DoubleSpaceRejected(first, last);
    PasswordExamples();
    assert !LengthWithin("Al", FULL_NAME_MIN, FULL_NAME_MAX);
  }

  /** JobCreate: title and description are required and bounded. */
  predicate JobCreateValid(title: string, description: string)
  {
    LengthWithin(title, TITLE_MIN, TITLE_MAX) && LengthWithin(description, DESCRIPTION_MIN, DESCRIPTION_MAX)
  }

  /** JobUpdate: the same bounds, on whichever fields are present. */
  predicate JobUpdateValid(title: Option<string>, description: Option<string>)
  {
    OptionalLengthWithin(title, TITLE_MIN, TITLE_MAX)
    && OptionalLengthWithin(description, DESCRIPTION_MIN, DESCRIPTION_MAX)
  }

  /** ApplicationCreate: an optional cover letter of at most 200 characters. */
  predicate ApplicationCreateValid(coverLetter: Option<string>)
  {
    OptionalLengthWithin(coverLetter, 0, COVER_LETTER_MAX)
  }

  // ---- Response kinds (the `errors` of BaseResponse / PaginatedResponse) ----

  datatype Failure =
    | ValidationError        // the request body fails its schema (422)
    | NotFound
    | Unauthorized           // acting user does not own the resource
    | InvalidTransition      // illegal job status change
    | Duplicate              // already applied
    | UnsupportedFormat      // resume neither PDF nor DOCX
    | InvalidStatus          // unknown application status
    | EmailExists
    | InvalidToken
    | TokenExpired           // a new token was issued and mailed
    | InvalidCredentials
    | ServerError            // an exception escapes the handler (500)

  /** PaginatedResponse without the envelope flags. */
  datatype Paginated<T> = Paginated(items: seq<T>, pageNumber: int, pageSize: int, totalSize: nat)
}
