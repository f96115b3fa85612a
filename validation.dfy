/**
 * Input validation utilities: the e-mail pattern, the password strength
 * rules, the HTML-escaping sanitiser, the fixed package/size/status lists and
 * the three length-bounded text validators built on the sanitiser.
 *
 * A request-body value is either a string or some other JSON value; the
 * validators only ask of the latter whether it is truthy.
 */
module Validation {
  import opened JsCore

  datatype JsValue = Str(s: string) | NonString(truthy: bool)

  /** JavaScript truthiness of a body value: the empty string is falsy. */
  predicate Truthy(v: JsValue)
  {
    match v
    case Str(s) => s != []
    case NonString(t) => t
  }

  // ---------------------------------------------------------------------------
  // isValidEmail: /^[^\s@]+@[^\s@]+\.[^\s@]+$/

  /** One `[^\s@]+` run. */
  predicate Atom(s: string)
  {
    s != [] && NoSpace(s) && '@' !in s
  }

  /** `s` reads as local-part `@` domain-label `.` tail, each part an `Atom`,
      with the `@` at index `i` and the chosen dot at index `j`: the regular
      expression's own reading of its three runs. */
  ghost predicate EmailSplit(s: string, i: int, j: int)
  {
    0 < i < j < |s| && s[i] == '@' && s[j] == '.' &&
    Atom(s[..i]) && Atom(s[i + 1..j]) && Atom(s[j + 1..])
  }

  function FirstIndexOf(s: string, c: char): (k: int)
    ensures -1 <= k < |s|
    ensures k == -1 <==> c !in s
    ensures 0 <= k ==> s[k] == c && c !in s[..k]
  {
    if s == [] then -1
    else if s[0] == c then 0
    else
      var k := FirstIndexOf(s[1..], c);
      if k == -1 then -1
      else
        assert s[..k + 1] == [s[0]] + s[1..][..k];
        k + 1
  }

  /** `isValidEmail(email)`: whitespace-free, exactly one `@` with text before it,
      and after it a dot that has text on both sides. */
  function IsValidEmail(s: string): (ok: bool)
    ensures ok <==> exists i, j :: EmailSplit(s, i, j)
  {
    var at := FirstIndexOf(s, '@');
    EmailShapeIff(s, at);
    EmailScan(s, at)
  }

  /** The scan the function performs, as a predicate. */
  predicate EmailScan(s: string, at: int)
    requires -1 <= at < |s|
  {
    0 < at && NoSpace(s) && '@' !in s[at + 1..] && exists j | at + 1 < j < |s| - 1 :: s[j] == '.'
  }

  lemma EmailShapeIff(s: string, at: int)
    requires at == FirstIndexOf(s, '@')
    ensures EmailScan(s, at) <==> exists i, j :: EmailSplit(s, i, j)
  {
    if EmailScan(s, at) {
      EmailScanSplits(s, at);
    }
    if exists i, j :: EmailSplit(s, i, j) {
      var i, j :| EmailSplit(s, i, j);
      EmailSplitScans(s, at, i, j);
    }
  }

  lemma EmailScanSplits(s: string, at: int)
    requires at == FirstIndexOf(s, '@') && EmailScan(s, at)
    ensures exists i, j :: EmailSplit(s, i, j)
  {
    var j :| at + 1 < j < |s| - 1 && s[j] == '.';
    var rest := s[at + 1..];
    assert s[at + 1..j] == rest[..j - at - 1];
    assert s[j + 1..] == rest[j - at..];
    assert '@' !in s[..at];
    assert EmailSplit(s, at, j);
  }

  lemma EmailSplitScans(s: string, at: int, i: int, j: int)
    requires at == FirstIndexOf(s, '@') && EmailSplit(s, i, j)
    ensures EmailScan(s, at)
  {
    assert at == i by {
      assert '@' !in s[..i];
      assert s[i] == '@';
    }
    assert s[at + 1..] == s[i + 1..j] + [s[j]] + s[j + 1..];
    forall k | 0 <= k < |s| ensures !IsSpace(s[k]) {
      if k < i { assert s[k] == s[..i][k]; }
      else if i < k < j { assert s[k] == s[i + 1..j][k - i - 1]; }
      else if j < k { assert s[k] == s[j + 1..][k - j - 1]; }
    }
  }

  // ---------------------------------------------------------------------------
  // validatePassword

  datatype PasswordCheck = PasswordCheck(valid: bool, message: string)

  /** The strength rules in the order the source tests them. */
  datatype PasswordRule = MinLength | MaxLength | Lowercase | Uppercase | Digit

  const PasswordRules: seq<PasswordRule> := [MinLength, MaxLength, Lowercase, Uppercase, Digit]

  predicate HasLower(p: string) { exists i | 0 <= i < |p| :: 'a' <= p[i] <= 'z' }
  predicate HasUpper(p: string) { exists i | 0 <= i < |p| :: 'A' <= p[i] <= 'Z' }
  predicate HasDigit(p: string) { exists i | 0 <= i < |p| :: '0' <= p[i] <= '9' }

  predicate RuleHolds(rule: PasswordRule, p: string)
  {
    match rule
    case MinLength => |p| >= 8
    case MaxLength => |p| <= 128
    case Lowercase => HasLower(p)
    case Uppercase => HasUpper(p)
    case Digit => HasDigit(p)
  }

  function RuleMessage(rule: PasswordRule): string
  {
    match rule
    case MinLength => "Password must be at least 8 characters long"
    case MaxLength => "Password is too long"
    case Lowercase => "Password must contain a lowercase letter"
    case Uppercase => "Password must contain an uppercase letter"
    case Digit => "Password must contain a number"
  }

  const PasswordOkMessage := "Password is valid"

  /** `validatePassword(password)`: valid exactly when every rule holds; otherwise
      the message is that of the first rule, in check order, that fails. */
  function ValidatePassword(p: string): (r: PasswordCheck)
    ensures r.valid <==> 8 <= |p| <= 128 && HasLower(p) && HasUpper(p) && HasDigit(p)
    ensures r.valid ==> r.message == PasswordOkMessage
    ensures !r.valid ==> exists k :: (0 <= k < |PasswordRules| &&
              !RuleHolds(PasswordRules[k], p) && r.message == RuleMessage(PasswordRules[k]) &&
              forall m :: 0 <= m < k ==> RuleHolds(PasswordRules[m], p))
  {
    if p == [] || |p| < 8 then
      assert !RuleHolds(PasswordRules[0], p);
      PasswordCheck(false, RuleMessage(MinLength))
    else if |p| > 128 then
      assert !RuleHolds(PasswordRules[1], p);
      PasswordCheck(false, RuleMessage(MaxLength))
    else if !HasLower(p) then
      assert !RuleHolds(PasswordRules[2], p);
      PasswordCheck(false, RuleMessage(Lowercase))
    else if !HasUpper(p) then
      assert !RuleHolds(PasswordRules[3], p);
      PasswordCheck(false, RuleMessage(Uppercase))
    else if !HasDigit(p) then
      assert !RuleHolds(PasswordRules[4], p);
      PasswordCheck(false, RuleMessage(Digit))
    else
      PasswordCheck(true, PasswordOkMessage)
  }

  // ---------------------------------------------------------------------------
  // sanitizeInput

  /** The five characters the sanitiser encodes. */
  predicate IsSpecial(c: char)
  {
    c == '<' || c == '>' || c == '"' || c == '\'' || c == '/'
  }

  predicate NoSpecial(s: string)
  {
    forall i :: 0 <= i < |s| ==> !IsSpecial(s[i])
  }

  /** `s.replace(/c/g, r)`: every occurrence of `c` becomes `r`. */
  function ReplaceAll(s: string, c: char, r: string): (t: string)
    ensures c !in s ==> t == s
  {
    if s == [] then []
    else (if s[0] == c then r else [s[0]]) + ReplaceAll(s[1..], c, r)
  }

  lemma {:induction false} ReplaceAllAppend(a: string, b: string, c: char, r: string)
    ensures ReplaceAll(a + b, c, r) == ReplaceAll(a, c, r) + ReplaceAll(b, c, r)
  {
    if a != [] {
      assert (a + b)[0] == a[0] && (a + b)[1..] == a[1..] + b;
      ReplaceAllAppend(a[1..], b, c, r);
    } else {
      assert a + b == b;
    }
  }

  /** The replace chain exactly as written: `<`, `>`, `"`, `'`, `/` in that order. */
  function ReplaceChain(s: string): (r: string)
    ensures NoSpecial(s) ==> r == s
  {
    ReplaceAll(ReplaceAll(ReplaceAll(ReplaceAll(ReplaceAll(s,
      '<', "&lt;"), '>', "&gt;"), '"', "&quot;"), '\'', "&#39;"), '/', "&#x2F;")
  }

  /** The entity one character encodes to (itself when it is not special). */
  function EscapeChar(c: char): (e: string)
    ensures 1 <= |e| <= 6 && NoSpecial(e)
    ensures !IsSpace(c) ==> !IsSpace(e[0]) && !IsSpace(e[|e| - 1])
    ensures IsSpecial(c) <==> e[0] == '&' && |e| > 1
    ensures !IsSpecial(c) ==> e == [c]
  {
    match c
    case '<' => "&lt;"
    case '>' => "&gt;"
    case '"' => "&quot;"
    case '\'' => "&#39;"
    case '/' => "&#x2F;"
    case _ => [c]
  }

  /** The per-character reading of the escape: each character replaced by its entity. */
  function EscapeAll(s: string): (r: string)
    ensures |s| <= |r| <= 6 * |s|
    ensures NoSpecial(r)
  {
    if s == [] then [] else EscapeChar(s[0]) + EscapeAll(s[1..])
  }

  lemma {:induction false} EscapeAllAppend(a: string, b: string)
    ensures EscapeAll(a + b) == EscapeAll(a) + EscapeAll(b)
  {
    if a != [] {
      assert (a + b)[0] == a[0] && (a + b)[1..] == a[1..] + b;
      EscapeAllAppend(a[1..], b);
    } else {
      assert a + b == b;
    }
  }

  lemma ChainOnChar(c: char)
    ensures ReplaceChain([c]) == EscapeChar(c)
  {
  }

  /** No replacement introduces a character a later replacement looks for, so the
      sequential chain equals the per-character escape. */
  lemma {:induction false} ReplaceChainIsEscapeAll(s: string)
    ensures ReplaceChain(s) == EscapeAll(s)
  {
    if s != [] {
      var h, t := [s[0]], s[1..];
      assert s == h + t;
      ReplaceAllAppend(h, t, '<', "&lt;");
      var s1h, s1t := ReplaceAll(h, '<', "&lt;"), ReplaceAll(t, '<', "&lt;");
      ReplaceAllAppend(s1h, s1t, '>', "&gt;");
      var s2h, s2t := ReplaceAll(s1h, '>', "&gt;"), ReplaceAll(s1t, '>', "&gt;");
      ReplaceAllAppend(s2h, s2t, '"', "&quot;");
      var s3h, s3t := ReplaceAll(s2h, '"', "&quot;"), ReplaceAll(s2t, '"', "&quot;");
      ReplaceAllAppend(s3h, s3t, '\'', "&#39;");
      var s4h, s4t := ReplaceAll(s3h, '\'', "&#39;"), ReplaceAll(s3t, '\'', "&#39;");
      ReplaceAllAppend(s4h, s4t, '/', "&#x2F;");
      assert ReplaceChain(s) == ReplaceChain(h) + ReplaceChain(t);
      ChainOnChar(s[0]);
      ReplaceChainIsEscapeAll(t);
    }
  }

  lemma {:induction false} EscapeAllIdentity(s: string)
    requires NoSpecial(s)
    ensures EscapeAll(s) == s
  {
    if s != [] {
      EscapeAllIdentity(s[1..]);
    }
  }

  /** Escaping a string whose ends are not whitespace yields one whose ends are not whitespace. */
  lemma EscapeKeepsTrimmedEnds(t: string)
    requires t == [] || (!IsSpace(t[0]) && !IsSpace(t[|t| - 1]))
    ensures var e := EscapeAll(t); e == [] || (!IsSpace(e[0]) && !IsSpace(e[|e| - 1]))
  {
    if t != [] {
      var last := t[|t| - 1];
      assert t == t[..|t| - 1] + [last];
      EscapeAllAppend(t[..|t| - 1], [last]);
      assert EscapeAll([last]) == EscapeChar(last);
    }
  }

  /** `sanitizeInput(input)`: '' for a non-string, otherwise the trimmed string with
      `< > " ' /` replaced by HTML entities (and `&` left alone). */
  function SanitizeInput(v: JsValue): (r: string)
    ensures NoSpecial(r)
    ensures v.NonString? ==> r == []
    ensures v.Str? ==> |Trim(v.s)| <= |r| <= 6 * |Trim(v.s)|
    ensures v.Str? ==> r == EscapeAll(Trim(v.s))
  {
    match v
    case NonString(_) => []
    case Str(s) =>
      ReplaceChainIsEscapeAll(Trim(s));
      ReplaceChain(Trim(s))
  }

  /** Sanitising is idempotent: the result has trimmed ends and no special characters,
      and `&` is not re-encoded. */
  lemma SanitizeIdempotent(v: JsValue)
    ensures SanitizeInput(Str(SanitizeInput(v))) == SanitizeInput(v)
  {
    var r := SanitizeInput(v);
    EscapeKeepsTrimmedEnds(Trim(if v.Str? then v.s else []));
    TrimNoOp(r);
    EscapeAllIdentity(r);
  }

  /** An ampersand survives sanitising, so an entity in the input is not double-encoded. */
  lemma EntityPassesThrough()
    ensures SanitizeInput(Str("&lt;")) == "&lt;"
  {
    EscapeAllIdentity("&lt;");
    TrimNoOp("&lt;");
  }

  // ---------------------------------------------------------------------------
  // isValidPackage, isValidSize, isValidStatus

  const ValidPackages: seq<string> := ["basic", "pro", "master"]
  const ValidSizes: seq<string> := ["normal", "large"]
  const ValidStatuses: seq<string> := ["intake", "mixing", "mastering", "revisions", "delivered"]

  predicate IsValidPackage(p: string)
    ensures IsValidPackage(p) <==> p == "basic" || p == "pro" || p == "master"
  {
    p in ValidPackages
  }

  predicate IsValidSize(s: string)
    ensures IsValidSize(s) <==> s == "normal" || s == "large"
  {
    s in ValidSizes
  }

  predicate IsValidStatus(s: string)
    ensures IsValidStatus(s) <==> s == "intake" || s == "mixing" || s == "mastering" || s == "revisions" || s == "delivered"
  {
    s in ValidStatuses
  }

  /** Membership is exact: no case folding and no trimming. */
  lemma MembershipIsExact()
    ensures IsValidPackage("pro") && !IsValidPackage("Pro") && !IsValidPackage(" pro")
    ensures IsValidSize("large") && !IsValidSize("LARGE")
    ensures IsValidStatus("mixing") && !IsValidStatus("in_progress")
  {
  }

  // ---------------------------------------------------------------------------
  // validateName, validateProjectTitle, validateChatbotMessage

  datatype Validated = Valid(value: string) | Invalid(message: string)

  /** The shared shape of the three text validators: a truthy string is required,
      sanitised, cut to `limit` characters and then checked for `minLen`. */
  function ValidateText(v: JsValue, limit: nat, minLen: nat, required: string, tooShort: string): (r: Validated)
    requires minLen <= limit
    ensures r.Valid? <==> v.Str? && v.s != [] && |SanitizeInput(v)| >= minLen
    ensures r.Valid? ==> r.value == Take(SanitizeInput(v), limit)
    ensures r.Valid? ==> minLen <= |r.value| <= limit && r.value <= SanitizeInput(v) && NoSpecial(r.value)
    ensures r.Invalid? ==> r.message == if v.Str? && v.s != [] then tooShort else required
  {
    if !Truthy(v) || !v.Str? then Invalid(required)
    else
      var sanitized := Take(SanitizeInput(v), limit);
      if |sanitized| < minLen then Invalid(tooShort) else Valid(sanitized)
  }

  /** `validateName(name)`: 2..100 characters after sanitising and truncation. */
  function ValidateName(v: JsValue): (r: Validated)
    ensures r.Valid? <==> v.Str? && |SanitizeInput(v)| >= 2
    ensures r.Valid? ==> r.value == Take(SanitizeInput(v), 100)
    ensures r.Valid? ==> 2 <= |r.value| <= 100 && NoSpecial(r.value)
  {
    ValidateText(v, 100, 2, "Name is required", "Name must be at least 2 characters")
  }

  /** `validateProjectTitle(title)`: 3..200 characters after sanitising and truncation. */
  function ValidateProjectTitle(v: JsValue): (r: Validated)
    ensures r.Valid? <==> v.Str? && |SanitizeInput(v)| >= 3
    ensures r.Valid? ==> r.value == Take(SanitizeInput(v), 200)
    ensures r.Valid? ==> 3 <= |r.value| <= 200 && NoSpecial(r.value)
  {
    ValidateText(v, 200, 3, "Project title is required", "Project title must be at least 3 characters")
  }

  /** `validateChatbotMessage(message)`: 1..2000 characters after sanitising and
      truncation; a whitespace-only message is rejected as empty. */
  function ValidateChatbotMessage(v: JsValue): (r: Validated)
    ensures r.Valid? <==> v.Str? && exists i | 0 <= i < |v.s| :: !IsSpace(v.s[i])
    ensures r.Valid? ==> r.value == Take(SanitizeInput(v), 2000)
    ensures r.Valid? ==> 1 <= |r.value| <= 2000 && NoSpecial(r.value)
    ensures r == Invalid("Message cannot be empty") <==>
              v.Str? && v.s != [] && forall i | 0 <= i < |v.s| :: IsSpace(v.s[i])
  {
    TrimEmptyIffBlank(if v.Str? then v.s else []);
    ValidateText(v, 2000, 1, "Message is required", "Message cannot be empty")
  }

  /** Length is checked after escaping: a one-character name that is escaped passes
      the two-character minimum. */
  lemma EscapedSingleCharacterNamePasses()
    ensures ValidateName(Str("<")) == Valid("&lt;")
  {
    var lt := "<";
    TrimNoOp(lt);
    assert EscapeAll(lt) == EscapeChar('<') + EscapeAll([]);
    var e := SanitizeInput(Str(lt));
    assert e == "&lt;";
    assert Take(e, 100) == e;
  }
}
