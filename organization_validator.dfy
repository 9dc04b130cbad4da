/** Validation of the free-text "organization" field of the registration form.

    The validator works on the raw text the user typed. It only decides whether that
    text is blank in the sense of JavaScript's `String.prototype.trim`. It never reads
    the organization list it is handed and never resolves a code.
 */
module OrganizationValidator {

  /** Key under which an organization record holds its code. */
  const OrganizationCodeKey: string := "code"
  /** Key under which an organization record holds its human-readable name. */
  const OrganizationDisplayKey: string := "name"

  /** An organization record as the backend sends it: an object keyed by the two keys above. */
  type OrganizationRecord = map<string, string>

  /** The record `{ [OrganizationCodeKey]: code, [OrganizationDisplayKey]: name }`. */
  function MakeOrganization(code: string, name: string): (r: OrganizationRecord)
    ensures r.Keys == {"code", "name"}
    ensures r[OrganizationCodeKey] == code && r[OrganizationDisplayKey] == name
  {
    map[OrganizationCodeKey := code, OrganizationDisplayKey := name]
  }

  /** The 25 code points of ECMAScript's WhiteSpace and LineTerminator productions, one by one. */
  const TrimmedCodePoints: set<char> := {
    '\U{0009}', '\U{000B}', '\U{000C}', '\U{0020}', '\U{00A0}', '\U{FEFF}',
    '\U{1680}', '\U{2000}', '\U{2001}', '\U{2002}', '\U{2003}', '\U{2004}', '\U{2005}',
    '\U{2006}', '\U{2007}', '\U{2008}', '\U{2009}', '\U{200A}', '\U{202F}', '\U{205F}', '\U{3000}',
    '\U{000A}', '\U{000D}', '\U{2028}', '\U{2029}'
  }

  /** The code points `String.prototype.trim` removes: the WhiteSpace code points of
      ECMAScript (TAB, VT, FF, ZWNBSP and every Unicode "Zs" space separator) and its
      LineTerminator code points (LF, CR, LINE SEPARATOR, PARAGRAPH SEPARATOR). */
  predicate IsWhitespace(c: char)
  {
    // WhiteSpace: TAB, VT, FF, ZWNBSP
    c == '\t' || c == '\U{000B}' || c == '\U{000C}' || c == '\U{FEFF}' ||
    // WhiteSpace: the Zs category
    c == ' ' || c == '\U{00A0}' || c == '\U{1680}' ||
    ('\U{2000}' <= c <= '\U{200A}') ||
    c == '\U{202F}' || c == '\U{205F}' || c == '\U{3000}' ||
    // LineTerminator
    c == '\n' || c == '\r' || c == '\U{2028}' || c == '\U{2029}'
  }

  /** `IsWhitespace` holds of exactly the 25 code points that `trim` removes. */
  lemma IsWhitespaceExactly(c: char)
    ensures IsWhitespace(c) <==> c in TrimmedCodePoints
  {
  }

  /** Every character of `s` is whitespace (the empty string included). */
  predicate IsBlank(s: string)
  {
    forall i :: 0 <= i < |s| ==> IsWhitespace(s[i])
  }

  /** `s` with its leading whitespace removed. */
  function TrimStart(s: string): (r: string)
    ensures |r| <= |s| && r == s[|s| - |r|..]
    ensures IsBlank(s[..|s| - |r|])
    ensures r == [] || !IsWhitespace(r[0])
    decreases |s|
  {
    if |s| > 0 && IsWhitespace(s[0]) then TrimStart(s[1..]) else s
  }

  /** `s` with its trailing whitespace removed. */
  function TrimEnd(s: string): (r: string)
    ensures |r| <= |s| && r == s[..|r|]
    ensures IsBlank(s[|r|..])
    ensures r == [] || !IsWhitespace(r[|r| - 1])
    decreases |s|
  {
    if |s| > 0 && IsWhitespace(s[|s| - 1]) then
      var r := TrimEnd(s[..|s| - 1]);
      assert s[|r|..] == s[..|s| - 1][|r|..] + [s[|s| - 1]];
      r
    else s
  }

  /** `String.prototype.trim`: leading and trailing whitespace removed. */
  function Trim(s: string): (r: string)
    ensures |r| <= |s|
    ensures r == [] <==> IsBlank(s)
    ensures r == [] || (!IsWhitespace(r[0]) && !IsWhitespace(r[|r| - 1]))
    ensures exists k :: TrimmedAt(s, k, r)
  {
    TrimEmptyIffBlank(s);
    TrimIsInfix(s);
    assert TrimmedAt(s, |s| - |TrimStart(s)|, TrimEnd(TrimStart(s)));
    TrimEnd(TrimStart(s))
  }

  /** Removing trailing whitespace leaves nothing exactly when the string is blank. */
  lemma TrimEndEmptyIffBlank(t: string)
    ensures TrimEnd(t) == [] <==> IsBlank(t)
  {
    var r := TrimEnd(t);
    if r == [] {
      assert t[|r|..] == t;
    } else {
      assert r[|r| - 1] == t[|r| - 1];
    }
  }

  /** Removing leading whitespace neither makes nor unmakes a blank string. */
  lemma TrimStartPreservesBlank(s: string)
    ensures IsBlank(TrimStart(s)) <==> IsBlank(s)
  {
    var t := TrimStart(s);
    if t != [] {
      assert t[0] == s[|s| - |t|];
    }
    assert s[..|s|] == s;
  }

  /** `r` is the piece of `s` starting at `k`, with only whitespace before and after it. */
  predicate TrimmedAt(s: string, k: int, r: string)
  {
    0 <= k <= |s| - |r| && r == s[k..k + |r|] && IsBlank(s[..k]) && IsBlank(s[k + |r|..])
  }

  /** Trimming keeps a contiguous piece of the string and removes only whitespace around it. */
  lemma TrimIsInfix(s: string)
    ensures TrimmedAt(s, |s| - |TrimStart(s)|, TrimEnd(TrimStart(s)))
  {
    var t := TrimStart(s);
    TrimmedAtCompose(s, |s| - |t|, t, TrimEnd(t));
  }

  /** A blank prefix cut off, then a blank suffix cut off, leaves a piece trimmed in place. */
  lemma TrimmedAtCompose(s: string, k: int, t: string, r: string)
    requires 0 <= k <= |s| && t == s[k..] && IsBlank(s[..k])
    requires |r| <= |t| && r == t[..|r|] && IsBlank(t[|r|..])
    ensures TrimmedAt(s, k, r)
  {
    assert t[..|r|] == s[k..k + |r|];
    assert t[|r|..] == s[k + |r|..];
  }

  /** A string trims to the empty string exactly when it is blank. */
  lemma TrimEmptyIffBlank(s: string)
    ensures TrimEnd(TrimStart(s)) == [] <==> IsBlank(s)
  {
    TrimEndEmptyIffBlank(TrimStart(s));
    TrimStartPreservesBlank(s);
  }

  /** What the validator hands back to the field. */
  datatype ValidationResult = ValidationResult(error: string, organizationCode: string, displayValue: string)

  /** The organization-field validator. A blank value carries `errorMessage`; any other
      value carries no error. The code is never resolved and the value is kept as typed. */
  function ValidateOrganizationField(
    value: string, organizationList: seq<OrganizationRecord>, errorMessage: string
  ): (r: ValidationResult)
    ensures r.organizationCode == ""
    ensures r.displayValue == value
    ensures IsBlank(value) ==> r.error == errorMessage
    ensures !IsBlank(value) ==> r.error == ""
  {
    TrimEmptyIffBlank(value);
    var organizationCode := "";
    var displayValue := value;
    var error := if Trim(displayValue) != "" then "" else errorMessage;
    ValidationResult(error, organizationCode, displayValue)
  }

  /** The error is empty exactly when the value has a non-whitespace character or the
      supplied message is itself empty. */
  lemma ValidateErrorEmptyIff(value: string, organizationList: seq<OrganizationRecord>, errorMessage: string)
    ensures ValidateOrganizationField(value, organizationList, errorMessage).error == ""
        <==> (exists i :: 0 <= i < |value| && !IsWhitespace(value[i])) || errorMessage == ""
  {
  }

  /** The organization list has no influence on the result. */
  lemma ValidateIgnoresOrganizationList(
    value: string, list1: seq<OrganizationRecord>, list2: seq<OrganizationRecord>, errorMessage: string)
    ensures ValidateOrganizationField(value, list1, errorMessage)
         == ValidateOrganizationField(value, list2, errorMessage)
  {
  }

  /** Validating the returned display value again, with the same message, gives the same triple. */
  lemma ValidateIdempotent(value: string, organizationList: seq<OrganizationRecord>, errorMessage: string)
    ensures var r := ValidateOrganizationField(value, organizationList, errorMessage);
            ValidateOrganizationField(r.displayValue, organizationList, errorMessage) == r
  {
  }

  /** Concrete cases: the empty value, a value of spaces, tabs and a line separator, and a
      padded name that matches a record of the list; the last gets no code and stays padded. */
  lemma ValidateExamples()
    ensures ValidateOrganizationField("", [], "Select your organization.")
         == ValidationResult("Select your organization.", "", "")
    ensures ValidateOrganizationField(" \t\U{2028} ", [], "Select your organization.")
         == ValidationResult("Select your organization.", "", " \t\U{2028} ")
    ensures ValidateOrganizationField(" Demo Org 1 ", [MakeOrganization("orgX1", "Demo Org 1")], "Select your organization.")
         == ValidationResult("", "", " Demo Org 1 ")
  {
    var padded := " Demo Org 1 ";
    assert !IsWhitespace(padded[1]);
    assert IsBlank(" \t\U{2028} ") by {
      var w := " \t\U{2028} ";
      forall i | 0 <= i < |w| ensures IsWhitespace(w[i]) {
      }
    }
  }
}
