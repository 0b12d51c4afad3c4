/**
 * The customer app's form validators (phone number and e-mail address, both
 * regular expressions in the source) and its error-message helper.
 */
module ClientUtils {
  import opened Text
  import opened Seqs

  // ----- phone numbers -----

  function NotDash(c: char): bool {
    c != '-'
  }

  /** `phone.replace(/-/g, '')`. */
  function RemoveDashes(s: string): (r: string)
    ensures '-' !in r
  {
    Filter(s, NotDash)
  }

  predicate AllDigits(s: string) {
    forall i :: 0 <= i < |s| ==> IsDigit(s[i])
  }

  /** The `-?` of the pattern: one leading '-' is skipped when there is one. */
  function SkipDash(s: string): string {
    if s != [] && s[0] == '-' then s[1..] else s
  }

  /** `/^01[0-9]-?[0-9]{4}-?[0-9]{4}$/.test(t)`. */
  predicate PhonePattern(t: string) {
    |t| >= 3 && t[0] == '0' && t[1] == '1' && IsDigit(t[2])
    && var r1 := SkipDash(t[3..]);
    |r1| >= 4 && AllDigits(r1[..4])
    && var r2 := SkipDash(r1[4..]);
    |r2| == 4 && AllDigits(r2)
  }

  /** validatePhone: the pattern, tried on the number with its dashes removed. */
  predicate ValidatePhone(phone: string) {
    PhonePattern(RemoveDashes(phone))
  }

  /** Without dashes the pattern's optional dashes match nothing: it is the 11 digits "01…". */
  lemma PatternWithoutDashes(t: string)
    requires '-' !in t
    ensures PhonePattern(t) <==> |t| == 11 && t[0] == '0' && t[1] == '1' && AllDigits(t)
  {
    if |t| >= 3 {
      var r := t[3..];
      assert r == [] || r[0] == t[3];
      assert SkipDash(r) == r;
      if |r| >= 4 {
        var r2 := r[4..];
        assert r2 == [] || r2[0] == t[7];
        assert SkipDash(r2) == r2;
        if PhonePattern(t) {
          forall i | 0 <= i < |t|
            ensures IsDigit(t[i])
          {
            if 3 <= i < 7 {
              assert t[i] == r[..4][i - 3];
            } else if 7 <= i {
              assert t[i] == r2[i - 7];
            }
          }
        }
      }
    }
  }

  /** A phone number is valid exactly when, without its dashes, it is 11 digits starting with "01". */
  lemma PhoneMeaning(phone: string)
    ensures ValidatePhone(phone) <==>
      var t := RemoveDashes(phone);
      |t| == 11 && t[0] == '0' && t[1] == '1' && AllDigits(t)
  {
    PatternWithoutDashes(RemoveDashes(phone));
  }

  /** Where the dashes are never matters: only the digits count. */
  lemma DashesIgnored(a: string, b: string)
    ensures ValidatePhone(a + "-" + b) == ValidatePhone(a + b)
  {
    FilterAppend(a + "-", b, NotDash);
    FilterAppend(a, "-", NotDash);
    FilterAppend(a, b, NotDash);
    assert Filter("-", NotDash) == [];
  }

  // ----- e-mail addresses -----

  /** `[^\s@]`. */
  predicate EmailChar(c: char) {
    !IsJsWhitespace(c) && c != '@'
  }

  predicate AllEmailChars(s: string) {
    forall i :: 0 <= i < |s| ==> EmailChar(s[i])
  }

  /** `/^[^\s@]+@[^\s@]+\.[^\s@]+$/`: the three runs it matches. */
  ghost predicate EmailPieces(s: string, local: string, host: string, tld: string) {
    s == local + "@" + host + "." + tld
    && local != [] && host != [] && tld != []
    && AllEmailChars(local) && AllEmailChars(host) && AllEmailChars(tld)
  }

  function IsAt(c: char): bool {
    c == '@'
  }

  /** A '.' in `d` that is neither its first nor its last character. */
  predicate InnerDot(d: string) {
    exists j :: 0 < j < |d| - 1 && d[j] == '.'
  }

  /**
   * validateEmail: one '@' with something before it, no whitespace, and a
   * domain after it with a '.' inside.
   */
  predicate ValidateEmail(email: string) {
    var at := FindIndex(email, IsAt);
    at > 0 && AllEmailChars(email[..at]) && AllEmailChars(email[at + 1..]) && InnerDot(email[at + 1..])
  }

  lemma EmailSplit(email: string, at: int)
    requires 0 < at < |email| && email[at] == '@'
    ensures email == email[..at] + "@" + email[at + 1..]
  {
  }

  lemma {:induction false} EmailFromPieces(email: string, local: string, host: string, tld: string)
    requires EmailPieces(email, local, host, tld)
    ensures ValidateEmail(email)
  {
    FindIndexMeaning(email, IsAt);
    var at := FindIndex(email, IsAt);
    assert email[|local|] == '@';
    assert forall i :: 0 <= i < |local| ==> email[i] == local[i];
    assert at == |local|;
    var dom := email[at + 1..];
    assert dom == host + "." + tld;
    assert dom[|host|] == '.';
    forall i | 0 <= i < |dom|
      ensures EmailChar(dom[i])
    {
      if i < |host| {
        assert dom[i] == host[i];
      } else if i > |host| {
        assert dom[i] == tld[i - |host| - 1];
      }
    }
    assert email[..at] == local;
  }

  lemma SliceEmailChars(s: string, a: nat, b: nat)
    requires a <= b <= |s| && AllEmailChars(s)
    ensures AllEmailChars(s[a..b])
  {
    assert forall i :: 0 <= i < b - a ==> s[a..b][i] == s[a + i];
  }

  lemma DotSplit(dom: string, j: nat)
    requires j < |dom| && dom[j] == '.'
    ensures dom == dom[..j] + "." + dom[j + 1..]
  {
  }

  lemma JoinPieces(local: string, host: string, tld: string)
    ensures local + "@" + (host + "." + tld) == local + "@" + host + "." + tld
  {
    AppendAssoc(local + "@", host + ".", tld);
    AppendAssoc(local + "@", host, ".");
  }

  lemma {:induction false} PiecesOfEmail(email: string) returns (local: string, host: string, tld: string)
    requires ValidateEmail(email)
    ensures EmailPieces(email, local, host, tld)
  {
    var at := FindIndex(email, IsAt);
    FindIndexMeaning(email, IsAt);
    var dom := email[at + 1..];
    var j :| 0 < j < |dom| - 1 && dom[j] == '.';
    local, host, tld := email[..at], dom[..j], dom[j + 1..];
    SliceEmailChars(dom, 0, j);
    SliceEmailChars(dom, j + 1, |dom|);
    assert dom[j + 1..|dom|] == tld;
    DotSplit(dom, j);
    EmailSplit(email, at);
    JoinPieces(local, host, tld);
  }

  /** The check is the pattern: the address splits into the three runs the expression matches. */
  lemma EmailMeaning(email: string)
    ensures ValidateEmail(email) <==> exists local, host, tld :: EmailPieces(email, local, host, tld)
  {
    if ValidateEmail(email) {
      var local, host, tld := PiecesOfEmail(email);
    }
    if exists local, host, tld :: EmailPieces(email, local, host, tld) {
      var local, host, tld :| EmailPieces(email, local, host, tld);
      EmailFromPieces(email, local, host, tld);
    }
  }

  // ----- error messages -----

  /** What a `catch` can receive: an Error, a string, or anything else. */
  datatype Caught = CaughtError(message: string) | CaughtString(text: string) | CaughtOther

  /** The fallback text: "an unknown error occurred". */
  const UnknownErrorText: string := "알 수 없는 오류가 발생했습니다."

  /** getErrorMessage. */
  function GetErrorMessage(e: Caught): (r: string)
    ensures e.CaughtError? ==> r == e.message
    ensures e.CaughtString? ==> r == e.text
    ensures e.CaughtOther? ==> r == UnknownErrorText
  {
    match e
    case CaughtError(m) => m
    case CaughtString(s) => s
    case CaughtOther => UnknownErrorText
  }
}
