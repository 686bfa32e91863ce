/**
 * The format checks of lib/auth-utils.ts: the e-mail pattern
 * `^[^\s@]+@[^\s@]+\.[^\s@]+$` and the minimum password length.  Token
 * signing and password hashing are not part of this model.
 */
module AuthUtils {
  import opened Js
  import opened Text

  /** `[^\s@]`: neither whitespace nor `@`. */
  predicate Plain(c: char) {
    !IsSpace(c) && c != '@'
  }

  /** `[^\s@]+` on a whole piece. */
  predicate PlainRun(s: string) {
    s != [] && forall i :: 0 <= i < |s| ==> Plain(s[i])
  }

  /**
   * The pattern, stated by where it matches: `s` is a plain run, an `@` at
   * `at`, a plain run, a `.` at `dot`, and a plain run up to the end.
   */
  predicate MatchesAt(s: string, at: int, dot: int) {
    0 < at < dot < |s| - 1 && s[at] == '@' && s[dot] == '.'
    && PlainRun(s[..at]) && PlainRun(s[at + 1..dot]) && PlainRun(s[dot + 1..])
  }

  /** The regular expression matches `s` in some way. */
  ghost predicate EmailPattern(s: string) {
    exists at, dot :: MatchesAt(s, at, dot)
  }

  /** No character is whitespace or `@`. */
  predicate AllPlain(s: string) {
    forall i :: 0 <= i < |s| ==> Plain(s[i])
  }

  /** A `.` strictly inside `d`, neither its first nor its last character. */
  predicate InnerDot(d: string) {
    exists p :: 0 < p < |d| - 1 && d[p] == '.'
  }

  /** Whether `d` has an inner dot, found from the first dot after its first character. */
  function HasInnerDot(d: string): (r: bool)
    ensures r <==> InnerDot(d)
  {
    if |d| < 3 then false
    else
      match IndexOf(d[1..], '.')
      case None =>
        assert forall p :: 0 < p < |d| - 1 ==> d[p] == d[1..][p - 1];
        false
      case Some(k) =>
        if k + 1 < |d| - 1 then true
        else
          assert forall p :: 0 < p < |d| - 1 ==> d[p] == d[1..][..k][p - 1];
          false
  }

  /**
   * `validateEmail`: the text before the first `@` is a non-empty plain run
   * and the text after it is plain and has an inner dot.
   */
  function ValidateEmail(s: string): (r: bool)
  {
    match IndexOf(s, '@')
    case None => false
    case Some(at) => at > 0 && AllPlain(s[..at]) && AllPlain(s[at + 1..]) && HasInnerDot(s[at + 1..])
  }

  /** Every match splits the text at its only `@`. */
  lemma MatchUsesFirstAt(s: string, at: int, dot: int)
    requires MatchesAt(s, at, dot)
    ensures IndexOf(s, '@') == Some(at)
  {
    assert '@' !in s[..at] by {
      assert forall i :: 0 <= i < at ==> s[..at][i] != '@';
    }
  }

  /** The check accepts exactly the texts the pattern matches. */
  lemma ValidateEmailIffPattern(s: string)
    ensures ValidateEmail(s) <==> EmailPattern(s)
  {
    if EmailPattern(s) {
      var at, dot :| MatchesAt(s, at, dot);
      MatchUsesFirstAt(s, at, dot);
      var d := s[at + 1..];
      assert d[dot - at - 1] == '.';
      assert AllPlain(d) by {
        forall i | 0 <= i < |d| ensures Plain(d[i]) {
          if at + 1 + i < dot {
            assert d[i] == s[at + 1..dot][i];
          } else if at + 1 + i > dot {
            assert d[i] == s[dot + 1..][i - (dot - at)];
          }
        }
      }
    }
    if ValidateEmail(s) {
      var at := IndexOf(s, '@').value;
      var d := s[at + 1..];
      var p :| 0 < p < |d| - 1 && d[p] == '.';
      var dot := at + 1 + p;
      assert s[at + 1..dot] == d[..p];
      assert s[dot + 1..] == d[p + 1..];
      assert MatchesAt(s, at, dot);
    }
  }

  /** A text with two `@` signs is never accepted. */
  lemma SecondAtRejected(s: string, i: int, j: int)
    requires 0 <= i < j < |s| && s[i] == '@' && s[j] == '@'
    ensures !ValidateEmail(s)
  {
    match IndexOf(s, '@')
    case None =>
    case Some(at) =>
      assert at <= i by {
        assert '@' !in s[..at];
      }
      assert s[at + 1..][j - at - 1] == '@';
      assert !AllPlain(s[at + 1..]);
  }

  const PasswordTooShort := "Password must be at least 6 characters long"

  /** The result of `validatePassword`. */
  datatype PasswordCheck = PasswordCheck(isValid: bool, messages: seq<string>)

  /**
   * `validatePassword`: a password shorter than 6 characters is invalid and
   * carries exactly one message; a longer one is valid with none.
   */
  method ValidatePassword(password: string) returns (r: PasswordCheck)
    ensures r.isValid <==> |password| >= 6
    ensures r.isValid <==> r.messages == []
    ensures !r.isValid ==> r.messages == [PasswordTooShort]
  {
    var messages: seq<string> := [];
    if |password| < 6 {
      messages := messages + [PasswordTooShort];
    }
    r := PasswordCheck(|messages| == 0, messages);
  }
}
