/** The sign-up form check: six text fields, six checks in a fixed order, one
    explanation line per failed check, and the user is saved only when no
    check fails. */
module SignUp {
  import opened FormError

  /** The six text fields of the form. */
  datatype SignUpForm = SignUpForm(
    firstName: string,
    lastName: string,
    email: string,
    emailConfirm: string,
    password: string,
    passwordConfirm: string)

  /** The localized labels the explanation lines are made of; their text
      comes from the application's string resources. */
  datatype Labels = Labels(
    emptyBlank: string,
    firstName: string,
    lastName: string,
    uncorrectEntry: string,
    yourEmailAddress: string,
    differentAddresses: string,
    password: string,
    differentPasswords: string)

  /** String.indexOf: the first index of `c` in `s`, or -1. */
  function IndexOf(s: string, c: char): (r: int)
    ensures -1 <= r < |s|
    ensures r == -1 <==> c !in s
    ensures r >= 0 ==> s[r] == c && c !in s[..r]
  {
    if s == [] then -1
    else if s[0] == c then 0
    else
      var k := IndexOf(s[1..], c);
      if k < 0 then -1
      else
        assert s[..k + 1] == [s[0]] + s[1..][..k];
        k + 1
  }

  /** isEmail: the first '@' and the first '.' both exist and neither is the
      first character. */
  predicate IsEmail(email: string) {
    IndexOf(email, '@') > 0 && IndexOf(email, '.') > 0
  }

  /** An address is accepted iff it contains an '@' and a '.' and starts with
      neither. */
  lemma IsEmailIff(email: string)
    ensures IsEmail(email) <==> '@' in email && '.' in email && email[0] != '@' && email[0] != '.'
  {
    if '@' in email && '.' in email {
      if email[0] != '@' {
        assert IndexOf(email, '@') != 0;
      }
      if email[0] != '.' {
        assert IndexOf(email, '.') != 0;
      }
    }
  }

  /** The six checks, in the order the form runs them; true means failed. */
  function Checks(f: SignUpForm): (r: seq<bool>)
    ensures |r| == 6
  {
    [ f.firstName == "",
      f.lastName == "",
      !IsEmail(f.email),
      f.email != f.emailConfirm,
      f.password == "",
      f.password != f.passwordConfirm ]
  }

  /** The explanation line of each check, in the same order. */
  function Messages(l: Labels): (r: seq<string>)
    ensures |r| == 6
    ensures forall i :: 0 <= i < 6 ==> |r[i]| >= 2 && r[i][|r[i]| - 2..] == ".\n"
  {
    [ l.emptyBlank + " " + l.firstName + ".\n",
      l.emptyBlank + " " + l.lastName + ".\n",
      l.uncorrectEntry + " " + l.yourEmailAddress + ".\n",
      l.differentAddresses + ".\n",
      l.emptyBlank + " " + l.password + ".\n",
      l.differentPasswords + ".\n" ]
  }

  /** The form passes every check. */
  predicate Valid(f: SignUpForm) {
    f.firstName != "" && f.lastName != "" && IsEmail(f.email) && f.email == f.emailConfirm
    && f.password != "" && f.password == f.passwordConfirm
  }

  /** The lines of the failed checks among the first `n`, in check order. */
  function Selected(failed: seq<bool>, lines: seq<string>, n: nat): string
    requires n <= |failed| == |lines|
  {
    if n == 0 then ""
    else Selected(failed, lines, n - 1) + (if failed[n - 1] then lines[n - 1] else "")
  }

  /** The explanation checkForm accumulates. */
  function Report(f: SignUpForm, l: Labels): string {
    Selected(Checks(f), Messages(l), 6)
  }

  /** The number of failed checks among the first `n`. */
  function FailureCount(failed: seq<bool>, n: nat): (r: nat)
    requires n <= |failed|
    ensures r <= n
  {
    if n == 0 then 0 else FailureCount(failed, n - 1) + (if failed[n - 1] then 1 else 0)
  }

  function NewlineCount(s: string): (r: nat)
    ensures r <= |s|
  {
    if s == [] then 0 else NewlineCount(s[..|s| - 1]) + (if s[|s| - 1] == '\n' then 1 else 0)
  }

  lemma {:induction false} NewlineCountAppend(a: string, b: string)
    ensures NewlineCount(a + b) == NewlineCount(a) + NewlineCount(b)
    decreases |b|
  {
    if b != [] {
      assert (a + b)[..|a + b| - 1] == a + b[..|b| - 1];
      NewlineCountAppend(a, b[..|b| - 1]);
    } else {
      assert a + b == a;
    }
  }

  /** A label without a line break. */
  predicate OneLine(s: string) { '\n' !in s }

  predicate OneLineLabels(l: Labels) {
    OneLine(l.emptyBlank) && OneLine(l.firstName) && OneLine(l.lastName) && OneLine(l.uncorrectEntry)
    && OneLine(l.yourEmailAddress) && OneLine(l.differentAddresses) && OneLine(l.password)
    && OneLine(l.differentPasswords)
  }

  lemma {:induction false} NewlineCountOneLine(s: string)
    requires OneLine(s)
    ensures NewlineCount(s) == 0
    decreases |s|
  {
    if s != [] {
      assert forall c :: c in s[..|s| - 1] ==> c in s;
      NewlineCountOneLine(s[..|s| - 1]);
    }
  }

  /** With one-line labels, each message is exactly one line. */
  lemma MessagesAreLines(l: Labels)
    requires OneLineLabels(l)
    ensures forall i :: 0 <= i < 6 ==> NewlineCount(Messages(l)[i]) == 1
  {
    var m := Messages(l);
    forall i | 0 <= i < 6
      ensures NewlineCount(m[i]) == 1
    {
      var body := m[i][..|m[i]| - 2];
      NewlineCountOneLine(body + ".");
      assert m[i] == body + "." + "\n";
      assert body == (match i
        case 0 => l.emptyBlank + " " + l.firstName
        case 1 => l.emptyBlank + " " + l.lastName
        case 2 => l.uncorrectEntry + " " + l.yourEmailAddress
        case 3 => l.differentAddresses
        case 4 => l.emptyBlank + " " + l.password
        case _ => l.differentPasswords);
      NewlineCountAppend(body + ".", "\n");
    }
  }

  lemma {:induction false} SelectedLines(failed: seq<bool>, lines: seq<string>, n: nat)
    requires n <= |failed| == |lines|
    requires forall i :: 0 <= i < |lines| ==> NewlineCount(lines[i]) == 1
    ensures NewlineCount(Selected(failed, lines, n)) == FailureCount(failed, n)
  {
    if n > 0 {
      SelectedLines(failed, lines, n - 1);
      NewlineCountAppend(Selected(failed, lines, n - 1), if failed[n - 1] then lines[n - 1] else "");
    }
  }

  /** The explanation has exactly one line per failed check. */
  lemma ReportLineCount(f: SignUpForm, l: Labels)
    requires OneLineLabels(l)
    ensures NewlineCount(Report(f, l)) == FailureCount(Checks(f), 6)
  {
    MessagesAreLines(l);
    SelectedLines(Checks(f), Messages(l), 6);
  }

  lemma {:induction false} SelectedEmpty(failed: seq<bool>, lines: seq<string>, n: nat)
    requires n <= |failed| == |lines|
    requires forall i :: 0 <= i < |lines| ==> lines[i] != ""
    ensures Selected(failed, lines, n) == "" <==> forall i :: 0 <= i < n ==> !failed[i]
  {
    if n > 0 {
      SelectedEmpty(failed, lines, n - 1);
    }
  }

  /** The explanation is empty iff the form is valid. */
  lemma ReportEmptyIffValid(f: SignUpForm, l: Labels)
    ensures Report(f, l) == "" <==> Valid(f)
  {
    var c := Checks(f);
    SelectedEmpty(c, Messages(l), 6);
    assert Valid(f) <==> !c[0] && !c[1] && !c[2] && !c[3] && !c[4] && !c[5];
  }

  /** Check k of the form: when it fails, its line is appended and the error
      flag is raised. */
  method Check(error: AopdsFormError, checks: seq<bool>, lines: seq<string>, k: nat)
    requires k < |checks| == |lines|
    requires error.errordisplay == Selected(checks, lines, k)
    requires error.errorcode <==> exists j :: 0 <= j < k && checks[j]
    modifies error`errorcode, error`errordisplay
    ensures error.errordisplay == Selected(checks, lines, k + 1)
    ensures error.errorcode <==> exists j :: 0 <= j < k + 1 && checks[j]
  {
    if checks[k] {
      error.AddToErrordisplay(lines[k]);
      error.SetErrorcode(true);
    }
  }

  /** checkForm: runs the six checks in order on a fresh error object; check
      k fails when Checks(f)[k] holds and then adds Messages(l)[k]. */
  method CheckForm(f: SignUpForm, l: Labels) returns (error: AopdsFormError)
    ensures fresh(error)
    ensures error.errorcode <==> !Valid(f)
    ensures error.errordisplay == Report(f, l)
  {
    var failed := Checks(f);
    var lines := Messages(l);
    error := new AopdsFormError();
    error.SetErrorcode(false);
    Check(error, failed, lines, 0);
    Check(error, failed, lines, 1);
    Check(error, failed, lines, 2);
    Check(error, failed, lines, 3);
    Check(error, failed, lines, 4);
    Check(error, failed, lines, 5);
    assert Valid(f) <==> !failed[0] && !failed[1] && !failed[2] && !failed[3] && !failed[4] && !failed[5];
  }

  /** The sign-up button: the user is saved (`save`) only when the form has
      no error; otherwise the explanation is shown. */
  method OnSignUpClick(f: SignUpForm, l: Labels) returns (save: bool, shown: string)
    ensures save <==> Valid(f)
    ensures save ==> shown == ""
    ensures !save ==> shown == Report(f, l) && shown != ""
  {
    var errorinform := CheckForm(f, l);
    ReportEmptyIffValid(f, l);
    if !errorinform.errorcode {
      return true, "";
    }
    return false, errorinform.errordisplay;
  }
}
