/** The registration page: a three-field form, the validation schema it is
    checked against before anything is sent, and the submit handler. */
module Register {

  import opened Wrappers
  import opened Browser

  const RegisterPath: string := "/users/register"
  const UsernameMessage: string := "Username is required"
  const EmailMessage: string := "Invalid email address"
  const PasswordMessage: string :=
    "Password must be at least 8 characters and include uppercase, lowercase, number, and special character"
  const InvalidInput: string := "Invalid input"
  const RegistrationFailed: string := "Registration failed"

  datatype Field = Username | Email | Password

  datatype RegisterForm = RegisterForm(username: string, email: string, password: string)

  function FieldValue(form: RegisterForm, field: Field): string
  {
    match field
    case Username => form.username
    case Email => form.email
    case Password => form.password
  }

  /** `{ ...formData, [name]: value }`: the named field takes the value and the
      other two keep theirs. */
  function WithField(form: RegisterForm, field: Field, value: string): (r: RegisterForm)
    ensures FieldValue(r, field) == value
    ensures forall f: Field | f != field :: FieldValue(r, f) == FieldValue(form, f)
  {
    match field
    case Username => form.(username := value)
    case Email => form.(email := value)
    case Password => form.(password := value)
  }

  // ---------------------------------------------------------------------
  // The password pattern
  //   ^(?=.*?[a-z])(?=.*?[A-Z])(?=.*?\d)(?=.*?[@#$!%&*]).{8,}$
  // ---------------------------------------------------------------------

  /** The four character classes the lookaheads ask for. */
  datatype CharClass = Lower | Upper | Digit | Special

  predicate InClass(c: char, k: CharClass)
  {
    match k
    case Lower => 'a' <= c <= 'z'
    case Upper => 'A' <= c <= 'Z'
    case Digit => '0' <= c <= '9'
    case Special => c in {'@', '#', '$', '!', '%', '&', '*'}
  }

  /** The characters `.` does not match without the `s` flag. */
  predicate IsLineTerminator(c: char)
  {
    var n := c as int;
    n == 0x0A || n == 0x0D || n == 0x2028 || n == 0x2029
  }

  /** The lookahead `(?=.*?[k])` tried from position i: the lazy `.*?` skips
      characters other than line terminators, one at a time, until one of
      class k follows. */
  function LazyFind(s: string, i: nat, k: CharClass): bool
    requires i <= |s|
    decreases |s| - i
  {
    if i == |s| then false
    else if InClass(s[i], k) then true
    else if IsLineTerminator(s[i]) then false
    else LazyFind(s, i + 1, k)
  }

  /** How many characters the greedy `.` can take from position i. */
  function DotRun(s: string, i: nat): nat
    requires i <= |s|
    decreases |s| - i
  {
    if i == |s| || IsLineTerminator(s[i]) then 0 else 1 + DotRun(s, i + 1)
  }

  /** The whole pattern, anchored at position 0. After the lookaheads,
      `.{8,}` takes between 8 and DotRun(p, 0) characters and `$` (no `m`
      flag) then needs the end of input: so the run must reach the end. */
  predicate PasswordPattern(p: string)
  {
    && LazyFind(p, 0, Lower)
    && LazyFind(p, 0, Upper)
    && LazyFind(p, 0, Digit)
    && LazyFind(p, 0, Special)
    && 8 <= |p| <= DotRun(p, 0)
  }

  predicate Contains(p: string, k: CharClass)
  {
    exists i | 0 <= i < |p| :: InClass(p[i], k)
  }

  predicate NoLineTerminator(p: string)
  {
    forall i | 0 <= i < |p| :: !IsLineTerminator(p[i])
  }

  /** The password rule in words: at least 8 characters, none of them a line
      terminator, with a lower-case letter, an upper-case letter, a digit and
      one of @#$!%&*. */
  predicate PasswordRule(p: string)
  {
    && |p| >= 8
    && NoLineTerminator(p)
    && Contains(p, Lower)
    && Contains(p, Upper)
    && Contains(p, Digit)
    && Contains(p, Special)
  }

  /** A lookahead succeeds exactly when a character of the class appears with
      no line terminator before it. */
  lemma {:induction false} LazyFindMeaning(s: string, i: nat, k: CharClass)
    requires i <= |s|
    ensures LazyFind(s, i, k) <==>
      exists j | i <= j < |s| :: InClass(s[j], k) && forall m | i <= m < j :: !IsLineTerminator(s[m])
    decreases |s| - i
  {
    if i < |s| && !InClass(s[i], k) && !IsLineTerminator(s[i]) {
      LazyFindMeaning(s, i + 1, k);
      if LazyFind(s, i, k) {
        var j :| i + 1 <= j < |s| && InClass(s[j], k) && forall m | i + 1 <= m < j :: !IsLineTerminator(s[m]);
        assert forall m | i <= m < j :: !IsLineTerminator(s[m]);
      }
    }
  }

  /** The dot run reaches the end exactly when no line terminator lies
      ahead. */
  lemma {:induction false} DotRunMeaning(s: string, i: nat)
    requires i <= |s|
    ensures DotRun(s, i) <= |s| - i
    ensures DotRun(s, i) == |s| - i <==> forall m | i <= m < |s| :: !IsLineTerminator(s[m])
    decreases |s| - i
  {
    if i < |s| {
      DotRunMeaning(s, i + 1);
    }
  }

  /** The regular expression accepts exactly the passwords the rule in words
      describes. */
  lemma PatternMeansRule(p: string)
    ensures PasswordPattern(p) <==> PasswordRule(p)
  {
    DotRunMeaning(p, 0);
    LazyFindMeaning(p, 0, Lower);
    LazyFindMeaning(p, 0, Upper);
    LazyFindMeaning(p, 0, Digit);
    LazyFindMeaning(p, 0, Special);
  }

  /** Three passwords: one accepted, one without an upper-case letter, one
      too short. */
  lemma PasswordExamples()
    ensures PasswordRule("Abcdef1!")
    ensures !PasswordRule("abcdef1!")
    ensures !PasswordRule("Abc1!")
  {
    var good := "Abcdef1!";
    assert InClass(good[0], Upper) && InClass(good[1], Lower);
    assert InClass(good[6], Digit) && InClass(good[7], Special);
  }

  // ---------------------------------------------------------------------
  // The schema and the submit handler
  // ---------------------------------------------------------------------

  /** One failed check of the schema. */
  datatype Issue = Issue(field: Field, message: string)

  predicate UsernameValid(u: string)
  {
    |u| >= 3
  }

  /** `registerSchema.safeParse(form)`: the failed checks, in the schema's
      field order. The e-mail check belongs to the validation library and is
      a parameter. */
  function Validate(form: RegisterForm, isEmail: string -> bool): (issues: seq<Issue>)
    ensures issues == [] <==>
      UsernameValid(form.username) && isEmail(form.email) && PasswordRule(form.password)
    ensures Issue(Username, UsernameMessage) in issues <==> !UsernameValid(form.username)
    ensures Issue(Email, EmailMessage) in issues <==> !isEmail(form.email)
    ensures Issue(Password, PasswordMessage) in issues <==> !PasswordRule(form.password)
    ensures forall i | 0 <= i < |issues| :: issues[i].message != ""
  {
    PatternMeansRule(form.password);
    (if UsernameValid(form.username) then [] else [Issue(Username, UsernameMessage)])
    + (if isEmail(form.email) then [] else [Issue(Email, EmailMessage)])
    + (if PasswordPattern(form.password) then [] else [Issue(Password, PasswordMessage)])
  }

  /** How `POST /users/register` settles: success, or failure carrying
      `err.response?.data?.message` (None when absent). */
  datatype RegisterReply = Registered | RegisterFailed(message: Option<string>)

  datatype Post = Post(path: string, body: RegisterForm)

  /** What `handleSubmit` leaves behind: the error shown, the one request it
      made if any, and where it navigated. */
  datatype SubmitOutcome = SubmitOutcome(error: string, post: Option<Post>, nav: Option<Navigation>)

  /** `handleSubmit`. `describe` stands for the validation library's error
      message for a list of issues; `reply` is used only when the request is
      sent. */
  function Submit(form: RegisterForm, isEmail: string -> bool, describe: seq<Issue> -> string,
                  reply: RegisterReply): (o: SubmitOutcome)
    // a request is sent exactly when the form validates, and it carries the
    // form unchanged
    ensures o.post.Some? <==> Validate(form, isEmail) == []
    ensures o.post.Some? ==> o.post.value == Post(RegisterPath, form)
    // a form that fails validation gets a message and goes nowhere
    ensures o.post.None? ==> o.error != "" && o.nav.None?
    // only a successful registration navigates, to the login page, with no error
    ensures o.nav.Some? <==> o.post.Some? && reply.Registered?
    ensures o.nav.Some? ==> o.nav.value == Navigation(LoginPath, false) && o.error == ""
    // a failed registration shows the server's message, or a fixed one
    ensures o.post.Some? && reply.RegisterFailed? ==>
      o.error == (if ItemTruthy(reply.message) then reply.message.value else RegistrationFailed)
  {
    var issues := Validate(form, isEmail);
    if issues != [] then
      var message := describe(issues);
      SubmitOutcome(if message != "" then message else InvalidInput, None, None)
    else
      match reply
      case Registered => SubmitOutcome("", Some(Post(RegisterPath, form)), Some(Navigation(LoginPath, false)))
      case RegisterFailed(message) =>
        SubmitOutcome(if ItemTruthy(message) then message.value else RegistrationFailed,
                      Some(Post(RegisterPath, form)), None)
  }

  /** Two registrations: a two-letter username is
      refused without a request; a valid form is posted unchanged. */
  lemma RegistrationExamples(isEmail: string -> bool, describe: seq<Issue> -> string, reply: RegisterReply)
    requires isEmail("x@y.com")
    ensures Submit(RegisterForm("ab", "x@y.com", "Abcdef1!"), isEmail, describe, reply).post == None
    ensures var form := RegisterForm("user1", "x@y.com", "Abcdef1!");
      Submit(form, isEmail, describe, reply).post == Some(Post(RegisterPath, form))
  {
    PasswordExamples();
  }

  /** The registration page's state. */
  class RegisterPage {
    var formData: RegisterForm
    var error: string

    constructor ()
      ensures formData == RegisterForm("", "", "") && error == ""
    {
      formData := RegisterForm("", "", "");
      error := "";
    }

    /** `handleChange` for the input named `field`. */
    method HandleChange(field: Field, value: string)
      modifies this
      ensures formData == WithField(old(formData), field, value)
      ensures error == old(error)
    {
      formData := WithField(formData, field, value);
    }

    /** `handleSubmit`: it clears the error, validates, and posts the form only
      when it is valid. */
    method HandleSubmit(isEmail: string -> bool, describe: seq<Issue> -> string, reply: RegisterReply)
      returns (post: Option<Post>, nav: Option<Navigation>)
      modifies this
      ensures formData == old(formData)
      ensures var o := Submit(old(formData), isEmail, describe, reply);
        error == o.error && post == o.post && nav == o.nav
    {
      error := "";
      post, nav := None, None;
      var issues := Validate(formData, isEmail);
      if issues != [] {
        var message := describe(issues);
        error := if message != "" then message else InvalidInput;
        return;
      }
      post := Some(Post(RegisterPath, formData));
      match reply {
        case Registered =>
          nav := Some(Navigation(LoginPath, false));
        case RegisterFailed(message) =>
          error := if ItemTruthy(message) then message.value else RegistrationFailed;
      }
    }
  }
}
