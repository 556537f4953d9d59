/** `loginSchema`: a non-empty username and a password of at least 6 characters, neither trimmed. */
module LoginSchema {
  import opened Wrappers

  /** A body field as zod sees it. */
  datatype Field = Missing | NotText | Text(s: string)

  datatype LoginBody = LoginBody(username: Field, password: Field)

  datatype Issue = Issue(path: string, message: string)

  const UsernameRequired := "Tên đăng nhập là bắt buộc"
  const PasswordTooShort := "Mật khẩu phải có ít nhất 6 kí tự"

  /** zod's own issues for a value that is not a string; their exact wording is not part of this model. */
  const TypeIssue := "Expected string"

  function UsernameIssues(f: Field): (r: seq<Issue>)
    ensures r == [] <==> f.Text? && |f.s| >= 1
  {
    match f
    case Text(s) => if |s| == 0 then [Issue("username", UsernameRequired)] else []
    case _ => [Issue("username", TypeIssue)]
  }

  function PasswordIssues(f: Field): (r: seq<Issue>)
    ensures r == [] <==> f.Text? && |f.s| >= 6
  {
    match f
    case Text(s) => if |s| < 6 then [Issue("password", PasswordTooShort)] else []
    case _ => [Issue("password", TypeIssue)]
  }

  /** `loginSchema.parse(body)`: every field is checked and every issue reported. */
  function Parse(b: LoginBody): (r: Result<LoginBody, seq<Issue>>)
    ensures r.Success? <==> b.username.Text? && |b.username.s| >= 1 && b.password.Text? && |b.password.s| >= 6
    ensures r.Success? ==> r.value == b
    ensures r.Failure? ==> |r.error| >= 1
  {
    var issues := UsernameIssues(b.username) + PasswordIssues(b.password);
    if issues == [] then Success(b) else Failure(issues)
  }

  predicate Accepts(b: LoginBody) { Parse(b).Success? }

  /** The password bound is inclusive, and nothing is trimmed: a username of spaces passes. */
  lemma BoundsAsWritten()
    ensures Accepts(LoginBody(Text("a"), Text("123456")))
    ensures !Accepts(LoginBody(Text("a"), Text("12345")))
    ensures !Accepts(LoginBody(Text(""), Text("123456")))
    ensures Accepts(LoginBody(Text(" "), Text("123456")))
  {
  }

  /** Both fields' issues are reported together. */
  lemma BothIssuesReported(b: LoginBody)
    requires b.username == Text("") && b.password.Text? && |b.password.s| < 6
    ensures Parse(b) == Failure([Issue("username", UsernameRequired), Issue("password", PasswordTooShort)])
  {
    assert UsernameIssues(b.username) + PasswordIssues(b.password)
        == [Issue("username", UsernameRequired)] + [Issue("password", PasswordTooShort)]
        == [Issue("username", UsernameRequired), Issue("password", PasswordTooShort)];
  }
}
