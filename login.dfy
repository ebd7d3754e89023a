/**
 * The login form: the CPF box formats what is typed as `ddd.ddd.ddd-dd`,
 * and a submission goes to the login dispatcher only with an eleven-digit
 * CPF and a password.
 */
module Login {
  import opened Wrappers
  import opened Text

  /** `value.replace(/\D/g, '').slice(0, 11)`: the digits the CPF box keeps. */
  function CpfDigits(value: string): (d: string)
    ensures AllDigits(d) && |d| <= 11
    ensures |d| == if |DigitsOnly(value)| <= 11 then |DigitsOnly(value)| else 11
    ensures d == DigitsOnly(value)[..|d|]
  {
    Take(DigitsOnly(value), 11)
  }

  /** The separators `formatCPF` puts between `n` digits. */
  function Separators(n: nat): nat
  {
    if n <= 3 then 0 else if n <= 6 then 1 else if n <= 9 then 2 else 3
  }

  /**
   * `formatCPF`: the kept digits with a dot after the third and the sixth and
   * a dash after the ninth, each only when more digits follow.
   */
  function FormatCpf(value: string): (r: string)
    ensures |r| == |CpfDigits(value)| + Separators(|CpfDigits(value)|)
    ensures |CpfDigits(value)| <= 3 ==> r == CpfDigits(value)
    ensures |CpfDigits(value)| > 3 ==> r[..3] == CpfDigits(value)[..3] && r[3] == '.'
    ensures |CpfDigits(value)| > 6 ==> r[4..7] == CpfDigits(value)[3..6] && r[7] == '.'
    ensures |CpfDigits(value)| > 9 ==> r[8..11] == CpfDigits(value)[6..9] && r[11] == '-'
  {
    var d := CpfDigits(value);
    if |d| <= 3 then d
    else if |d| <= 6 then d[..3] + "." + d[3..]
    else if |d| <= 9 then d[..3] + "." + d[3..6] + "." + d[6..]
    else d[..3] + "." + d[3..6] + "." + d[6..9] + "-" + d[9..]
  }

  /** A separator between two runs of digits is dropped by `replace(/\D/g, '')`. */
  lemma DigitsAround(a: string, sep: char, b: string)
    requires !IsDigit(sep)
    ensures DigitsOnly(a + [sep] + b) == DigitsOnly(a) + DigitsOnly(b)
  {
    DigitsOnlyAppend(a + [sep], b);
    DigitsOnlyAppend(a, [sep]);
  }

  /** Stripping the separators from a formatted CPF gives back the digits it was formatted from. */
  lemma FormatCpfDigits(value: string)
    ensures DigitsOnly(FormatCpf(value)) == CpfDigits(value)
  {
    var d := CpfDigits(value);
    var r := FormatCpf(value);
    if |d| <= 3 {
    } else if |d| <= 6 {
      var a, b := d[..3], d[3..];
      assert AllDigits(a) && AllDigits(b);
      assert r == a + "." + b;
      DigitsJoined2(a, '.', b);
      assert a + b == d;
    } else if |d| <= 9 {
      var a, b, c := d[..3], d[3..6], d[6..];
      assert AllDigits(a) && AllDigits(b) && AllDigits(c);
      assert r == a + "." + b + "." + c;
      DigitsJoined3(a, '.', b, '.', c);
      assert a + b + c == d;
    } else {
      var a, b, c, e := d[..3], d[3..6], d[6..9], d[9..];
      assert AllDigits(a) && AllDigits(b) && AllDigits(c) && AllDigits(e);
      assert r == a + "." + b + "." + c + "-" + e;
      DigitsJoined4(a, '.', b, '.', c, '-', e);
      assert a + b + c + e == d;
    }
  }

  /** Two runs of digits around a separator strip to the runs. */
  lemma DigitsJoined2(a: string, s: char, b: string)
    requires AllDigits(a) && AllDigits(b) && !IsDigit(s)
    ensures DigitsOnly(a + [s] + b) == a + b
  {
    DigitsAround(a, s, b);
  }

  lemma DigitsJoined3(a: string, s: char, b: string, t: char, c: string)
    requires AllDigits(a) && AllDigits(b) && AllDigits(c) && !IsDigit(s) && !IsDigit(t)
    ensures DigitsOnly(a + [s] + b + [t] + c) == a + b + c
  {
    DigitsAround(a + [s] + b, t, c);
    DigitsJoined2(a, s, b);
  }

  lemma DigitsJoined4(a: string, s: char, b: string, t: char, c: string, u: char, e: string)
    requires AllDigits(a) && AllDigits(b) && AllDigits(c) && AllDigits(e) && !IsDigit(s) && !IsDigit(t) && !IsDigit(u)
    ensures DigitsOnly(a + [s] + b + [t] + c + [u] + e) == a + b + c + e
  {
    DigitsAround(a + [s] + b + [t] + c, u, e);
    DigitsJoined3(a, s, b, t, c);
  }

  /** Formatting what the box already shows changes nothing. */
  lemma FormatCpfIdempotent(value: string)
    ensures FormatCpf(FormatCpf(value)) == FormatCpf(value)
  {
    FormatCpfDigits(value);
    assert CpfDigits(FormatCpf(value)) == CpfDigits(value);
  }

  /** What `handleSubmit` does before the dispatcher is called. */
  datatype LoginCheck = CpfInvalid | PasswordMissing | Attempt(cpf: string, senha: string)

  /** `handleSubmit`'s checks: eleven digits, then a non-empty password; the dispatcher gets the digits only. */
  function CheckLogin(cpf: string, senha: string): (r: LoginCheck)
    ensures r == CpfInvalid <==> |DigitsOnly(cpf)| != 11
    ensures r == PasswordMissing <==> |DigitsOnly(cpf)| == 11 && senha == ""
    ensures r.Attempt? ==> r.cpf == DigitsOnly(cpf) && |r.cpf| == 11 && AllDigits(r.cpf) && r.senha == senha
  {
    var numbers := DigitsOnly(cpf);
    if |numbers| != 11 then CpfInvalid
    else if senha == "" then PasswordMissing
    else Attempt(numbers, senha)
  }

  const CpfInvalidMessage := "CPF inv\U{E1}lido. Digite os 11 d\U{ED}gitos."
  const PasswordMissingMessage := "Digite sua senha."
  const LoginFailedMessage := "Erro ao fazer login"

  /** The dispatcher's answer: `{ success, error? }`. */
  datatype LoginReply = LoginReply(success: bool, error: Option<string>)

  /**
   * The error the form shows after a submission; `reply` is the dispatcher's
   * answer, consulted only when the checks pass. No error is shown on
   * success.
   */
  function SubmitError(cpf: string, senha: string, reply: LoginReply): (e: string)
    ensures CheckLogin(cpf, senha) == CpfInvalid ==> e == CpfInvalidMessage
    ensures CheckLogin(cpf, senha) == PasswordMissing ==> e == PasswordMissingMessage
    ensures CheckLogin(cpf, senha).Attempt? && reply.success ==> e == ""
    ensures CheckLogin(cpf, senha).Attempt? && !reply.success ==>
              e == if reply.error.Some? && reply.error.value != "" then reply.error.value else LoginFailedMessage
  {
    match CheckLogin(cpf, senha)
    case CpfInvalid => CpfInvalidMessage
    case PasswordMissing => PasswordMissingMessage
    case Attempt(_, _) => if reply.success then "" else NonEmpty(reply.error).GetOr(LoginFailedMessage)
  }

  /**
   * A CPF typed into the box reaches the dispatcher exactly when at least
   * eleven digits were typed and a password given, and the dispatcher then
   * gets the first eleven digits.
   */
  lemma FormattedCpfSubmits(value: string, senha: string)
    ensures CheckLogin(FormatCpf(value), senha).Attempt? <==> |DigitsOnly(value)| >= 11 && senha != ""
    ensures CheckLogin(FormatCpf(value), senha).Attempt? ==> CheckLogin(FormatCpf(value), senha).cpf == DigitsOnly(value)[..11]
  {
    FormatCpfDigits(value);
  }
}
