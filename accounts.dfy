/** The sign-up form's validation chain and the account it creates. */
module Accounts {
  import opened Common
  import opened Text
  import opened Seqs

  /** A registered account as kept in the local user store. */
  datatype Account = Account(id: int, name: string, username: string, email: string, password: string)

  /** The raw values of the sign-up form. */
  datatype SignupForm = SignupForm(
    firstName: string,
    lastName: string,
    email: string,
    password: string,
    confirmPassword: string,
    agreeTerms: bool)

  /** The reasons `handleSignup` refuses a form, in the order it checks them. */
  datatype SignupError =
    | MissingField
    | InvalidEmail
    | ShortPassword
    | PasswordMismatch
    | TermsNotAccepted
    | EmailTaken

  const MinPasswordLength := 6

  predicate EmailRegistered(users: seq<Account>, email: string)
  {
    exists i :: 0 <= i < |users| && users[i].email == email
  }

  /** No two accounts of the store share an email address. */
  predicate DistinctEmails(users: seq<Account>)
  {
    forall i, j :: 0 <= i < j < |users| ==> users[i].email != users[j].email
  }

  predicate FieldsFilled(form: SignupForm)
  {
    && Trim(form.firstName) != [] && Trim(form.lastName) != [] && Trim(form.email) != []
    && form.password != [] && form.confirmPassword != []
  }

  /** Everything `handleSignup` checks before looking for a duplicate. */
  predicate FormAcceptable(form: SignupForm, validEmail: string -> bool)
  {
    && FieldsFilled(form) && validEmail(Trim(form.email))
    && |form.password| >= MinPasswordLength && form.password == form.confirmPassword && form.agreeTerms
  }

  /** `handleSignup`'s checks, first failure first; None lets the form through.
      The first and last name and the email are trimmed, the passwords are
      not; `validEmail` is the address pattern test, taken as given. */
  function ValidateSignup(form: SignupForm, users: seq<Account>, validEmail: string -> bool): (r: Option<SignupError>)
    ensures r == Some(MissingField) <==> !FieldsFilled(form)
    ensures r == Some(InvalidEmail) <==> FieldsFilled(form) && !validEmail(Trim(form.email))
    ensures r == Some(ShortPassword) <==>
      FieldsFilled(form) && validEmail(Trim(form.email)) && |form.password| < MinPasswordLength
    ensures r == Some(PasswordMismatch) <==>
      FieldsFilled(form) && validEmail(Trim(form.email)) && |form.password| >= MinPasswordLength
      && form.password != form.confirmPassword
    ensures r == Some(TermsNotAccepted) <==>
      FieldsFilled(form) && validEmail(Trim(form.email)) && |form.password| >= MinPasswordLength
      && form.password == form.confirmPassword && !form.agreeTerms
    ensures r == Some(EmailTaken) <==> FormAcceptable(form, validEmail) && EmailRegistered(users, Trim(form.email))
    ensures r.None? <==> FormAcceptable(form, validEmail) && !EmailRegistered(users, Trim(form.email))
  {
    var email := Trim(form.email);
    if !FieldsFilled(form) then Some(MissingField)
    else if !validEmail(email) then Some(InvalidEmail)
    else if |form.password| < MinPasswordLength then Some(ShortPassword)
    else if form.password != form.confirmPassword then Some(PasswordMismatch)
    else if !form.agreeTerms then Some(TermsNotAccepted)
    else if EmailRegistered(users, email) then Some(EmailTaken)
    else None
  }

  predicate IsAsciiAlphanumeric(c: char)
  {
    ('a' <= c <= 'z') || ('A' <= c <= 'Z') || ('0' <= c <= '9')
  }

  /** `email.split("@")[0]`: everything before the first '@'. */
  function LocalPart(email: string): (r: string)
    ensures r <= email && '@' !in r
    ensures |r| < |email| ==> email[|r|] == '@'
  {
    if email == [] || email[0] == '@' then [] else [email[0]] + LocalPart(email[1..])
  }

  /** `.replace(/[^a-zA-Z0-9]/g, "")`: the ASCII letters and digits, in order. */
  function KeepAlphanumeric(s: string): (r: string)
    ensures forall i :: 0 <= i < |r| ==> IsAsciiAlphanumeric(r[i])
    ensures forall i :: 0 <= i < |s| && IsAsciiAlphanumeric(s[i]) ==> s[i] in r
    ensures |r| <= |s| && IsSubsequence(r, s)
    ensures forall c :: multiset(r)[c] == if IsAsciiAlphanumeric(c) then multiset(s)[c] else 0
  {
    if s == [] then []
    else
      assert s == [s[0]] + s[1..];
      if IsAsciiAlphanumeric(s[0]) then
        var r := [s[0]] + KeepAlphanumeric(s[1..]);
        assert r[1..] == KeepAlphanumeric(s[1..]);
        r
      else KeepAlphanumeric(s[1..])
  }

  /** The username derived from an email: the alphanumeric characters of
      its local part. */
  function UsernameOf(email: string): (u: string)
    ensures forall i :: 0 <= i < |u| ==> IsAsciiAlphanumeric(u[i])
  {
    KeepAlphanumeric(LocalPart(email))
  }

  /** The account `handleSignup` stores for an accepted form. */
  function NewAccount(form: SignupForm, id: int): (a: Account)
    ensures a.id == id && a.name == Trim(form.firstName) + " " + Trim(form.lastName)
    ensures a.email == Trim(form.email) && a.password == form.password
    ensures a.username == UsernameOf(a.email)
  {
    var email := Trim(form.email);
    Account(id, Trim(form.firstName) + " " + Trim(form.lastName), UsernameOf(email), email, form.password)
  }

  /** An account accepted by the checks keeps the store free of duplicate
      addresses: the duplicate check runs before the push. */
  lemma SignupKeepsEmailsDistinct(form: SignupForm, users: seq<Account>, validEmail: string -> bool, id: int)
    requires DistinctEmails(users)
    requires ValidateSignup(form, users, validEmail).None?
    ensures DistinctEmails(users + [NewAccount(form, id)])
  {
  }
}
