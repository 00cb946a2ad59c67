// The plain rule checks on a user (src/businnes/rules/userRules.js): a
// primary email must exist, a name is required and at least one email is.

module UserChecks {
  import opened Js

  /** The parts of a user the checks read; everything else travels in `other`. */
  datatype CheckedUser = CheckedUser(name: JsVal, email: Option<seq<Record>>, other: Record)

  /** Some email of the user has a truthy `is_main` (`user.email?.some(e => e.is_main)`). */
  predicate HasPrimaryEmail(user: CheckedUser)
  {
    user.email.Some? && exists i :: 0 <= i < |user.email.value| && Truthy(Get(user.email.value[i], "is_main"))
  }

  const NoPrimaryEmail: string := "É necessário um email principal"
  const NameRequired: string := "Nome é obrigatório"
  const EmailRequired: string := "Pelo menos um email é necessário"

  /** `ensurePrimaryEmailExists`: the same user, or an error when no email is primary (or the list is missing). */
  function EnsurePrimaryEmailExists(user: CheckedUser): (r: Result<CheckedUser>)
    ensures r.Ok? <==> HasPrimaryEmail(user)
    ensures r.Ok? ==> r.value == user
    ensures r.Err? ==> r.message == NoPrimaryEmail
  {
    if !HasPrimaryEmail(user) then Err(NoPrimaryEmail) else Ok(user)
  }

  /** `validateUserData`: the name is checked before the email list. */
  function ValidateUserData(user: CheckedUser): (r: Result<CheckedUser>)
    ensures !Truthy(user.name) ==> r == Err(NameRequired)
    ensures Truthy(user.name) && (user.email.None? || |user.email.value| == 0) ==> r == Err(EmailRequired)
    ensures r.Ok? <==> Truthy(user.name) && user.email.Some? && |user.email.value| > 0
    ensures r.Ok? ==> r.value == user
  {
    if !Truthy(user.name) then Err(NameRequired)
    else if user.email.None? || |user.email.value| == 0 then Err(EmailRequired)
    else Ok(user)
  }

  /** A user that passes the primary-email check also passes the email-list check of `validateUserData`. */
  lemma PrimaryEmailImpliesEmailList(user: CheckedUser)
    requires EnsurePrimaryEmailExists(user).Ok?
    requires Truthy(user.name)
    ensures ValidateUserData(user) == Ok(user)
  {
  }
}
