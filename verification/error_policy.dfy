/**
 The catch blocks of `signUpUser` and `signInUser`: which field of a caught
 error is compared with which code, in which order, and what is thrown then.

 Each catch block is written twice: once as the chain of `if`s the service
 runs (`ClassifySignUpError`, `ClassifySignInError`), and once as a decision
 table read top to bottom with a fallback (`Decide` over `SignUpTable`,
 `SignInTable`). The lemmas show the two agree on every error.
 */
module ErrorPolicy {
  import opened AuthTypes

  const CONFLICT_MESSAGE := "User with these credentials already exist"
  const SIGN_UP_FAILED := "Something went wrong!"
  const NOT_FOUND_MESSAGE := "User with given credentials does not exist"
  const SIGN_IN_FAILED := "Something went wrong during user signin Process"

  /** JavaScript `v === code` for a number literal `code`. */
  predicate StrictEquals(v: FieldValue, code: int) {
    v.Num? && v.n == code
  }

  /** The catch block of `signUpUser`. */
  function ClassifySignUpError(e: Failure): (r: Outcome)
    ensures r.Conflict? <==> StrictEquals(e.statusCode, 400)
    ensures r.Rethrow? <==> !StrictEquals(e.statusCode, 400) && StrictEquals(e.status, 400)
    ensures r.Internal? <==> !StrictEquals(e.statusCode, 400) && !StrictEquals(e.status, 400)
    ensures r.Rethrow? ==> r.err == e
    ensures r.Conflict? ==> r.message == CONFLICT_MESSAGE
    ensures r.Internal? ==> r.message == SIGN_UP_FAILED
  {
    if StrictEquals(e.statusCode, 400) then Conflict(CONFLICT_MESSAGE)
    else if StrictEquals(e.status, 400) then Rethrow(e)
    else Internal(SIGN_UP_FAILED)
  }

  /** The catch block of `signInUser`. */
  function ClassifySignInError(e: Failure): (r: Outcome)
    ensures r.NotFound? <==> StrictEquals(e.statusCode, 404)
    ensures r.Internal? <==> !StrictEquals(e.statusCode, 404)
    ensures r.NotFound? ==> r.message == NOT_FOUND_MESSAGE
    ensures r.Internal? ==> r.message == SIGN_IN_FAILED
  {
    if StrictEquals(e.statusCode, 404) then NotFound(NOT_FOUND_MESSAGE)
    else Internal(SIGN_IN_FAILED)
  }

  // ---------------------------------------------------------------------
  // The decision tables

  /** The two fields of a caught error that a catch block inspects. */
  datatype Field = StatusCode | Status

  /** What a matching row does: throw a fixed domain error, or rethrow the error. */
  datatype Action = Throw(domainError: Outcome) | PassThrough

  /** A row: if `field === code`, perform `action`. */
  datatype Rule = Rule(field: Field, code: int, action: Action)

  function Read(e: Failure, f: Field): FieldValue {
    match f
    case StatusCode => e.statusCode
    case Status => e.status
  }

  predicate Matches(rule: Rule, e: Failure) {
    StrictEquals(Read(e, rule.field), rule.code)
  }

  function Perform(a: Action, e: Failure): Outcome {
    match a
    case Throw(d) => d
    case PassThrough => Rethrow(e)
  }

  /** The first row that matches decides; if none does, `fallback` is thrown. */
  function Decide(rules: seq<Rule>, fallback: Outcome, e: Failure): Outcome
    decreases |rules|
  {
    if rules == [] then fallback
    else if Matches(rules[0], e) then Perform(rules[0].action, e)
    else Decide(rules[1..], fallback, e)
  }

  /** The sign-up table: the provider's 400 first, then the validator's 400. */
  const SignUpTable: seq<Rule> :=
    [Rule(StatusCode, 400, Throw(Conflict(CONFLICT_MESSAGE))), Rule(Status, 400, PassThrough)]

  /** The sign-in table: only the provider's 404. */
  const SignInTable: seq<Rule> := [Rule(StatusCode, 404, Throw(NotFound(NOT_FOUND_MESSAGE)))]

  /**
   `Decide` is first-match: with no matching row it throws the fallback, and
   otherwise the earliest matching row acts, whatever the rows after it say.
   */
  lemma {:induction false} DecideFirstMatch(rules: seq<Rule>, fallback: Outcome, e: Failure, i: nat)
    requires i <= |rules|
    requires forall j :: 0 <= j < i ==> !Matches(rules[j], e)
    ensures i == |rules| ==> Decide(rules, fallback, e) == fallback
    ensures i < |rules| && Matches(rules[i], e) ==> Decide(rules, fallback, e) == Perform(rules[i].action, e)
    decreases i
  {
    if i > 0 {
      assert !Matches(rules[0], e);
      DecideFirstMatch(rules[1..], fallback, e, i - 1);
    }
  }

  /** The sign-up catch block is the sign-up table with fallback Internal. */
  lemma SignUpFollowsTable(e: Failure)
    ensures ClassifySignUpError(e) == Decide(SignUpTable, Internal(SIGN_UP_FAILED), e)
  {
    var t := SignUpTable;
    if Matches(t[0], e) {
      DecideFirstMatch(t, Internal(SIGN_UP_FAILED), e, 0);
    } else if Matches(t[1], e) {
      DecideFirstMatch(t, Internal(SIGN_UP_FAILED), e, 1);
    } else {
      DecideFirstMatch(t, Internal(SIGN_UP_FAILED), e, 2);
    }
  }

  /** The sign-in catch block is the sign-in table with fallback Internal. */
  lemma SignInFollowsTable(e: Failure)
    ensures ClassifySignInError(e) == Decide(SignInTable, Internal(SIGN_IN_FAILED), e)
  {
  }

  /**
   In sign-up the provider's field wins: an error carrying 400 in both fields
   is a Conflict, never the raw error.
   */
  lemma SignUpStatusCodeTakesPrecedence(e: Failure)
    requires StrictEquals(e.statusCode, 400) && StrictEquals(e.status, 400)
    ensures ClassifySignUpError(e) == Conflict(CONFLICT_MESSAGE)
    ensures !ClassifySignUpError(e).Rethrow?
  {
  }

  /**
   Sign-in never lets a caught error reach the caller: `status === 404` and
   the provider's 400 both become Internal.
   */
  lemma SignInNeverRethrows(e: Failure)
    ensures !ClassifySignInError(e).Rethrow? && !ClassifySignInError(e).Ok?
    ensures StrictEquals(e.status, 404) && !StrictEquals(e.statusCode, 404) ==>
              ClassifySignInError(e) == Internal(SIGN_IN_FAILED)
    ensures StrictEquals(e.statusCode, 400) ==> ClassifySignInError(e) == Internal(SIGN_IN_FAILED)
  {
  }
}
