/**
 * A respondent as the components see it: the record fields they read, with
 * the answers to the 57 items.
 */
module Users {
  import opened Wrappers
  import opened EvaluationConversion
  import DomainScoring

  /** A record without a yearsOfService field carries None. */
  datatype User = User(
    id: string,
    name: string,
    department: string,
    age: int,
    gender: string,
    location: string,
    yearsOfService: Option<int>,
    responses: DomainScoring.Responses)

  /** EVAL_TABLES is keyed by "male" and "female"; any other tag has no table. */
  function GenderOf(tag: string): (g: Option<Gender>)
    ensures g == Some(Male) <==> tag == "male"
    ensures g == Some(Female) <==> tag == "female"
    ensures g.None? <==> tag != "male" && tag != "female"
  {
    if tag == "male" then Some(Male) else if tag == "female" then Some(Female) else None
  }

  /** The users whose subscale scores can be computed: their gender tag names a table. */
  predicate Scorable(u: User) {
    GenderOf(u.gender).Some?
  }

  predicate AllScorable(users: seq<User>) {
    forall i :: 0 <= i < |users| ==> Scorable(users[i])
  }
}
