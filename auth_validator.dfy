// The permission decision (src/backend/lib/authValidator.js). The two
// database queries are parameters: the path lookup and the list of rules
// that apply to the user, already in the query's order (rules with a
// `user_id` first).

module AuthValidator {
  import opened Js

  /** A rule row: its `user_id` (NoUser for a rule reached through a role) and the selected action flag. */
  datatype Rule = Rule(userId: UserRef, allowed: bool)

  /** `rule.user_id`, which is null for role rules. */
  datatype UserRef = NoUser | User(id: int)

  /** What a query resolves to, or that it threw. */
  datatype DbAnswer<T> = Answer(value: T) | DbFailure

  /** The index of the first rule whose `user_id` is `userId`. */
  function FirstDirect(rules: seq<Rule>, userId: int): (r: Option<nat>)
    ensures r.Some? ==> r.value < |rules| && rules[r.value].userId == User(userId)
    ensures r.Some? ==> forall j :: 0 <= j < r.value ==> rules[j].userId != User(userId)
    ensures r.None? ==> forall j :: 0 <= j < |rules| ==> rules[j].userId != User(userId)
    decreases |rules|
  {
    if |rules| == 0 then None
    else if rules[0].userId == User(userId) then Some(0)
    else match FirstDirect(rules[1..], userId)
      case Some(i) => Some(i + 1)
      case None => None
  }

  /** The decision over the fetched rules: the first direct rule decides, otherwise any rule that allows. */
  function Permission(rules: seq<Rule>, userId: int): (b: bool)
    ensures FirstDirect(rules, userId).Some? ==> b == rules[FirstDirect(rules, userId).value].allowed
    ensures FirstDirect(rules, userId).None? ==> (b <==> exists j :: 0 <= j < |rules| && rules[j].allowed)
  {
    match FirstDirect(rules, userId)
    case Some(i) => rules[i].allowed
    case None => exists j :: 0 <= j < |rules| && rules[j].allowed
  }

  /** A direct rule that denies wins over any number of role rules that allow. */
  lemma DirectDenialWins(rules: seq<Rule>, userId: int, i: nat)
    requires i < |rules| && rules[i] == Rule(User(userId), false)
    requires forall j :: 0 <= j < i ==> rules[j].userId != User(userId)
    ensures !Permission(rules, userId)
  {
  }

  /**
   * `checkPermission(userId, path, action, field)`: false when the path is
   * unknown or a query throws; otherwise the rule loop, then `some`.
   */
  method CheckPermission(userId: int, pathRecord: DbAnswer<Option<int>>, rules: DbAnswer<seq<Rule>>) returns (allowed: bool)
    ensures pathRecord.DbFailure? || (pathRecord.Answer? && pathRecord.value.None?) ==> !allowed
    ensures pathRecord.Answer? && pathRecord.value.Some? && rules.DbFailure? ==> !allowed
    ensures pathRecord.Answer? && pathRecord.value.Some? && rules.Answer? ==> allowed == Permission(rules.value, userId)
  {
    if pathRecord.DbFailure? || pathRecord.value.None? {
      return false;
    }
    if rules.DbFailure? {
      return false;
    }
    var rs := rules.value;
    var i := 0;
    while i < |rs|
      invariant 0 <= i <= |rs|
      invariant forall j :: 0 <= j < i ==> rs[j].userId != User(userId)
    {
      if rs[i].userId == User(userId) {
        return rs[i].allowed;
      }
      i := i + 1;
    }
    allowed := exists j :: 0 <= j < |rs| && rs[j].allowed;
  }
}
