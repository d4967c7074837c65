/**
 * The subscription checks of lib/user.ts: `getPriceId`, which normalises a failed
 * lookup, a missing or inactive user and an empty price id to null, and
 * `hasReachedUploadLimit`, which compares the day's quiz count with the plan's limit.
 * The database reads are inputs: what the query returned, or that it threw.
 */
module User {
  import opened Wrappers
  import opened Plans

  /** The outcome of an awaited database call. */
  datatype Fetched<T> = Fetched(value: T) | Failed

  /** The fields of a user row the checks look at. */
  datatype UserRow = UserRow(status: string, priceId: Option<string>)

  const ProLimit: nat := 1000
  const DefaultLimit: nat := 5

  /**
   * `getPriceId`: the price id of the user when the query succeeds and finds an active user
   * with a non-empty price id; null (None) in every other case.
   */
  function GetPriceId(lookup: Fetched<Option<UserRow>>): (r: Option<string>)
    ensures r.Some? <==> lookup.Fetched? && lookup.value.Some? && lookup.value.value.status == "active"
                         && lookup.value.value.priceId.Some? && lookup.value.value.priceId.value != ""
    ensures r.Some? ==> r == lookup.value.value.priceId && r.value != ""
  {
    match lookup
    case Failed => None
    case Fetched(None) => None
    case Fetched(Some(user)) =>
      if user.status != "active" then None
      else if user.priceId.Some? && user.priceId.value != "" then user.priceId
      else None
  }

  /** `isPro ? 1000 : 5`. */
  function UploadLimit(priceId: Option<string>): (limit: nat)
    ensures limit == ProLimit || limit == DefaultLimit
  {
    if IsPro(priceId) then ProLimit else DefaultLimit
  }

  /**
   * `hasReachedUploadLimit`: `count` is today's quiz count query, `lookup` the user query
   * that `getPriceId` makes. A failing count query counts as the limit reached.
   */
  function HasReachedUploadLimit(count: Fetched<nat>, lookup: Fetched<Option<UserRow>>): (reached: bool)
    ensures count.Failed? ==> reached
  {
    match count
    case Failed => true
    case Fetched(n) => n >= UploadLimit(GetPriceId(lookup))
  }

  /** The limit is 1000 exactly for the pro price id, and 5 for the basic, null or an unknown id. */
  lemma UploadLimitByPlan(priceId: Option<string>)
    ensures UploadLimit(priceId) == ProLimit <==> priceId == Some(ProPriceId)
    ensures priceId != Some(ProPriceId) ==> UploadLimit(priceId) == DefaultLimit
  {
  }

  /** A count exactly at the limit is already blocked: reached iff count >= limit. */
  lemma ReachedIffAtLimit(n: nat, lookup: Fetched<Option<UserRow>>)
    ensures HasReachedUploadLimit(Fetched(n), lookup)
        <==> n >= (if GetPriceId(lookup) == Some(ProPriceId) then ProLimit else DefaultLimit)
  {
    UploadLimitByPlan(GetPriceId(lookup));
  }

  /** Once reached at some count, the limit stays reached at every larger count. */
  lemma ReachedMonotone(n: nat, m: nat, lookup: Fetched<Option<UserRow>>)
    requires n <= m
    requires HasReachedUploadLimit(Fetched(n), lookup)
    ensures HasReachedUploadLimit(Fetched(m), lookup)
  {
  }

  /** At the same count, a pro user who has reached the limit means every user has. */
  lemma ProReachedImpliesBasicReached(n: nat, pro: Fetched<Option<UserRow>>, other: Fetched<Option<UserRow>>)
    requires GetPriceId(pro) == Some(ProPriceId)
    requires HasReachedUploadLimit(Fetched(n), pro)
    ensures HasReachedUploadLimit(Fetched(n), other)
  {
    UploadLimitByPlan(GetPriceId(pro));
  }

  /** Without an active subscription (failed lookup, no user, inactive, no price id) the limit is 5. */
  lemma NoSubscriptionGetsDefaultLimit(lookup: Fetched<Option<UserRow>>)
    requires lookup.Failed? || lookup.value.None? || lookup.value.value.status != "active"
             || lookup.value.value.priceId.None? || lookup.value.value.priceId == Some("")
    ensures GetPriceId(lookup) == None
    ensures forall n: nat :: HasReachedUploadLimit(Fetched(n), lookup) <==> n >= DefaultLimit
  {
    UploadLimitByPlan(None);
  }

  /** An active user on the pro price id may create up to 999 quizzes a day and is blocked at 1000. */
  lemma ActiveProSubscriber(n: nat)
    ensures var lookup := Fetched(Some(UserRow("active", Some(ProPriceId))));
            HasReachedUploadLimit(Fetched(n), lookup) <==> n >= 1000
  {
    UploadLimitByPlan(Some(ProPriceId));
  }
}
