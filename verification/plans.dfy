/**
 * The plan tracker: one `user_plan:<userId>` record per user, read with a
 * default of `free` and written only with one of the three plan names.
 */
module Plans {
  import opened Wrappers
  import opened Entities
  import opened Http
  import opened Identity

  datatype PlanName = Free | Pro | Team

  function PlanText(p: PlanName): string {
    match p
    case Free => "free"
    case Pro => "pro"
    case Team => "team"
  }

  /** The plan a string names, if any; the inverse of `PlanText`. */
  function ParsePlan(s: string): (p: Option<PlanName>)
    ensures p.Some? ==> PlanText(p.value) == s
  {
    if s == "free" then Some(Free)
    else if s == "pro" then Some(Pro)
    else if s == "team" then Some(Team)
    else None
  }

  lemma ParsePlanText(p: PlanName)
    ensures ParsePlan(PlanText(p)) == Some(p)
  {
  }

  const DefaultPlan: string := "free"
  const PlanInvalid: string := "Invalid plan"
  const UpdateFailed: string := "Failed to update plan"

  /** `!plan || !['free', 'pro', 'team'].includes(plan)`. */
  predicate PlanRejected(plan: Option<string>) {
    plan.None? || plan.value == "" || plan.value !in ["free", "pro", "team"]
  }

  /**
   * `GET /user-plan`. Never fails and never writes: the stored plan of the
   * authenticated caller when there is a non-empty one, `free` in every other
   * case (no token, a token the provider rejects, no record, empty plan).
   */
  function GetPlan(header: Option<string>, idp: IdentityProvider, store: Store): (h: Handled)
    ensures h.store == store
    ensures h.response.status == StatusOk && h.response.body.PlanBody?
    ensures h.response.body.plan != ""
    ensures h.response.body.plan != DefaultPlan ==>
      && Authenticate(header, idp).Authenticated?
      && var key := PlanKey(Authenticate(header, idp).user.id);
      && key in store && store[key].PlanRecord? && store[key].plan == h.response.body.plan
    ensures Authenticate(header, idp).Authenticated? ==>
      var key := PlanKey(Authenticate(header, idp).user.id);
      key in store && store[key].PlanRecord? && store[key].plan != "" ==> h.response.body.plan == store[key].plan
  {
    match Authenticate(header, idp)
    case Authenticated(user) =>
      var key := PlanKey(user.id);
      var plan := if key in store && store[key].PlanRecord? && store[key].plan != "" then store[key].plan else DefaultPlan;
      Handled(Reply(PlanBody(plan)), store)
    case _ => Handled(Reply(PlanBody(DefaultPlan)), store)
  }

  /**
   * `POST /update-plan`. After the identity gate, the plan must be one of
   * `free`, `pro`, `team`; then `user_plan:<userId>` alone is overwritten,
   * stamped with `now`. A body that is not JSON ends in the catch-all 500.
   */
  function UpdatePlan(header: Option<string>, idp: IdentityProvider, body: Option<Option<string>>, now: nat, store: Store): (h: Handled)
    ensures h.response.status in {StatusOk, StatusBadRequest, StatusUnauthorized, StatusServerError}
    ensures h.response.status == StatusUnauthorized <==> !Authenticate(header, idp).Authenticated?
    ensures h.response.status == StatusServerError <==> Authenticate(header, idp).Authenticated? && body.None?
    ensures h.response.status == StatusOk <==>
      Authenticate(header, idp).Authenticated? && body.Some? && body.value.Some? && ParsePlan(body.value.value).Some?
    ensures h.response.status != StatusOk ==> h.store == store && h.response.body.ErrorBody?
    ensures h.response.status == StatusUnauthorized ==> h.response == Unauthorized(Authenticate(header, idp))
    ensures h.response.status == StatusBadRequest ==> h.response == Fail(StatusBadRequest, PlanInvalid)
    ensures h.response.status == StatusServerError ==> h.response == Fail(StatusServerError, UpdateFailed)
    ensures h.response.status == StatusOk ==>
      var user := Authenticate(header, idp).user;
      && h.response.body == PlanUpdatedBody(body.value.value)
      && h.store == store[PlanKey(user.id) := PlanRecord(body.value.value, user.id, now)]
  {
    match Authenticate(header, idp)
    case Authenticated(user) =>
      if body.None? then Handled(Fail(StatusServerError, UpdateFailed), store)
      else if PlanRejected(body.value) then Handled(Fail(StatusBadRequest, PlanInvalid), store)
      else
        var plan := body.value.value;
        Handled(Reply(PlanUpdatedBody(plan)), store[PlanKey(user.id) := PlanRecord(plan, user.id, now)])
    case other => Handled(Unauthorized(other), store)
  }

  /** After a successful update, the same caller reads back the plan just set. */
  lemma UpdateThenGet(header: Option<string>, idp: IdentityProvider, plan: PlanName, now: nat, store: Store)
    requires Authenticate(header, idp).Authenticated?
    ensures
      var updated := UpdatePlan(header, idp, Some(Some(PlanText(plan))), now, store);
      && updated.response.status == StatusOk
      && GetPlan(header, idp, updated.store).response.body.plan == PlanText(plan)
  {
  }

  /** An update by one user leaves what every other user reads unchanged. */
  lemma UpdateIsolated(header: Option<string>, other: Option<string>, idp: IdentityProvider, body: Option<Option<string>>, now: nat, store: Store)
    requires Authenticate(header, idp).Authenticated? && Authenticate(other, idp).Authenticated?
    requires Authenticate(header, idp).user.id != Authenticate(other, idp).user.id
    ensures GetPlan(other, idp, UpdatePlan(header, idp, body, now, store).store).response == GetPlan(other, idp, store).response
  {
  }
}
