/** Which plans may run. */
module Gate {
  // The queryset filter that lists them, the guard that explains a refusal, and the conditional
  // update that claims one.  The three are written out separately in the source and agree.

  import opened Options
  import opened Policy

  datatype Status = Pending | Running | Succeeded | Failed
  datatype Approval = Waiting | Approved | Rejected

  datatype Repo = Repo(
    unselected: bool, deleted: bool, orgDeactivated: bool,
    suspended: bool, uninstalled: bool, installationOfOrg: bool)

  datatype PlanRow = PlanRow(
    blocked: bool, approval: Approval, status: Status, tier: string,
    confidence: real, threshold: real, updatedAt: int)

  // Thirty minutes, in seconds.
  const STALE_RUNNING_TIMEOUT := 30 * 60

  predicate IsActive(repo: Repo) {
    && !repo.unselected && !repo.deleted && !repo.orgDeactivated
    && !repo.suspended && !repo.uninstalled && repo.installationOfOrg
  }

  predicate StatusFree(row: PlanRow, now: int) {
    || row.status == Pending || row.status == Failed
    || (row.status == Running && row.updatedAt < now - STALE_RUNNING_TIMEOUT)
  }

  // The tier and autonomy mode combinations of the query; a repository without a policy row
  // matches none of them.
  predicate ModePermits(tier: string, policy: Option<Mode>) {
    || (tier == TIER_1 && policy == Some(Autonomous))
    || (tier == TIER_2 && (policy == Some(Assisted) || policy == Some(Autonomous)))
    || (tier == TIER_3 && (policy == Some(Assisted) || policy == Some(Autonomous)))
  }

  predicate Executable(row: PlanRow, repo: Repo, policy: Option<Mode>, now: int) {
    && !row.blocked && row.approval == Approved
    && row.confidence >= row.threshold
    && IsActive(repo)
    && ModePermits(row.tier, policy)
    && StatusFree(row, now)
  }

  datatype Refusal =
    | PlanBlocked | NotApproved | AlreadyExecuted | AlreadyRunning | TierUnsupported
    | ConfidenceTooLow | RepositoryInactive | AutonomyRefuses(reason: Reason) | NoFileFix

  predicate RequiresDraft(tier: string) {
    tier == TIER_2 || tier == TIER_3
  }

  function AutonomyRefusal(tier: string, mode: Mode): Decision {
    if RequiresDraft(tier) then
      if mode != Conservative then Allowed else Blocked(ConservativeMode)
    else
      match mode
      case Autonomous => Allowed
      case Assisted => Blocked(AssistedMode)
      case Conservative => Blocked(ConservativeMode)
  }

  // The guard: the first reason to refuse, in the order the source checks them.  A missing policy
  // row is created with the conservative default.
  function Guard(row: PlanRow, repo: Repo, policy: Option<Mode>, hasFileFix: bool, now: int): Option<Refusal> {
    var mode := if policy.Some? then policy.value else Conservative;
    if row.blocked then Some(PlanBlocked)
    else if row.approval != Approved then Some(NotApproved)
    else if row.status == Succeeded then Some(AlreadyExecuted)
    else if row.status == Running && row.updatedAt >= now - STALE_RUNNING_TIMEOUT then Some(AlreadyRunning)
    else if !IsTier(row.tier) then Some(TierUnsupported)
    else if row.confidence < row.threshold then Some(ConfidenceTooLow)
    else if !IsActive(repo) then Some(RepositoryInactive)
    else if AutonomyRefusal(row.tier, mode).Blocked? then Some(AutonomyRefuses(AutonomyRefusal(row.tier, mode).reason))
    else if !hasFileFix then Some(NoFileFix)
    else None
  }

  // The guard passes exactly the plans the query lists that also have a file fix.
  lemma {:induction false} GuardAgreesWithQuery(row: PlanRow, repo: Repo, policy: Option<Mode>, hasFileFix: bool,
        now: int)
    ensures Guard(row, repo, policy, hasFileFix, now) == None <==> Executable(row, repo, policy, now) && hasFileFix
  {
    assert TIER_1 != TIER_2 && TIER_1 != TIER_3;
  }

  // The guard's reason is a true one.
  ghost predicate Applies(refusal: Refusal, row: PlanRow, repo: Repo, policy: Option<Mode>, hasFileFix: bool,
        now: int) {
    match refusal
    case PlanBlocked => row.blocked
    case NotApproved => row.approval == Waiting || row.approval == Rejected
    case AlreadyExecuted => row.status == Succeeded
    case AlreadyRunning => row.status == Running && now - row.updatedAt <= 1800
    case TierUnsupported => row.tier !in {"tier_1_autonomous", "tier_2_assisted", "tier_3_advisory"}
    case ConfidenceTooLow => row.confidence < row.threshold
    case RepositoryInactive =>
      repo.unselected || repo.deleted || repo.orgDeactivated || repo.suspended || repo.uninstalled
      || !repo.installationOfOrg
    case AutonomyRefuses(reason) =>
      if policy == Some(Assisted) then reason == AssistedMode && row.tier == "tier_1_autonomous"
      else policy != Some(Autonomous) && reason == ConservativeMode
    case NoFileFix => !hasFileFix
  }

  lemma {:induction false} RefusalApplies(row: PlanRow, repo: Repo, policy: Option<Mode>, hasFileFix: bool, now: int)
    requires Guard(row, repo, policy, hasFileFix, now).Some?
    ensures Applies(Guard(row, repo, policy, hasFileFix, now).value, row, repo, policy, hasFileFix, now)
  {
    assert TIER_1 != TIER_2 && TIER_1 != TIER_3;
  }

  // The stored plan, as the claim changes it.
  class PlanRecord {
    var row: PlanRow

    constructor (row: PlanRow)
      ensures this.row == row
    {
      this.row := row;
    }

    // One conditional update: it takes effect on this row or not at all.
    method Claim(repo: Repo, policy: Option<Mode>, now: int) returns (claimed: bool)
      modifies this
      ensures claimed == Executable(old(row), repo, policy, now)
      ensures row == if claimed then old(row).(status := Running, updatedAt := now) else old(row)
    {
      claimed :=
        && !row.blocked && row.approval == Approved && row.confidence >= row.threshold
        && !repo.unselected && !repo.deleted && !repo.orgDeactivated
        && !repo.suspended && !repo.uninstalled && repo.installationOfOrg
        && ((row.tier == "tier_1_autonomous" && policy == Some(Autonomous))
            || (row.tier == "tier_2_assisted" && policy in {Some(Assisted), Some(Autonomous)})
            || (row.tier == "tier_3_advisory" && policy in {Some(Assisted), Some(Autonomous)}))
        && (row.status in {Pending, Failed} || (row.status == Running && row.updatedAt < now - 1800));
      if claimed {
        row := row.(status := Running, updatedAt := now);
      }
    }
  }

  // A claimed plan cannot be claimed again before the timeout, and can be exactly after it.
  lemma {:induction false} ClaimHoldsUntilTimeout(row: PlanRow, repo: Repo, policy: Option<Mode>, claimedAt: int,
        later: int)
    requires Executable(row, repo, policy, claimedAt)
    ensures Executable(row.(status := Running, updatedAt := claimedAt), repo, policy, later) <==>
              later > claimedAt + STALE_RUNNING_TIMEOUT
  {
  }
}
