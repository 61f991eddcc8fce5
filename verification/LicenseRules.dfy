/** Which licenses may be stored, by their own fields, and what being stored is good for. */
module LicenseRules {
  import opened Common
  import opened Domain
  import opened Features
  import opened Validity
  import opened LicenseSystem

  /* ---------- the rules ---------- */

  predicate HasId(id: Option<string>) {
    id.Some? && |id.value| > 0
  }

  /** A plan license has a plan, no product and no features of its own; a product license the reverse, and no trial. */
  predicate KindFits(l: License) {
    || (l.kind == PlanKind && HasId(l.planId) && !HasId(l.productId) && l.features == [])
    || (l.kind == ProductKind && HasId(l.productId) && !HasId(l.planId) && l.features != [] && !l.trial.enabled)
  }

  /** Features of its own exclude overrides, and a trial has features and an end. */
  predicate WellFormed(l: License) {
    && KindFits(l)
    && (l.features == [] || (l.featuresAdd == [] && l.featuresRemove == []))
    && (l.trial.enabled ==> l.trial.features != [] && l.trial.endsAt.Some?)
  }

  /** Not before its start and not after its expiry. */
  predicate WithinDates(l: License, t: Time) {
    (l.notBefore.Some? ==> l.notBefore.value <= t) && (l.expiresAt.Some? ==> t <= l.expiresAt.value)
  }

  /** The dates leave some instant. */
  ghost predicate DatesMeet(l: License) {
    exists t :: WithinDates(l, t)
  }

  predicate SeatsFit(l: License) {
    l.seatsTotal == -1 || l.seatsUsed <= l.seatsTotal
  }

  /** The start, else the expiry, else any instant. */
  function Middle(l: License): Time {
    if l.notBefore.Some? then l.notBefore.value else if l.expiresAt.Some? then l.expiresAt.value else 0
  }

  lemma DatesMeetAtStart(l: License)
    ensures DatesMeet(l) <==> WithinDates(l, Middle(l))
  {
  }

  /** A license passes the rules exactly when it is well formed, its dates leave an instant and its seats suffice. */
  lemma PassesIff(l: License)
    ensures ValidateHardRules(l).None? <==> WellFormed(l) && DatesMeet(l) && SeatsFit(l)
    ensures WellFormed(l) ==>
              && (ValidateHardRules(l) == Some(NotBeforeAfterExpiry) <==> !DatesMeet(l))
              && (ValidateHardRules(l) == Some(SeatsExceeded) <==> DatesMeet(l) && !SeatsFit(l))
  {
    DatesMeetAtStart(l);
  }

  /** What each refusal says of the license. */
  predicate Breaks(l: License, e: RuleError) {
    match e
    case InvalidType => l.kind == UnknownKind
    case PlanRequired => l.kind == PlanKind && !HasId(l.planId)
    case ProductMustBeNull => l.kind == PlanKind && HasId(l.productId)
    case FeaturesMustBeEmpty => l.kind == PlanKind && l.features != []
    case ProductRequired => l.kind == ProductKind && !HasId(l.productId)
    case PlanMustBeNull => l.kind == ProductKind && HasId(l.planId)
    case FeaturesRequired => l.kind == ProductKind && l.features == []
    case TrialMustBeDisabled => l.kind == ProductKind && l.trial.enabled
    case OverrideConflict => l.features != [] && (l.featuresAdd != [] || l.featuresRemove != [])
    case TrialFeaturesRequired => l.trial.enabled && l.trial.features == []
    case TrialEndRequired => l.trial.enabled && l.trial.endsAt.None?
    case NotBeforeAfterExpiry => !WithinDates(l, Middle(l))
    case SeatsExceeded => !SeatsFit(l)
  }

  /** The order in which the rules are looked at. */
  function Rank(e: RuleError): nat {
    match e
    case InvalidType => 0
    case PlanRequired => 1
    case ProductMustBeNull => 2
    case FeaturesMustBeEmpty => 3
    case ProductRequired => 1
    case PlanMustBeNull => 2
    case FeaturesRequired => 3
    case TrialMustBeDisabled => 4
    case OverrideConflict => 5
    case TrialFeaturesRequired => 6
    case TrialEndRequired => 7
    case NotBeforeAfterExpiry => 8
    case SeatsExceeded => 9
  }

  /** The refusal given is the first rule broken; a license that breaks none is accepted. */
  lemma FirstRuleBroken(l: License, e: RuleError)
    ensures ValidateHardRules(l) == Some(e) <==> Breaks(l, e) && forall d | Rank(d) < Rank(e) :: !Breaks(l, d)
    ensures ValidateHardRules(l).None? ==> !Breaks(l, e)
  {
    var found := ValidateHardRules(l);
    if found.Some? {
      assert Breaks(l, found.value);
      forall d | Rank(d) < Rank(found.value) ensures !Breaks(l, d) {
      }
      if Breaks(l, e) && Rank(e) <= Rank(found.value) {
        assert e == found.value;
      }
    }
  }

  /* ---------- what is stored can be used ---------- */

  /** At some instant the license is judged valid. */
  ghost predicate Usable(l: License) {
    exists t :: Judge(l, "", t).Valid?
  }

  /** A license is usable at all exactly when it is not revoked and opens, skew included, before it closes, grace included. */
  lemma UsableIff(l: License)
    ensures Usable(l) <==>
              && l.status != Revoked
              && (l.notBefore.Some? && l.expiresAt.Some? ==>
                    l.notBefore.value - 5 * MINUTE <= l.expiresAt.value + Max(0, l.graceDays) * DAY)
  {
    if l.status != Revoked {
      var t := if l.expiresAt.Some? then ClosesAt(l).value else if l.notBefore.Some? then OpensAt(l).value else 0;
      ValidityIsAnInterval(l, "", t);
      forall u ensures Judge(l, "", u).Valid? <==> Between(OpensAt(l), u, ClosesAt(l)) {
        ValidityIsAnInterval(l, "", u);
      }
    }
  }

  /** Whatever a create or update accepts is, as saved, usable unless revoked, and has seats for its use. */
  lemma SavedIsUsable(cfg: LicenseSystem.Config, s: Sys, op: Op)
    requires Creates(s, op) || Updates(op)
    ensures op.l.tenant != "" && op.l.key != "" && WellFormed(op.l) && DatesMeet(op.l) && SeatsFit(op.l)
    ensures op.l.status != Revoked ==> Usable(SavedCopy(cfg, s, op)) && Usable(Stored(op.l))
  {
    PassesIff(op.l);
    DatesMeetAtStart(op.l);
    GraceTimesDay(op.l.graceDays);
    UsableIff(SavedCopy(cfg, s, op));
    UsableIff(Stored(op.l));
  }

  /**
   The other way round the rule on dates is stricter than the verdict: it knows neither the skew nor the grace.
   A well-formed license that could be used is refused for its dates exactly when it starts after its expiry.
   */
  lemma RefusedThoughUsableIff(l: License)
    requires WellFormed(l) && Usable(l)
    ensures ValidateHardRules(l) == Some(NotBeforeAfterExpiry) <==>
              l.notBefore.Some? && l.expiresAt.Some? && l.expiresAt.value < l.notBefore.value
  {
    PassesIff(l);
    DatesMeetAtStart(l);
  }

  /** Such a license: it starts a minute after it expires, and with the skew would be valid for the four minutes before. */
  lemma RefusedThoughUsable(l: License)
    requires WellFormed(l) && l.status == Active && l.notBefore == Some(MINUTE) && l.expiresAt == Some(0)
    ensures Usable(l) && ValidateHardRules(l) == Some(NotBeforeAfterExpiry)
  {
    GraceTimesDay(l.graceDays);
    UsableIff(l);
    RefusedThoughUsableIff(l);
  }
}
