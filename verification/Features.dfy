/** Which features a license ends up with: plan or product features, trial, overrides. */
module Features {
  import opened Common
  import opened Domain

  datatype RuleError =
    | InvalidType | PlanRequired | ProductMustBeNull | FeaturesMustBeEmpty | ProductRequired | PlanMustBeNull
    | FeaturesRequired | TrialMustBeDisabled | OverrideConflict | TrialFeaturesRequired | TrialEndRequired
    | NotBeforeAfterExpiry | SeatsExceeded

  predicate Named(id: Option<string>) {
    id.Some? && id.value != ""
  }

  function KindRules(l: License): Option<RuleError> {
    match l.kind
    case UnknownKind => Some(InvalidType)
    case PlanKind =>
      if !Named(l.planId) then Some(PlanRequired)
      else if Named(l.productId) then Some(ProductMustBeNull)
      else if |l.features| > 0 then Some(FeaturesMustBeEmpty)
      else None
    case ProductKind =>
      if !Named(l.productId) then Some(ProductRequired)
      else if Named(l.planId) then Some(PlanMustBeNull)
      else if |l.features| == 0 then Some(FeaturesRequired)
      else if l.trial.enabled then Some(TrialMustBeDisabled)
      else None
  }

  function ValidateHardRules(l: License): Option<RuleError> {
    if KindRules(l).Some? then KindRules(l)
    else if |l.features| > 0 && (|l.featuresAdd| > 0 || |l.featuresRemove| > 0) then Some(OverrideConflict)
    else if l.trial.enabled && |l.trial.features| == 0 then Some(TrialFeaturesRequired)
    else if l.trial.enabled && l.trial.endsAt.None? then Some(TrialEndRequired)
    else if l.notBefore.Some? && l.expiresAt.Some? && l.notBefore.value > l.expiresAt.value then Some(NotBeforeAfterExpiry)
    else if l.seatsTotal != -1 && l.seatsUsed > l.seatsTotal then Some(SeatsExceeded)
    else None
  }

  predicate TrialActive(l: License, now: Time) {
    l.trial.enabled && l.trial.endsAt.Some? && now < l.trial.endsAt.value
  }

  function Elems(s: seq<string>): set<string> {
    set f | f in s
  }

  predicate NoDuplicates(s: seq<string>) {
    forall i, j | 0 <= i < j < |s| :: s[i] != s[j]
  }

  /** The list names each member of the set exactly once, in some order. */
  predicate Lists(out: seq<string>, s: set<string>) {
    NoDuplicates(out) && Elems(out) == s
  }

  function Base(l: License, plan: Option<Plan>, now: Time): seq<string> {
    var base := (if l.kind == PlanKind && plan.Some? then plan.value.features else [])
                + (if l.kind == ProductKind then l.features else []);
    if TrialActive(l, now) && |l.trial.features| > 0 then l.trial.features else base
  }

  /** A full override is taken as it stands; otherwise overrides are applied to the base as sets. */
  predicate IsFinal(l: License, plan: Option<Plan>, now: Time, out: seq<string>) {
    if |l.features| > 0 then out == l.features
    else Lists(out, Elems(Base(l, plan, now)) + Elems(l.featuresAdd) - {""} - Elems(l.featuresRemove))
  }

  method ResolveFinalFeatures(l: License, plan: Option<Plan>, now: Time) returns (out: seq<string>)
    ensures IsFinal(l, plan, now, out)
  {
    var base: seq<string> := [];
    if l.kind == PlanKind && plan.Some? {
      base := base + plan.value.features;
    }
    if l.kind == ProductKind {
      base := base + l.features;
    }
    if l.trial.enabled && l.trial.endsAt.Some? && now < l.trial.endsAt.value {
      if |l.trial.features| > 0 {
        base := l.trial.features;
      }
    }
    assert base == Base(l, plan, now);
    if |l.features| > 0 {
      return l.features;
    }
    var members := AddAll({}, base);
    members := AddAll(members, l.featuresAdd);
    ghost var added := members;
    for i := 0 to |l.featuresRemove|
      invariant members == added - Elems(l.featuresRemove[..i])
    {
      assert l.featuresRemove[..i + 1] == l.featuresRemove[..i] + [l.featuresRemove[i]];
      members := members - {l.featuresRemove[i]};
    }
    assert l.featuresRemove[..|l.featuresRemove|] == l.featuresRemove;
    out := [];
    ghost var all := members;
    while members != {}
      invariant NoDuplicates(out) && Elems(out) !! members && Elems(out) + members == all
      decreases members
    {
      var f :| f in members;
      assert f !in Elems(out);
      out := out + [f];
      members := members - {f};
    }
    assert Elems(out) == all;
  }

  /** Collects the non-empty names of a list into a set. */
  method AddAll(start: set<string>, names: seq<string>) returns (all: set<string>)
    ensures all == start + (Elems(names) - {""})
  {
    all := start;
    for i := 0 to |names|
      invariant all == start + (Elems(names[..i]) - {""})
    {
      assert names[..i + 1] == names[..i] + [names[i]];
      if names[i] != "" {
        all := all + {names[i]};
      }
    }
    assert names[..|names|] == names;
  }

  /** What a license that passes the rules resolves to, in both kinds. */
  lemma ResolvedFeatures(l: License, plan: Option<Plan>, now: Time, out: seq<string>)
    requires ValidateHardRules(l).None? && IsFinal(l, plan, now, out)
    ensures var trying := l.trial.enabled && l.trial.endsAt.Some? && now < l.trial.endsAt.value;
            && (l.kind == PlanKind && plan.Some? ==>
                  NoDuplicates(out) && "" !in out &&
                  forall f :: f in out <==>
                    f != "" && f !in l.featuresRemove &&
                    (f in l.featuresAdd || f in (if trying then l.trial.features else plan.value.features)))
            && (l.kind == ProductKind ==> out == l.features && !trying)
    ensures l.kind != UnknownKind && Named(l.planId) != Named(l.productId)
  {
    if l.kind == PlanKind && plan.Some? {
      var from := if TrialActive(l, now) then l.trial.features else plan.value.features;
      assert Base(l, plan, now) == from;
      forall f ensures f in out <==> f in Elems(out) {
      }
    }
  }
}
