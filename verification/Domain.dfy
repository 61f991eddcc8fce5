/** Licenses, tenants and plans as the domain package defines them. Every clock reading is a parameter. */
module Domain {
  import opened Common

  type Time = int // nanoseconds

  const SECOND: Time := 1_000_000_000
  const MINUTE: Time := 60 * SECOND
  const DAY: Time := 24 * 60 * MINUTE

  /** `Unset` is the status of a license that was decoded from something else. */
  datatype Status = Active | Expired | Revoked | Unset

  datatype Kind = PlanKind | ProductKind | UnknownKind

  datatype Trial = Trial(enabled: bool, endsAt: Option<Time>, features: seq<string>)

  datatype License = License(
    id: string, tenant: string, kind: Kind, planId: Option<string>, productId: Option<string>,
    key: string, status: Status, notBefore: Option<Time>, expiresAt: Option<Time>,
    seatsTotal: int, seatsUsed: int, features: seq<string>, featuresAdd: seq<string>,
    featuresRemove: seq<string>, trial: Trial, finalFeatures: seq<string>, graceDays: int, product: string)
  {
    predicate IsRevoked() {
      status == Revoked
    }

    /** Past expiry and past the grace period, if there is one. */
    predicate IsExpired(now: Time) {
      expiresAt.Some? &&
      now > expiresAt.value + if graceDays > 0 then graceDays * DAY else 0
    }

    predicate IsInGracePeriod(now: Time) {
      expiresAt.Some? && now > expiresAt.value && now < expiresAt.value + graceDays * DAY
    }
  }

  /** A license with every field at its zero value. */
  const BLANK: License :=
    License("", "", UnknownKind, None, None, "", Unset, None, None, 0, 0, [], [], [], Trial(false, None, []), [], 0, "")

  datatype Plan = Plan(id: string, tenant: string, productId: Option<string>, name: string, features: seq<string>,
                       seats: int, active: bool)
}
