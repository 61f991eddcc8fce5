/** The verdict of a validation at one clock reading, and the public handler's inline verdict. */
module Validity {
  import opened Common
  import opened Domain

  const CLOCK_SKEW: Time := 5 * MINUTE

  datatype Reason = LicenseRevoked | InvalidProduct | NotActiveYet | LicenseExpired

  datatype Verdict = Valid(inGrace: bool) | Invalid(reason: Reason)

  predicate WrongProduct(lic: License, product: string) {
    product != "" &&
    ((lic.productId.Some? && lic.productId.value != "" && lic.productId.value != product)
     || (lic.product != "" && lic.product != product))
  }

  /** The cascade of the validation service once tenant and license have been found. */
  function Judge(lic: License, product: string, now: Time): Verdict {
    if lic.IsRevoked() then Invalid(LicenseRevoked)
    else if WrongProduct(lic, product) then Invalid(InvalidProduct)
    else if lic.notBefore.Some? && now < lic.notBefore.value - CLOCK_SKEW then Invalid(NotActiveYet)
    else if lic.IsExpired(now) && !lic.IsInGracePeriod(now) then Invalid(LicenseExpired)
    else Valid(lic.IsInGracePeriod(now))
  }

  /** The public handler's own cascade: product before revocation, and no not-before test. */
  function JudgeInline(lic: License, product: string, now: Time): Verdict {
    if WrongProduct(lic, product) then Invalid(InvalidProduct)
    else if lic.IsRevoked() then Invalid(LicenseRevoked)
    else if lic.IsExpired(now) && !lic.IsInGracePeriod(now) then Invalid(LicenseExpired)
    else Valid(lic.IsInGracePeriod(now))
  }

  /** A license for another product: by its product id or, failing that, its older product name. */
  predicate NamesOther(lic: License, product: string) {
    && product != ""
    && ((lic.productId.Some? && lic.productId.value !in {"", product}) || lic.product !in {"", product})
  }

  /** Past its end, which is the end of the grace if there is one. */
  predicate IsOver(lic: License, now: Time) {
    ClosesAt(lic).Some? && ClosesAt(lic).value < now
  }

  /**
   Each verdict by the fields of the license: a revocation comes first, then another product, then the start,
   then the end; a valid license is in grace exactly between its expiry and the instant its grace ends.
   */
  lemma VerdictIff(lic: License, product: string, now: Time)
    ensures var v := Judge(lic, product, now);
            && (v == Invalid(LicenseRevoked) <==> lic.status == Revoked)
            && (v == Invalid(InvalidProduct) <==> lic.status != Revoked && NamesOther(lic, product))
            && (v == Invalid(NotActiveYet) <==>
                  && lic.status != Revoked && !NamesOther(lic, product)
                  && lic.notBefore.Some? && now < lic.notBefore.value - 5 * MINUTE)
            && (v == Invalid(LicenseExpired) <==>
                  && lic.status != Revoked && !NamesOther(lic, product)
                  && Between(OpensAt(lic), now, None) && IsOver(lic, now))
            && (v.Valid? ==> (v.inGrace <==>
                  lic.expiresAt.Some? && lic.expiresAt.value < now < lic.expiresAt.value + lic.graceDays * DAY))
  {
    GraceTimesDay(lic.graceDays);
  }

  /** The public handler's verdicts in the same terms: another product comes before a revocation, the start never counts. */
  lemma InlineVerdictIff(lic: License, product: string, now: Time)
    ensures var v := JudgeInline(lic, product, now);
            && (v == Invalid(InvalidProduct) <==> NamesOther(lic, product))
            && (v == Invalid(LicenseRevoked) <==> lic.status == Revoked && !NamesOther(lic, product))
            && (v == Invalid(LicenseExpired) <==> lic.status != Revoked && !NamesOther(lic, product) && IsOver(lic, now))
            && v != Invalid(NotActiveYet)
  {
    GraceTimesDay(lic.graceDays);
  }

  function Max(a: int, b: int): int {
    if a < b then b else a
  }

  /** First and last instant at which a license is good, where it has one. */
  function OpensAt(lic: License): Option<Time> {
    if lic.notBefore.Some? then Some(lic.notBefore.value - CLOCK_SKEW) else None
  }

  function ClosesAt(lic: License): Option<Time> {
    if lic.expiresAt.Some? then Some(lic.expiresAt.value + Max(0, lic.graceDays) * DAY) else None
  }

  predicate Between(from: Option<Time>, now: Time, to: Option<Time>) {
    (from.Some? ==> from.value <= now) && (to.Some? ==> now <= to.value)
  }

  lemma GraceTimesDay(days: int)
    ensures days > 0 ==> days * DAY > 0
    ensures days <= 0 ==> days * DAY <= 0
    ensures Max(0, days) * DAY == if days > 0 then days * DAY else 0
  {
  }

  /** Expired and in grace never both hold, so the cascade's exemption for grace never fires. */
  lemma NeverExpiredInGrace(lic: License, now: Time)
    ensures !(lic.IsExpired(now) && lic.IsInGracePeriod(now))
  {
    GraceTimesDay(lic.graceDays);
  }

  /** Validity is exactly one closed interval, for a license that is not revoked and fits the product. */
  lemma ValidityIsAnInterval(lic: License, product: string, now: Time)
    requires !lic.IsRevoked() && !WrongProduct(lic, product)
    ensures Judge(lic, product, now).Valid? <==> Between(OpensAt(lic), now, ClosesAt(lic))
    ensures Judge(lic, product, now) == Invalid(NotActiveYet) <==> !Between(OpensAt(lic), now, None)
    ensures Judge(lic, product, now).Valid? && Judge(lic, product, now).inGrace
            ==> lic.expiresAt.Some? && lic.expiresAt.value < now
  {
    GraceTimesDay(lic.graceDays);
  }

  /** The two validators agree on validity exactly where the not-before test does not decide. */
  lemma InlineAgreesIff(lic: License, product: string, now: Time)
    ensures Judge(lic, product, now).Valid? == JudgeInline(lic, product, now).Valid?
       <==> (JudgeInline(lic, product, now).Valid? ==> Between(OpensAt(lic), now, None))
    ensures lic.notBefore.None? && !(lic.IsRevoked() && WrongProduct(lic, product))
            ==> Judge(lic, product, now) == JudgeInline(lic, product, now)
  {
    if !lic.IsRevoked() && !WrongProduct(lic, product) {
      ValidityIsAnInterval(lic, product, now);
    }
  }
}
