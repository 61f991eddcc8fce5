/** The activation service's check on a cached license against the locked transaction behind it. */
module ActivationFlow {
  import opened Common
  import opened Domain
  import Seats = SeatProtocol
  import Repo = ActivationRepo
  import opened LicenseSystem
  import opened LicenseCoherence

  /** The license row as the transaction reads it. */
  predicate SameRow(row: Seats.LicenseRow, l: License) {
    && row.tenant == l.tenant && row.key == l.key && row.status == l.status && row.expiresAt == l.expiresAt
    && row.seatsTotal == l.seatsTotal && !row.deleted
  }

  /** The one instant past expiry that is neither in grace nor past it. */
  predicate GraceEndsNow(l: License, now: Time) {
    l.expiresAt.Some? && l.graceDays > 0 && now == l.expiresAt.value + l.graceDays * DAY
  }

  predicate Admitted(row: License, found: License, now: Time) {
    row.status == Active && !GraceEndsNow(found, now)
  }

  /** All seats are taken, none of them by the client. */
  ghost predicate Full(db: Seats.State, lid: Seats.Id, client: Seats.Id)
    requires lid in db.licenses
  {
    var total := db.licenses[lid].seatsTotal;
    !Seats.HasActive(db.acts, lid, client) && total != Seats.UNLIMITED && Seats.ActiveCount(db, lid) >= total
  }

  lemma CheckedCopy(rows: Table, k: string, found: License, now: Time)
    requires IsCopy(rows, k, found) && MayActivate(found, now)
    ensures rows[k].status != Revoked
    ensures rows[k].expiresAt.Some? && now > rows[k].expiresAt.value <==> GraceEndsNow(found, now)
  {
    var a, b := Core(found), Core(rows[k]);
    assert a.status == b.status && a.expiresAt == b.expiresAt;
    assert found.graceDays > 0 ==> found.graceDays * DAY > 0;
  }

  /**
   When the service checks a license that agrees with its row, the transaction at the same instant finds the
   row. It refuses exactly three things: a status that is neither active nor revoked, which it reports as
   revoked; a license checked in the very instant its grace ends, which the service lets pass; and a client
   without a seat when all seats are taken. Everybody else gets a seat or keeps the one it holds.
   */
  lemma TransactionAfterCheck(rows: Table, k: string, found: License, db: Seats.State, lid: Seats.Id, client: Seats.Id, t: Seats.Id, r: Seats.Outcome)
    requires IsCopy(rows, k, found) && RowOk(rows, k) && MayActivate(found, db.now)
    requires lid in db.licenses && SameRow(db.licenses[lid], rows[k])
    requires Repo.Answered(db, Seats.Request(rows[k].tenant, k, client), t, r)
    ensures r == Seats.Failed(Seats.LicenseRevoked) <==> rows[k].status != Active
    ensures r == Seats.Failed(Seats.LicenseExpired) <==> rows[k].status == Active && GraceEndsNow(found, db.now)
    ensures r == Seats.Failed(Seats.SeatLimitReached) <==> Admitted(rows[k], found, db.now) && Full(db, lid, client)
    ensures !r.Failed? <==> Admitted(rows[k], found, db.now) && !Full(db, lid, client)
  {
    CheckedCopy(rows, k, found, db.now);
    assert Seats.Matches(db.licenses[lid], rows[k].tenant, k);
    assert Repo.AnsweredFor(db, lid, Seats.Request(rows[k].tenant, k, client), t, r);
  }
}
