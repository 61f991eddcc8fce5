/**
 Tenants: the row with its current and previous key hash, the tenant cache with its two indices, and the
 administrative operations. Operations are serial; the database may refuse any call.
 */
module TenantSystem {
  import opened Common
  import opened Domain
  import opened Lru
  import opened LicenseStore

  datatype Standing = Good | Suspended | Deleted

  datatype Profile = Profile(name: string, system: bool)

  datatype Tenant = Tenant(
    id: string, apiKey: string, oldKey: string, oldUntil: Option<Time>, rps: int, burst: int,
    status: Standing, allowlist: Option<seq<string>>, profile: Profile)
  {
    predicate IsSuspended() {
      status == Suspended || status == Deleted
    }

    /** The current key, or the previous one while its grace lasts. */
    predicate Accepts(hash: string, now: Time) {
      apiKey == hash || (oldKey == hash && oldUntil.Some? && now < oldUntil.value)
    }
  }

  type Table = map<string, Tenant>

  /** Grace is kept in whole seconds, truncated toward zero. */
  function WholeSeconds(d: Time): Time {
    if d >= 0 then d / SECOND * SECOND else -(-d / SECOND * SECOND)
  }

  /** The whole seconds of a duration: the nearest multiple toward zero. */
  lemma WholeSecondsOf(d: Time)
    ensures WholeSeconds(d) % SECOND == 0
    ensures if d >= 0 then d - SECOND < WholeSeconds(d) <= d else d <= WholeSeconds(d) < d + SECOND
    ensures d >= 0 ==> WholeSeconds(d) >= 0
  {
    var n := if d >= 0 then d / SECOND else -(-d / SECOND);
    assert WholeSeconds(d) == n * SECOND;
  }

  function Rotated(t: Tenant, hash: string, grace: Time, now: Time): Tenant {
    t.(oldKey := t.apiKey, oldUntil := Some(now + WholeSeconds(grace)), apiKey := hash)
  }

  /* ---------- the cache ---------- */

  datatype TenantConfig = TenantConfig(cap: nat, ttl: Time, ttlNegative: Time)

  const BY_KEY: string := "by_api_key"

  type Items = seq<Item<Tenant>>

  function NoteMiss(cfg: TenantConfig, l1: Items, ck: string, now: Time): Items {
    if |l1| < cfg.cap * 9 / 10 then Write(l1, cfg.cap, ck, None, cfg.ttlNegative, now) else l1
  }

  function PutTenant(cfg: TenantConfig, l1: Items, id: string, hash: string, t: Tenant, now: Time): Items {
    Write(Write(l1, cfg.cap, CacheKey(id, hash), Some(t), cfg.ttl, now), cfg.cap, CacheKey(BY_KEY, hash), Some(t), cfg.ttl, now)
  }

  function DropTenantKey(l1: Items, id: string, hash: string): Items {
    Remove(Remove(l1, CacheKey(id, hash)), CacheKey(BY_KEY, hash))
  }

  /** The places of a key in the second level. */
  function KeyPlaces(id: string, hash: string): seq<Place> {
    [Place(id, hash), Place(BY_KEY, hash)]
  }

  /**
   A cached tenant that no longer accepts the key is dropped, not answered. What the second level answers is
   never a tenant, so all that matters of it is whether it answers.
   */
  function Authenticate(cfg: TenantConfig, l1: Items, id: string, hash: string, remoteHit: bool, now: Time)
    : (r: (Items, Option<Tenant>))
  {
    var ck := CacheKey(id, hash);
    var (items, local) := Read(l1, ck, now);
    if local.None? then (if remoteHit then items else NoteMiss(cfg, items, ck, now), None)
    else if local.value.payload.None? then (items, None)
    else if !local.value.payload.value.Accepts(hash, now) then (DropTenantKey(items, id, hash), None)
    else (items, local.value.payload)
  }

  /** Whether that look-up drops the entry it finds. */
  predicate Disowns(l1: Items, id: string, hash: string, now: Time) {
    var local := Read(l1, CacheKey(id, hash), now).1;
    local.Some? && local.value.payload.Some? && !local.value.payload.value.Accepts(hash, now)
  }

  function AuthenticateByKey(cfg: TenantConfig, l1: Items, hash: string, remoteHit: bool, now: Time): (r: (Items, Option<Tenant>)) {
    var ck := CacheKey(BY_KEY, hash);
    var (items, local) := Read(l1, ck, now);
    if local.None? then
      (if remoteHit then Write(items, cfg.cap, ck, None, cfg.ttlNegative, now) else NoteMiss(cfg, items, ck, now), None)
    else if local.value.payload.None? || !local.value.payload.value.Accepts(hash, now) then (items, None)
    else (items, local.value.payload)
  }

  /* ---------- the operations ---------- */

  datatype State = State(rows: Table, l1: Items)

  datatype Op =
    | Create(id: string, hash: string, rps: int, burst: int, profile: Profile, dbOk: bool, now: Time)
    | Suspend(id: string, dbOk: bool, againOk: bool)
    | Reinstate(id: string, dbOk: bool)
    | Delete(id: string, dbOk: bool)
    | Rotate(id: string, hash: string, grace: Time, dbOk: bool, now: Time)
    | UpdateLimits(id: string, rps: int, burst: int, dbOk: bool)
    | UpdateAllowlist(id: string, allowlist: Option<seq<string>>, dbOk: bool)
    | UpdateProfile(id: string, profile: Profile, dbOk: bool, findOk: bool, now: Time)
    | Warm(id: string, now: Time)
    | Get(id: string, hash: string, remoteHit: bool, now: Time)
    | GetByKey(hash: string, remoteHit: bool, now: Time)
    | Cleanup(limit: int, now: Time)
    | Lose(ck: string)

  /** An update by id that matches no row changes nothing and is not an error. */
  function SetRow(rows: Table, id: string, f: Tenant -> Tenant): Table {
    if id in rows then rows[id := f(rows[id])] else rows
  }

  function DropAll(l1: Items, id: string): Items {
    RemovePrefix(l1, TenantPrefix(id))
  }

  function Change(s: State, id: string, f: Tenant -> Tenant): State {
    State(SetRow(s.rows, id, f), DropAll(s.l1, id))
  }

  predicate Suspends(s: State, op: Op) {
    (op.Suspend? || op.Delete?) && op.dbOk && op.id in s.rows && !s.rows[op.id].profile.system
  }

  predicate Rotates(s: State, op: Op, id: string) {
    op.Rotate? && op.dbOk && op.id == id && id in s.rows
  }

  predicate Registers(s: State, op: Op) {
    op.Create? && op.rps > 0 && op.burst > 0 && op.dbOk && op.id !in s.rows
  }

  function WarmRow(cfg: TenantConfig, l1: Items, id: string, t: Tenant, now: Time): Items {
    var first := PutTenant(cfg, l1, id, t.apiKey, t, now);
    if t.oldKey != "" then PutTenant(cfg, first, id, t.oldKey, t, now) else first
  }

  function NewTenant(op: Op): Tenant
    requires op.Create?
  {
    Tenant(op.id, op.hash, "", None, op.rps, op.burst, Good, None, op.profile)
  }

  function Exec(cfg: TenantConfig, s: State, op: Op): State {
    match op
    case Create(id, hash, rps, burst, _, dbOk, now) =>
      if !Registers(s, op) then s
      else State(s.rows[id := NewTenant(op)], PutTenant(cfg, s.l1, id, hash, NewTenant(op), now))
    case Suspend(id, dbOk, againOk) =>
      if !Suspends(s, op) then s
      else
        var rows := s.rows[id := s.rows[id].(status := Suspended)];
        State(rows, if againOk then DropTenantKey(DropAll(s.l1, id), id, rows[id].apiKey) else s.l1)
    case Reinstate(id, dbOk) => if dbOk then Change(s, id, (t: Tenant) => t.(status := Good)) else s
    case Delete(id, dbOk) => if Suspends(s, op) then Change(s, id, (t: Tenant) => t.(status := Deleted)) else s
    case Rotate(id, hash, grace, dbOk, now) =>
      if dbOk then Change(s, id, (t: Tenant) => Rotated(t, hash, grace, now)) else s
    case UpdateLimits(id, rps, burst, dbOk) =>
      if rps <= 0 || burst <= 0 || !dbOk then s else Change(s, id, (t: Tenant) => t.(rps := rps, burst := burst))
    case UpdateAllowlist(id, list, dbOk) => if dbOk then Change(s, id, (t: Tenant) => t.(allowlist := list)) else s
    case UpdateProfile(id, profile, dbOk, findOk, now) =>
      if !dbOk then s
      else
        var rows := SetRow(s.rows, id, (t: Tenant) => t.(profile := profile));
        State(rows, if findOk && id in rows then PutTenant(cfg, s.l1, id, rows[id].apiKey, rows[id], now) else s.l1)
    case Warm(id, now) => if id in s.rows then s.(l1 := WarmRow(cfg, s.l1, id, s.rows[id], now)) else s
    case Get(id, hash, remoteHit, now) => s.(l1 := Authenticate(cfg, s.l1, id, hash, remoteHit, now).0)
    case GetByKey(hash, remoteHit, now) => s.(l1 := AuthenticateByKey(cfg, s.l1, hash, remoteHit, now).0)
    case Cleanup(limit, now) => s.(l1 := DropExpired(s.l1, limit, now))
    case Lose(ck) => s.(l1 := Remove(s.l1, ck))
  }

  function Run(cfg: TenantConfig, s: State, ops: seq<Op>): (r: State)
    decreases |ops|
  {
    if ops == [] then s else Exec(cfg, Run(cfg, s, ops[..|ops| - 1]), ops[|ops| - 1])
  }

  /* ---------- the second level ---------- */

  /** The places at which an operation stores a tenant. */
  function PlacesBy(s: State, op: Op): seq<Place> {
    match op
    case Create(id, hash, _, _, _, _, _) => if Registers(s, op) then KeyPlaces(id, hash) else []
    case UpdateProfile(id, _, dbOk, findOk, _) => if dbOk && findOk && id in s.rows then KeyPlaces(id, s.rows[id].apiKey) else []
    case Warm(id, _) =>
      if id !in s.rows then []
      else
        var t := s.rows[id];
        KeyPlaces(id, t.apiKey) + if t.oldKey != "" then KeyPlaces(id, t.oldKey) else []
    case _ => []
  }

  /** The cached entries of the tenant go. */
  predicate Clears(s: State, op: Op) {
    match op
    case Suspend(_, _, againOk) => Suspends(s, op) && againOk
    case Delete(_, _) => Suspends(s, op)
    case Reinstate(_, dbOk) => dbOk
    case Rotate(_, _, _, dbOk, _) => dbOk
    case UpdateLimits(_, rps, burst, dbOk) => rps > 0 && burst > 0 && dbOk
    case UpdateAllowlist(_, _, dbOk) => dbOk
    case _ => false
  }

  function OnSecondLevel(cfg: TenantConfig, s: State, op: Op): Elsewhere {
    if PlacesBy(s, op) != [] then Stores(PlacesBy(s, op), cfg.ttl, op.now)
    else if Clears(s, op) then ForgetsTenant(op.id, if op.Suspend? then KeyPlaces(op.id, s.rows[op.id].apiKey) else [])
    else if op.Get? && Disowns(s.l1, op.id, op.hash, op.now) then Forgets(KeyPlaces(op.id, op.hash))
    else Nothing
  }

  /** The license cache after a tenant operation: a suspension drops the tenant's licenses as well. */
  function OnLicenses(cfg: TenantConfig, s: State, op: Op, st: Store): Store {
    Disturbed(if op.Suspend? && Suspends(s, op) then DropTenant(st, op.id) else st, OnSecondLevel(cfg, s, op))
  }

  /** Generated tenant ids have no colon and are not the name of the key-only index. */
  predicate PlainId(id: string) {
    ColonFree(id) && id != BY_KEY && id != ""
  }

  predicate Plain(op: Op) {
    match op
    case GetByKey(_, _, _) => true
    case Cleanup(_, _) => true
    case Lose(_) => true
    case _ => PlainId(op.id)
  }

  /* ---------- which keys a row accepts ---------- */

  datatype Rotation = Rotation(hash: string, until: Time)

  function RotationBy(s: State, op: Op, id: string): seq<Rotation> {
    if Rotates(s, op, id) then [Rotation(op.hash, op.now + WholeSeconds(op.grace))] else []
  }

  /** The rotations of one tenant in a run, in order. */
  function Rotations(cfg: TenantConfig, s: State, ops: seq<Op>, id: string): (r: seq<Rotation>)
    decreases |ops|
  {
    if ops == [] then []
    else
      var before, op := ops[..|ops| - 1], ops[|ops| - 1];
      Rotations(cfg, s, before, id) + RotationBy(Run(cfg, s, before), op, id)
  }

  /** All keys the tenant has had, oldest first. */
  function Keys(first: string, rs: seq<Rotation>): (r: seq<string>)
    ensures |r| == |rs| + 1
  {
    seq(|rs| + 1, i requires 0 <= i <= |rs| => if i == 0 then first else rs[i - 1].hash)
  }

  predicate AcceptedBy(keys: seq<string>, rs: seq<Rotation>, hash: string, now: Time)
    requires |keys| == |rs| + 1
  {
    || hash == keys[|rs|]
    || (|rs| > 0 && hash == keys[|rs| - 1] && now < rs[|rs| - 1].until)
  }

  /** The row carries the last two keys of its history. */
  predicate CarriesLastTwo(t: Tenant, first: string, rs: seq<Rotation>) {
    var keys := Keys(first, rs);
    && t.apiKey == keys[|rs|]
    && (rs == [] ==> t.oldUntil.None?)
    && (rs != [] ==> t.oldKey == keys[|rs| - 1] && t.oldUntil == Some(rs[|rs| - 1].until))
  }

  predicate SameKeys(t: Tenant, u: Tenant) {
    t.apiKey == u.apiKey && t.oldKey == u.oldKey && t.oldUntil == u.oldUntil
  }

  lemma StepKeys(cfg: TenantConfig, s: State, op: Op, id: string)
    requires id in s.rows
    ensures var rows := Exec(cfg, s, op).rows;
            && id in rows
            && (if Rotates(s, op, id) then rows[id] == Rotated(s.rows[id], op.hash, op.grace, op.now)
                else SameKeys(rows[id], s.rows[id]))
  {
  }

  lemma {:induction false} RunCarriesLastTwo(cfg: TenantConfig, s: State, ops: seq<Op>, id: string)
    requires id in s.rows && s.rows[id].oldUntil.None?
    ensures id in Run(cfg, s, ops).rows
    ensures CarriesLastTwo(Run(cfg, s, ops).rows[id], s.rows[id].apiKey, Rotations(cfg, s, ops, id))
    decreases |ops|
  {
    if ops != [] {
      var before, op := ops[..|ops| - 1], ops[|ops| - 1];
      RunCarriesLastTwo(cfg, s, before, id);
      var mid, rs := Run(cfg, s, before), Rotations(cfg, s, before, id);
      NextCarriesLastTwo(cfg, mid, op, id, s.rows[id].apiKey, rs);
    }
  }

  lemma NextCarriesLastTwo(cfg: TenantConfig, s: State, op: Op, id: string, first: string, rs: seq<Rotation>)
    requires id in s.rows && CarriesLastTwo(s.rows[id], first, rs)
    ensures id in Exec(cfg, s, op).rows
    ensures CarriesLastTwo(Exec(cfg, s, op).rows[id], first, rs + RotationBy(s, op, id))
  {
    StepKeys(cfg, s, op, id);
    if Rotates(s, op, id) {
    } else {
      assert rs + RotationBy(s, op, id) == rs;
    }
  }

  /**
   After any mix of operations the row accepts exactly its current key, and the one before it until that
   rotation's grace ends.
   */
  lemma RowAcceptsLastTwo(cfg: TenantConfig, s: State, ops: seq<Op>, id: string, hash: string, now: Time)
    requires id in s.rows && s.rows[id].oldUntil.None?
    ensures var rs := Rotations(cfg, s, ops, id);
            && id in Run(cfg, s, ops).rows
            && (Run(cfg, s, ops).rows[id].Accepts(hash, now) <==> AcceptedBy(Keys(s.rows[id].apiKey, rs), rs, hash, now))
  {
    RunCarriesLastTwo(cfg, s, ops, id);
  }

  predicate AllDistinct(keys: seq<string>) {
    forall a, b | 0 <= a < b < |keys| :: keys[a] != keys[b]
  }

  /** With distinct hashes, a key two or more rotations old is never accepted again. */
  lemma OlderKeysAreDead(cfg: TenantConfig, s: State, ops: seq<Op>, id: string, i: nat, now: Time)
    requires id in s.rows && s.rows[id].oldUntil.None?
    requires i <= |Rotations(cfg, s, ops, id)| && AllDistinct(Keys(s.rows[id].apiKey, Rotations(cfg, s, ops, id)))
    ensures var rs := Rotations(cfg, s, ops, id);
            && id in Run(cfg, s, ops).rows
            && (Run(cfg, s, ops).rows[id].Accepts(Keys(s.rows[id].apiKey, rs)[i], now) <==>
                  i == |rs| || (i == |rs| - 1 && now < rs[|rs| - 1].until))
  {
    var rs := Rotations(cfg, s, ops, id);
    var keys := Keys(s.rows[id].apiKey, rs);
    RowAcceptsLastTwo(cfg, s, ops, id, keys[i], now);
  }
}
