/**
 The license cache: a bounded in-memory level, an optional second level, two indices (by tenant and key, and
 by key alone in the first level only). The second level is one for all caches of the server: tenants, plans
 and products are filed there too. It never fails here but may lose entries.
 */
module LicenseStore {
  import opened Common
  import opened Domain
  import opened Lru

  const PREFIX: string := "go-license-api:"

  function TenantPrefix(tenant: string): string {
    PREFIX + tenant + ":"
  }

  function CacheKey(tenant: string, key: string): string {
    TenantPrefix(tenant) + key
  }

  function GlobalKey(key: string): string {
    "gk:" + key
  }

  datatype Config = Config(cap: nat, ttlL1: Time, ttlL2: Time, ttlActive: Time, ttlNegative: Time)

  /**
   The second level as it reads back. Its reader decodes whatever it finds as a license first, which succeeds
   for every payload, so what another cache has stored reads back as the blank license.
   */
  type Remote = map<string, Entry<License>>

  datatype Store = Store(l1: seq<Item<License>>, l2: Option<Remote>)

  /** Division of durations truncates toward zero. */
  function Half(d: Time): Time {
    if d >= 0 then d / 2 else -(-d / 2)
  }

  predicate NeedsRefresh(e: Entry<License>, ttlActive: Time, now: Time) {
    e.expiresAt.None? || e.expiresAt.value - now < Half(ttlActive)
  }

  function RemoteGet(l2: Option<Remote>, ck: string, now: Time): Option<Entry<License>> {
    if l2.Some? && ck in l2.value && !IsExpired(l2.value[ck], now) then Some(l2.value[ck]) else None
  }

  function RemoteSet(l2: Option<Remote>, ck: string, lic: License, ttl: Time, now: Time): Option<Remote> {
    if l2.Some? then Some(l2.value[ck := Entry(Some(lic), Some(now + ttl))]) else None
  }

  function RemoteDelete(l2: Option<Remote>, ck: string): Option<Remote> {
    if l2.Some? then Some(l2.value - {ck}) else None
  }

  function RemoteDeleteAll(l2: Option<Remote>, prefix: string): Option<Remote> {
    if l2.Some? then Some(map ck | ck in l2.value && !HasPrefix(ck, prefix) :: l2.value[ck]) else None
  }

  /* ---------- the other caches on the second level ---------- */

  datatype Payload = OfLicense(lic: License) | OfTenant | OfPlan | OfProduct

  /** What the reader makes of a payload. */
  function Decoded(p: Payload): License {
    if p.OfLicense? then p.lic else BLANK
  }

  /** Where an entry of the second level is filed. */
  datatype Place = Place(tenant: string, key: string)

  function KeyAt(p: Place): string {
    CacheKey(p.tenant, p.key)
  }

  /** What another cache does to the second level. */
  datatype Elsewhere =
    | Nothing
    | Stores(places: seq<Place>, ttl: Time, now: Time)
    | Forgets(places: seq<Place>)
    | ForgetsTenant(tenant: string, also: seq<Place>)

  function RemoteStore(l2: Option<Remote>, places: seq<Place>, ttl: Time, now: Time): Option<Remote> {
    if l2.Some? then Some(l2.value + map p | p in places :: KeyAt(p) := Entry(Some(BLANK), Some(now + ttl))) else None
  }

  function RemoteForget(l2: Option<Remote>, places: seq<Place>): Option<Remote> {
    if l2.Some? && places != [] then Some(l2.value - set p | p in places :: KeyAt(p)) else l2
  }

  function Disturb(l2: Option<Remote>, e: Elsewhere): Option<Remote> {
    match e
    case Nothing => l2
    case Stores(places, ttl, now) => RemoteStore(l2, places, ttl, now)
    case Forgets(places) => RemoteForget(l2, places)
    case ForgetsTenant(tenant, also) => RemoteForget(RemoteDeleteAll(l2, TenantPrefix(tenant)), also)
  }

  function Disturbed(st: Store, e: Elsewhere): Store {
    st.(l2 := Disturb(st.l2, e))
  }

  predicate RemoteHit(st: Store, p: Place, now: Time) {
    RemoteGet(st.l2, KeyAt(p), now).Some?
  }

  /** A miss is remembered only while the first level is less than nine tenths full. */
  function NoteMiss(cfg: Config, l1: seq<Item<License>>, ck: string, now: Time): seq<Item<License>> {
    if |l1| < cfg.cap * 9 / 10 then Write(l1, cfg.cap, ck, None, cfg.ttlNegative, now) else l1
  }

  function LocalHit(cfg: Config, l1: seq<Item<License>>, ck: string, e: Entry<License>, now: Time): seq<Item<License>> {
    if e.payload.Some? && NeedsRefresh(e, cfg.ttlActive, now)
    then Write(l1, cfg.cap, ck, e.payload, cfg.ttlActive, now) else l1
  }

  function Backfill(cfg: Config, l1: seq<Item<License>>, ck: string, e: Entry<License>, now: Time): seq<Item<License>> {
    Write(l1, cfg.cap, ck, e.payload, if e.payload.Some? then cfg.ttlL1 else cfg.ttlNegative, now)
  }

  function Fetch(cfg: Config, st: Store, tenant: string, key: string, now: Time): (r: (Store, Option<License>)) {
    var ck := CacheKey(tenant, key);
    var (l1, local) := Read(st.l1, ck, now);
    var remote := RemoteGet(st.l2, ck, now);
    if local.Some? then (st.(l1 := LocalHit(cfg, l1, ck, local.value, now)), local.value.payload)
    else if remote.Some? then (st.(l1 := Backfill(cfg, l1, ck, remote.value, now)), remote.value.payload)
    else (st.(l1 := NoteMiss(cfg, l1, ck, now)), None)
  }

  function FetchGlobal(cfg: Config, st: Store, key: string, now: Time): (r: (Store, Option<License>)) {
    var ck := GlobalKey(key);
    var (l1, local) := Read(st.l1, ck, now);
    if local.Some? then (st.(l1 := l1), local.value.payload)
    else (st.(l1 := NoteMiss(cfg, l1, ck, now)), None)
  }

  function Put(cfg: Config, st: Store, tenant: string, key: string, lic: License, now: Time): (r: Store) {
    var ck := CacheKey(tenant, key);
    var l1 := Write(st.l1, cfg.cap, ck, Some(lic), cfg.ttlL1, now);
    Store(Write(l1, cfg.cap, GlobalKey(key), Some(lic), cfg.ttlL1, now), RemoteSet(st.l2, ck, lic, cfg.ttlL2, now))
  }

  function Drop(st: Store, tenant: string, key: string): (r: Store) {
    var ck := CacheKey(tenant, key);
    Store(Remove(Remove(st.l1, ck), GlobalKey(key)), RemoteDelete(st.l2, ck))
  }

  function DropTenant(st: Store, tenant: string): (r: Store) {
    Store(RemovePrefix(st.l1, TenantPrefix(tenant)), RemoteDeleteAll(st.l2, TenantPrefix(tenant)))
  }

  /** Whether warm-up writes this row: active, and nothing live (not even a negative entry) in the first level. */
  predicate Warms(st: Store, lic: License, now: Time) {
    lic.status == Active && Read(st.l1, CacheKey(lic.tenant, lic.key), now).1.None?
  }

  function WarmOne(cfg: Config, st: Store, lic: License, now: Time): (r: Store) {
    if lic.status != Active then st
    else
      var st' := st.(l1 := Read(st.l1, CacheKey(lic.tenant, lic.key), now).0);
      if Warms(st, lic, now) then Put(cfg, st', lic.tenant, lic.key, lic, now) else st'
  }

  /* ---------- key strings ---------- */

  predicate ColonFree(s: string) {
    ':' !in s
  }

  /** For colon-free tenants the canonical key determines both parts, and the prefix determines the tenant. */
  lemma CacheKeyInjective(t1: string, k1: string, t2: string, k2: string)
    requires ColonFree(t1) && ColonFree(t2)
    ensures CacheKey(t1, k1) == CacheKey(t2, k2) <==> t1 == t2 && k1 == k2
    ensures HasPrefix(CacheKey(t1, k1), TenantPrefix(t2)) <==> t1 == t2
  {
    var c := CacheKey(t1, k1);
    var p := TenantPrefix(t2);
    var n := |PREFIX|;
    if |t1| < |t2| {
      assert c[n + |t1|] == ':' && p[n + |t1|] == t2[|t1|] && t2[|t1|] in t2;
    } else if |t2| < |t1| {
      assert p[n + |t2|] == ':' && c[n + |t2|] == t1[|t2|] && t1[|t2|] in t1;
    } else {
      assert t1 == c[n..n + |t1|] && t2 == p[n..n + |t2|];
    }
    assert p <= CacheKey(t2, k2);
    assert p <= c ==> t1 == t2;
    assert k1 == c[n + |t1| + 1..] && k2 == CacheKey(t2, k2)[n + |t2| + 1..];
    assert t1 == t2 ==> c[..|p|] == p;
  }

  /** The key-only index lives outside the canonical name space. */
  lemma GlobalApart(key: string, other: string)
    ensures !HasPrefix(GlobalKey(key), PREFIX)
    ensures GlobalKey(key) != CacheKey(other, key)
    ensures !HasPrefix(GlobalKey(key), TenantPrefix(other))
    ensures GlobalKey(key) == GlobalKey(other) <==> key == other
  {
    assert GlobalKey(key)[1] == 'k' && PREFIX[1] == 'o';
    assert CacheKey(other, key)[1] == 'o' && TenantPrefix(other)[1] == 'o';
    assert key == GlobalKey(key)[3..] && other == GlobalKey(other)[3..];
  }

  /** Without the restriction two tenants can share an entry. */
  lemma ColonsCollide()
    ensures CacheKey("a", "b:c") == CacheKey("a:b", "c")
  {
    assert CacheKey("a", "b:c") == PREFIX + "a:b:c" == CacheKey("a:b", "c");
  }

  /* ---------- what a store may answer ---------- */

  /** Some level maps the key to this license, live or not. */
  ghost predicate Holds(st: Store, ck: string, lic: License) {
    || (exists it | it in st.l1 :: it.key == ck && it.entry.payload == Some(lic))
    || (st.l2.Some? && ck in st.l2.value && st.l2.value[ck].payload == Some(lic))
  }

  ghost predicate StoreOk(cfg: Config, st: Store) {
    && cfg.cap > 0 && Ok(st.l1, cfg.cap)
    && (st.l2.Some? ==> forall ck | ck in st.l2.value :: HasPrefix(ck, PREFIX))
  }

  lemma RemoteIsScoped(cfg: Config, st: Store, tenant: string, key: string)
    requires StoreOk(cfg, st)
    ensures st.l2.Some? ==> GlobalKey(key) !in st.l2.value
    ensures HasPrefix(CacheKey(tenant, key), PREFIX)
  {
    GlobalApart(key, tenant);
    assert CacheKey(tenant, key)[..|PREFIX|] == PREFIX;
  }

  /** Another cache adds nothing but blank licenses, and those only where it stores. */
  lemma DisturbOk(cfg: Config, st: Store, e: Elsewhere)
    requires StoreOk(cfg, st)
    ensures StoreOk(cfg, Disturbed(st, e))
    ensures forall c, v :: Holds(Disturbed(st, e), c, v) ==>
              || Holds(st, c, v)
              || (st.l2.Some? && e.Stores? && v == BLANK && exists p | p in e.places :: c == KeyAt(p))
    ensures st.l2.Some? && e.Stores? ==> forall p | p in e.places :: Holds(Disturbed(st, e), KeyAt(p), BLANK)
  {
    forall p: Place ensures HasPrefix(KeyAt(p), PREFIX) {
      assert KeyAt(p)[..|PREFIX|] == PREFIX;
    }
  }

  lemma FetchOk(cfg: Config, st: Store, tenant: string, key: string, now: Time)
    requires StoreOk(cfg, st)
    ensures var r := Fetch(cfg, st, tenant, key, now);
            && StoreOk(cfg, r.0)
            && (forall c, v :: Holds(r.0, c, v) ==> Holds(st, c, v))
            && (r.1.Some? ==> Holds(st, CacheKey(tenant, key), r.1.value))
  {
    var ck := CacheKey(tenant, key);
    ReadOk(st.l1, cfg.cap, ck, now);
    var l1 := Read(st.l1, ck, now).0;
    var local := Read(st.l1, ck, now).1;
    var remote := RemoteGet(st.l2, ck, now);
    if local.Some? {
      WriteOk(l1, cfg.cap, ck, local.value.payload, cfg.ttlActive, now);
    } else if remote.Some? {
      WriteOk(l1, cfg.cap, ck, remote.value.payload, if remote.value.payload.Some? then cfg.ttlL1 else cfg.ttlNegative, now);
    } else {
      WriteOk(l1, cfg.cap, ck, None, cfg.ttlNegative, now);
    }
  }

  lemma FetchGlobalOk(cfg: Config, st: Store, key: string, now: Time)
    requires StoreOk(cfg, st)
    ensures var r := FetchGlobal(cfg, st, key, now);
            && StoreOk(cfg, r.0)
            && (forall c, v :: Holds(r.0, c, v) ==> Holds(st, c, v))
            && (r.1.Some? ==> Holds(st, GlobalKey(key), r.1.value))
  {
    var ck := GlobalKey(key);
    ReadOk(st.l1, cfg.cap, ck, now);
    WriteOk(Read(st.l1, ck, now).0, cfg.cap, ck, None, cfg.ttlNegative, now);
  }

  lemma PutOk(cfg: Config, st: Store, tenant: string, key: string, lic: License, now: Time)
    requires StoreOk(cfg, st)
    ensures var r := Put(cfg, st, tenant, key, lic, now);
            && StoreOk(cfg, r)
            && (forall c, v :: Holds(r, c, v) ==>
                  if c == CacheKey(tenant, key) || c == GlobalKey(key) then v == lic else Holds(st, c, v))
  {
    var ck := CacheKey(tenant, key);
    GlobalApart(key, tenant);
    RemoteIsScoped(cfg, st, tenant, key);
    WriteOk(st.l1, cfg.cap, ck, Some(lic), cfg.ttlL1, now);
    var l1 := Write(st.l1, cfg.cap, ck, Some(lic), cfg.ttlL1, now);
    WriteOk(l1, cfg.cap, GlobalKey(key), Some(lic), cfg.ttlL1, now);
  }

  lemma DropOk(cfg: Config, st: Store, tenant: string, key: string)
    requires StoreOk(cfg, st)
    ensures var r := Drop(st, tenant, key);
            && StoreOk(cfg, r)
            && (forall c, v :: Holds(r, c, v) <==> Holds(st, c, v) && c != CacheKey(tenant, key) && c != GlobalKey(key))
  {
    var ck := CacheKey(tenant, key);
    GlobalApart(key, tenant);
    RemoteIsScoped(cfg, st, tenant, key);
    RemoveOk(st.l1, cfg.cap, ck);
    RemoveOk(Remove(st.l1, ck), cfg.cap, GlobalKey(key));
  }

  /** Invalidating a tenant drops exactly what is filed under that tenant; the key-only index stays. */
  lemma DropTenantOk(cfg: Config, st: Store, tenant: string)
    requires StoreOk(cfg, st)
    ensures var r := DropTenant(st, tenant);
            && StoreOk(cfg, r)
            && (forall c, v :: Holds(r, c, v) <==> Holds(st, c, v) && !HasPrefix(c, TenantPrefix(tenant)))
  {
    RemovePrefixOk(st.l1, cfg.cap, TenantPrefix(tenant));
  }

  /* ---------- what was just written is visible ---------- */

  lemma PutVisible(cfg: Config, st: Store, tenant: string, key: string, lic: License, now: Time)
    requires StoreOk(cfg, st)
    ensures var l1 := Put(cfg, st, tenant, key, lic, now).l1;
            var e := Entry(Some(lic), Expiry(cfg.ttlL1, now));
            && Item(GlobalKey(key), e) in l1
            && (cfg.cap >= 2 ==> Item(CacheKey(tenant, key), e) in l1)
  {
    var ck := CacheKey(tenant, key);
    var e := Entry(Some(lic), Expiry(cfg.ttlL1, now));
    GlobalApart(key, tenant);
    WriteIsNewest(st.l1, cfg.cap, ck, Some(lic), cfg.ttlL1, now);
    var l1 := Write(st.l1, cfg.cap, ck, Some(lic), cfg.ttlL1, now);
    WriteIsNewest(l1, cfg.cap, GlobalKey(key), Some(lic), cfg.ttlL1, now);
    if cfg.cap >= 2 {
      WriteKeepsNewest(l1, cfg.cap, GlobalKey(key), Some(lic), cfg.ttlL1, now);
    }
  }

  /** Some level holds this license at the place, not past its expiry. */
  ghost predicate LiveSomewhere(l1: seq<Item<License>>, l2: Option<Remote>, c: string, lic: License, now: Time) {
    || (exists it | it in l1 :: it.key == c && it.entry.payload == Some(lic) && (it.entry.expiresAt.None? || now <= it.entry.expiresAt.value))
    || (l2.Some? && c in l2.value && l2.value[c].payload == Some(lic) && (l2.value[c].expiresAt.None? || now <= l2.value[c].expiresAt.value))
  }

  /** No look-up answers what has expired: by key alone only the first level answers. */
  lemma AnswersAreLive(cfg: Config, st: Store, tenant: string, key: string, lic: License, now: Time)
    requires StoreOk(cfg, st)
    ensures Fetch(cfg, st, tenant, key, now).1 == Some(lic) ==> LiveSomewhere(st.l1, st.l2, CacheKey(tenant, key), lic, now)
    ensures FetchGlobal(cfg, st, key, now).1 == Some(lic) ==> LiveSomewhere(st.l1, None, GlobalKey(key), lic, now)
  {
    ReadOk(st.l1, cfg.cap, CacheKey(tenant, key), now);
    ReadOk(st.l1, cfg.cap, GlobalKey(key), now);
  }

  /** Until it expires, what was written last is what both look-ups answer. */
  lemma PutThenFetch(cfg: Config, st: Store, tenant: string, key: string, lic: License, now: Time, later: Time)
    requires StoreOk(cfg, st) && cfg.cap >= 2
    requires cfg.ttlL1 <= 0 || later <= now + cfg.ttlL1
    ensures var st' := Put(cfg, st, tenant, key, lic, now);
            Fetch(cfg, st', tenant, key, later).1 == Some(lic) && FetchGlobal(cfg, st', key, later).1 == Some(lic)
  {
    var st' := Put(cfg, st, tenant, key, lic, now);
    var e := Entry(Some(lic), Expiry(cfg.ttlL1, now));
    PutVisible(cfg, st, tenant, key, lic, now);
    PutOk(cfg, st, tenant, key, lic, now);
    LookupInDistinct(st'.l1, Item(CacheKey(tenant, key), e));
    LookupInDistinct(st'.l1, Item(GlobalKey(key), e));
  }

  lemma ReadKeepsOthers(items: seq<Item<License>>, cap: nat, key: string, now: Time)
    requires Ok(items, cap)
    ensures var r := Read(items, key, now);
            && (forall it | it in items && it.key != key :: it in r.0)
            && (r.1.Some? ==> Item(key, r.1.value) in r.0)
            && (r.1.None? ==> forall it | it in r.0 :: it.key != key)
  {
    RemoveOk(items, cap, key);
  }

  /** A hit keeps the license hot: it stays for at least half the active time to live after each read. */
  lemma HitStaysHot(cfg: Config, st: Store, tenant: string, key: string, now: Time, later: Time)
    requires StoreOk(cfg, st) && later <= now + Half(cfg.ttlActive)
    requires var e := Read(st.l1, CacheKey(tenant, key), now).1; e.Some? && e.value.payload.Some?
    ensures var (st', found) := Fetch(cfg, st, tenant, key, now);
            found.Some? && Fetch(cfg, st', tenant, key, later).1 == found
  {
    var ck := CacheKey(tenant, key);
    ReadOk(st.l1, cfg.cap, ck, now);
    ReadKeepsOthers(st.l1, cfg.cap, ck, now);
    var l1, e := Read(st.l1, ck, now).0, Read(st.l1, ck, now).1.value;
    var l1' := LocalHit(cfg, l1, ck, e, now);
    if NeedsRefresh(e, cfg.ttlActive, now) {
      WriteOk(l1, cfg.cap, ck, e.payload, cfg.ttlActive, now);
    } else {
      LookupInDistinct(l1, Item(ck, e));
    }
    assert Lookup(l1', ck).Some? && Lookup(l1', ck).value.payload == e.payload;
    assert !IsExpired(Lookup(l1', ck).value, later);
  }

  /** Remembering a miss never pushes out another entry. */
  lemma MissEvictsNothing(cfg: Config, st: Store, tenant: string, key: string, now: Time)
    requires StoreOk(cfg, st) && Read(st.l1, CacheKey(tenant, key), now).1.None? && RemoteGet(st.l2, CacheKey(tenant, key), now).None?
    ensures forall it | it in st.l1 && it.key != CacheKey(tenant, key) :: it in Fetch(cfg, st, tenant, key, now).0.l1
  {
    var ck := CacheKey(tenant, key);
    ReadOk(st.l1, cfg.cap, ck, now);
    ReadKeepsOthers(st.l1, cfg.cap, ck, now);
    var l1 := Read(st.l1, ck, now).0;
    if |l1| < cfg.cap * 9 / 10 {
      WriteWithRoom(l1, cfg.cap, ck, None, cfg.ttlNegative, now);
    }
  }

  /** With room left a miss is remembered for its time to live; without, it leaves no trace. */
  lemma MissIsRemembered(cfg: Config, st: Store, tenant: string, key: string, now: Time, later: Time)
    requires StoreOk(cfg, st) && Read(st.l1, CacheKey(tenant, key), now).1.None? && RemoteGet(st.l2, CacheKey(tenant, key), now).None?
    requires cfg.ttlNegative <= 0 || later <= now + cfg.ttlNegative
    ensures var kept, l1 := Read(st.l1, CacheKey(tenant, key), now).0, Fetch(cfg, st, tenant, key, now).0.l1;
            if |kept| < cfg.cap * 9 / 10
            then var e := Read(l1, CacheKey(tenant, key), later).1; e.Some? && e.value.payload.None?
            else l1 == kept
  {
    ReadOk(st.l1, cfg.cap, CacheKey(tenant, key), now);
    WriteOk(Read(st.l1, CacheKey(tenant, key), now).0, cfg.cap, CacheKey(tenant, key), None, cfg.ttlNegative, now);
  }

  /** What the second level answered, the first answers from then on by itself, whatever becomes of the second. */
  lemma HitIsBackfilled(cfg: Config, st: Store, tenant: string, key: string, now: Time, l2: Option<Remote>, later: Time)
    requires StoreOk(cfg, st) && Read(st.l1, CacheKey(tenant, key), now).1.None? && RemoteGet(st.l2, CacheKey(tenant, key), now).Some?
    requires var ttl := if RemoteGet(st.l2, CacheKey(tenant, key), now).value.payload.Some? then cfg.ttlL1 else cfg.ttlNegative;
             ttl <= 0 || later <= now + ttl
    ensures var (st', found) := Fetch(cfg, st, tenant, key, now);
            found == st.l2.value[CacheKey(tenant, key)].payload && Fetch(cfg, st'.(l2 := l2), tenant, key, later).1 == found
  {
    var ck := CacheKey(tenant, key);
    var e := RemoteGet(st.l2, ck, now).value;
    ReadOk(st.l1, cfg.cap, ck, now);
    WriteOk(Read(st.l1, ck, now).0, cfg.cap, ck, e.payload, if e.payload.Some? then cfg.ttlL1 else cfg.ttlNegative, now);
  }

  /** Warm-up makes an active row answerable if nothing live was cached for it, and otherwise leaves what there is. */
  lemma WarmedIsAnswered(cfg: Config, st: Store, lic: License, now: Time, later: Time)
    requires StoreOk(cfg, st) && cfg.cap >= 2 && (cfg.ttlL1 <= 0 || later <= now + cfg.ttlL1)
    ensures var (kept, hot) := Read(st.l1, CacheKey(lic.tenant, lic.key), now);
            var st' := WarmOne(cfg, st, lic, now);
            && (lic.status != Active ==> st' == st)
            && (lic.status == Active && hot.Some? ==> st' == st.(l1 := kept))
            && (lic.status == Active && hot.None? ==>
                  Fetch(cfg, st', lic.tenant, lic.key, later).1 == Some(lic) && FetchGlobal(cfg, st', lic.key, later).1 == Some(lic))
  {
    ReadOk(st.l1, cfg.cap, CacheKey(lic.tenant, lic.key), now);
    PutThenFetch(cfg, st.(l1 := Read(st.l1, CacheKey(lic.tenant, lic.key), now).0), lic.tenant, lic.key, lic, now, later);
  }

  lemma WarmOneOk(cfg: Config, st: Store, lic: License, now: Time)
    requires StoreOk(cfg, st)
    ensures var r := WarmOne(cfg, st, lic, now);
            && StoreOk(cfg, r)
            && (forall c, v :: Holds(r, c, v) ==>
                  || Holds(st, c, v)
                  || (lic.status == Active && v == lic && (c == CacheKey(lic.tenant, lic.key) || c == GlobalKey(lic.key))))
  {
    var ck := CacheKey(lic.tenant, lic.key);
    ReadOk(st.l1, cfg.cap, ck, now);
    PutOk(cfg, st.(l1 := Read(st.l1, ck, now).0), lic.tenant, lic.key, lic, now);
  }

  function WarmAll(cfg: Config, st: Store, rows: seq<License>, now: Time): (r: Store)
    decreases |rows|
  {
    if rows == [] then st
    else WarmOne(cfg, WarmAll(cfg, st, rows[..|rows| - 1], now), rows[|rows| - 1], now)
  }

  /* ---------- the store as an object ---------- */

  /** The second level, held by every cache of the server or by none. */
  class L2Cache {
    var data: Remote

    constructor ()
      ensures data == map[]
    {
      data := map[];
    }

    method Get(ck: string, now: Time) returns (e: Option<Entry<License>>)
      ensures e == RemoteGet(Some(data), ck, now)
    {
      if ck !in data || IsExpired(data[ck], now) {
        return None;
      }
      return Some(data[ck]);
    }

    /** Whatever kind of payload is written, a license is what will be read. */
    method Set(ck: string, p: Payload, ttl: Time, now: Time)
      modifies this
      ensures Some(data) == RemoteSet(Some(old(data)), ck, Decoded(p), ttl, now)
    {
      data := data[ck := Entry(Some(Decoded(p)), Some(now + ttl))];
    }

    method Invalidate(ck: string)
      modifies this
      ensures Some(data) == RemoteDelete(Some(old(data)), ck)
    {
      data := data - {ck};
    }

    method InvalidateAll(prefix: string)
      modifies this
      ensures Some(data) == RemoteDeleteAll(Some(old(data)), prefix)
    {
      data := map ck | ck in data && !HasPrefix(ck, prefix) :: data[ck];
    }
  }

  ghost function DataOf(l2: L2Cache?): Option<Remote>
    reads l2
  {
    if l2 == null then None else Some(l2.data)
  }

  /** Another cache writes its entry at a place, where there is a second level. */
  method StoreElsewhere(l2: L2Cache?, place: Place, p: Payload, ttl: Time, now: Time)
    requires !p.OfLicense?
    modifies l2
    ensures DataOf(l2) == Disturb(old(DataOf(l2)), Stores([place], ttl, now))
  {
    if l2 != null {
      l2.Set(KeyAt(place), p, ttl, now);
      assert l2.data == old(l2.data) + map q | q in [place] :: KeyAt(q) := Entry(Some(BLANK), Some(now + ttl));
    }
  }

  method ForgetElsewhere(l2: L2Cache?, place: Place)
    modifies l2
    ensures DataOf(l2) == Disturb(old(DataOf(l2)), Forgets([place]))
  {
    if l2 != null {
      l2.Invalidate(KeyAt(place));
      assert {KeyAt(place)} == set q | q in [place] :: KeyAt(q);
    }
  }

  class LicenseCache {
    const cfg: Config
    const l1: L1Cache<License>
    const l2: L2Cache?

    ghost predicate Valid()
      reads this, l1, l2
    {
      l1.Valid() && l1.maxEntries == cfg.cap && StoreOk(cfg, State())
    }

    ghost function State(): Store
      reads this, l1, l2
    {
      Store(l1.items, DataOf(l2))
    }

    constructor (cfg: Config, l1: L1Cache<License>, l2: L2Cache?)
      requires l1.Valid() && l1.maxEntries == cfg.cap && StoreOk(cfg, Store(l1.items, DataOf(l2)))
      ensures Valid() && this.cfg == cfg && this.l1 == l1 && this.l2 == l2 && State() == old(Store(l1.items, DataOf(l2)))
    {
      this.cfg := cfg;
      this.l1 := l1;
      this.l2 := l2;
    }

    method Get(tenant: string, key: string, now: Time) returns (found: Option<License>)
      requires Valid()
      modifies l1
      ensures Valid() && (State(), found) == Fetch(cfg, old(State()), tenant, key, now)
    {
      FetchOk(cfg, State(), tenant, key, now);
      var ck := CacheKey(tenant, key);
      var entry := l1.Get(ck, now);
      if entry.Some? {
        if entry.value.payload.None? {
          return None;
        }
        if entry.value.expiresAt.None? || entry.value.expiresAt.value - now < Half(cfg.ttlActive) {
          l1.Set(ck, entry.value.payload, cfg.ttlActive, now);
        }
        return entry.value.payload;
      }
      var remote: Option<Entry<License>> := None;
      if l2 != null {
        remote := l2.Get(ck, now);
      }
      if remote.Some? {
        if remote.value.payload.None? {
          l1.Set(ck, None, cfg.ttlNegative, now);
          return None;
        }
        l1.Set(ck, remote.value.payload, cfg.ttlL1, now);
        return remote.value.payload;
      }
      if |l1.items| < l1.maxEntries * 9 / 10 {
        l1.Set(ck, None, cfg.ttlNegative, now);
      }
      return None;
    }

    method Set(tenant: string, key: string, lic: License, now: Time)
      requires Valid()
      modifies l1, l2
      ensures Valid() && State() == Put(cfg, old(State()), tenant, key, lic, now)
    {
      PutOk(cfg, State(), tenant, key, lic, now);
      var ck := CacheKey(tenant, key);
      l1.Set(ck, Some(lic), cfg.ttlL1, now);
      l1.Set(GlobalKey(key), Some(lic), cfg.ttlL1, now);
      if l2 != null {
        l2.Set(ck, OfLicense(lic), cfg.ttlL2, now);
      }
    }

    method Invalidate(tenant: string, key: string)
      requires Valid()
      modifies l1, l2
      ensures Valid() && State() == Drop(old(State()), tenant, key)
    {
      DropOk(cfg, State(), tenant, key);
      var ck := CacheKey(tenant, key);
      l1.Invalidate(ck);
      l1.Invalidate(GlobalKey(key));
      if l2 != null {
        l2.Invalidate(ck);
      }
    }

    method InvalidateTenant(tenant: string)
      requires Valid()
      modifies l1, l2
      ensures Valid() && State() == DropTenant(old(State()), tenant)
    {
      DropTenantOk(cfg, State(), tenant);
      l1.InvalidateAll(TenantPrefix(tenant));
      if l2 != null {
        l2.InvalidateAll(TenantPrefix(tenant));
      }
    }

    method WarmUp(rows: seq<License>, now: Time)
      requires Valid()
      modifies l1, l2
      ensures Valid() && State() == WarmAll(cfg, old(State()), rows, now)
    {
      for i := 0 to |rows|
        invariant Valid() && State() == WarmAll(cfg, old(State()), rows[..i], now)
      {
        assert rows[..i + 1][..i] == rows[..i];
        var lic := rows[i];
        WarmOneOk(cfg, State(), lic, now);
        if lic.status != Active {
          continue;
        }
        ReadOk(l1.items, cfg.cap, CacheKey(lic.tenant, lic.key), now);
        var hot := l1.Get(CacheKey(lic.tenant, lic.key), now);
        if hot.Some? {
          continue;
        }
        Set(lic.tenant, lic.key, lic, now);
      }
      assert rows[..|rows|] == rows;
    }

    method GetByGlobalKey(key: string, now: Time) returns (found: Option<License>)
      requires Valid()
      modifies l1
      ensures Valid() && (State(), found) == FetchGlobal(cfg, old(State()), key, now)
    {
      FetchGlobalOk(cfg, State(), key, now);
      var ck := GlobalKey(key);
      var entry := l1.Get(ck, now);
      if entry.Some? {
        return entry.value.payload;
      }
      if |l1.items| < l1.maxEntries * 9 / 10 {
        l1.Set(ck, None, cfg.ttlNegative, now);
      }
      return None;
    }
  }
}
