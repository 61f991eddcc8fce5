/** The audit trail: batching of queued entries, retries, and the multi-row insert statement. */
module Audit {
  import opened Common
  import opened Domain

  /** `meta` is the encoded metadata, absent when it cannot be encoded. */
  datatype AuditEntry = AuditEntry(
    id: string, tenant: string, actor: string, ip: string, event: string, resource: string, outcome: string,
    meta: Option<string>, createdAt: Option<Time>)

  const BATCH_SIZE: nat := 100

  /* ---------- the batching loop ---------- */

  /** What the loop's select yields: an entry (possibly nil), the timer, or the end of queue or context. */
  datatype Event = Received(entry: Option<AuditEntry>) | TimerFired | Stopped

  type Batch = seq<AuditEntry>

  /** What one event adds to what is to be written. */
  function Kept(ev: Event, hasWriter: bool): Batch {
    if hasWriter && ev.Received? && ev.entry.Some? then [ev.entry.value] else []
  }

  /** The non-nil entries dequeued so far, in order. */
  function Dequeued(events: seq<Event>, hasWriter: bool): (r: Batch)
    decreases |events|
  {
    if events == [] then [] else Dequeued(events[..|events| - 1], hasWriter) + Kept(events[|events| - 1], hasWriter)
  }

  function Flatten(batches: seq<Batch>): (r: Batch)
    decreases |batches|
  {
    if batches == [] then [] else Flatten(batches[..|batches| - 1]) + batches[|batches| - 1]
  }

  predicate GoodBatches(batches: seq<Batch>) {
    forall i | 0 <= i < |batches| :: 1 <= |batches[i]| <= BATCH_SIZE
  }

  /** Everything taken over so far: what was handed to the writer, then what is pending. */
  function TakenOver(batches: seq<Batch>, pending: Batch): Batch {
    Flatten(batches) + pending
  }

  lemma DequeuedSnoc(events: seq<Event>, n: nat, hasWriter: bool)
    requires n < |events|
    ensures Dequeued(events[..n + 1], hasWriter) == Dequeued(events[..n], hasWriter) + Kept(events[n], hasWriter)
  {
    assert events[..n + 1][..n] == events[..n];
  }

  /** `places` names, in increasing order, the events that brought the entries of `batch`. */
  ghost predicate Brought(events: seq<Event>, places: seq<nat>, batch: Batch) {
    && |places| == |batch|
    && (forall k | 0 <= k < |places| :: places[k] < |events| && events[places[k]] == Received(Some(batch[k])))
    && (forall j, k | 0 <= j < k < |places| :: places[j] < places[k])
  }

  /** Given a writer, every entry received is taken over exactly once and in order; without one, none is. */
  lemma {:induction false} EachEntryOnce(events: seq<Event>, hasWriter: bool) returns (places: seq<nat>)
    ensures Brought(events, places, Dequeued(events, hasWriter))
    ensures forall i | 0 <= i < |events| && events[i].Received? && events[i].entry.Some? :: i in places <==> hasWriter
    decreases |events|
  {
    places := [];
    if events != [] {
      var n := |events| - 1;
      places := EachEntryOnce(events[..n], hasWriter);
      assert forall i | 0 <= i < n :: events[..n][i] == events[i];
      assert forall p | p in places :: p < n;
      if hasWriter && events[n].Received? && events[n].entry.Some? {
        places := places + [n];
      }
    }
  }

  /**
   The worker loop over what its select yields: `seen` events were consumed, `batches` handed to the writer,
   `pending` not yet. Nothing dequeued is lost, duplicated or reordered, and nothing is pending on return.
   */
  method RunLoop(events: seq<Event>, hasWriter: bool) returns (batches: seq<Batch>, pending: Batch, seen: nat, returned: bool)
    ensures seen <= |events|
    ensures TakenOver(batches, pending) == Dequeued(events[..seen], hasWriter)
    ensures GoodBatches(batches) && |pending| < BATCH_SIZE
    ensures Running(events, seen - 1)
    ensures if returned then pending == [] && seen > 0 && events[seen - 1].Stopped? else seen == |events| && Running(events, seen)
  {
    batches, pending, seen, returned := [], [], 0, false;
    while seen < |events| && !returned
      invariant seen <= |events| && Running(events, seen - 1)
      invariant if returned then pending == [] && seen > 0 && events[seen - 1].Stopped? else Running(events, seen)
      invariant TakenOver(batches, pending) == Dequeued(events[..seen], hasWriter)
      invariant GoodBatches(batches) && |pending| < BATCH_SIZE
    {
      DequeuedSnoc(events, seen, hasWriter);
      batches, pending := Handle(events[seen], hasWriter, batches, pending);
      returned := events[seen].Stopped?;
      seen := seen + 1;
    }
  }

  /** One turn of the loop. */
  method Handle(ev: Event, hasWriter: bool, batches: seq<Batch>, pending: Batch) returns (r: seq<Batch>, left: Batch)
    requires GoodBatches(batches) && |pending| < BATCH_SIZE
    ensures GoodBatches(r) && |left| < BATCH_SIZE
    ensures TakenOver(r, left) == TakenOver(batches, pending) + Kept(ev, hasWriter)
    ensures !ev.Received? ==> left == []
  {
    r, left := batches, pending;
    if !ev.Received? {
      r := Flush(batches, pending);
      left := [];
    } else if ev.entry.Some? && hasWriter {
      Assoc(Flatten(batches), pending, [ev.entry.value]);
      left := pending + [ev.entry.value];
      if |left| >= BATCH_SIZE {
        r := Flush(batches, left);
        left := [];
      }
    }
  }

  /** No stop among the first `n` events. */
  predicate Running(events: seq<Event>, n: int) {
    forall i | 0 <= i < n && i < |events| :: !events[i].Stopped?
  }

  /** Hands the pending entries over; an empty batch is not written. */
  method Flush(batches: seq<Batch>, pending: Batch) returns (r: seq<Batch>)
    requires GoodBatches(batches) && |pending| <= BATCH_SIZE
    ensures GoodBatches(r) && TakenOver(r, []) == TakenOver(batches, pending)
  {
    if |pending| == 0 {
      return batches;
    }
    r := batches + [pending];
    assert r[..|batches|] == batches;
    EmptyConcat(Flatten(r));
  }

  /* ---------- retries ---------- */

  /**
   Attempt `i` succeeds iff `succeeds(i)`; `cancelled(i)` says whether the wait after it was cut short. The
   loop stops at the first success and otherwise only for one of the listed reasons.
   */
  method WriteBatchWithRetry(entries: Batch, maxRetries: nat, retryDelay: Time, succeeds: nat -> bool, cancelled: nat -> bool)
    returns (attempts: nat, written: bool)
    ensures entries == [] <==> attempts == 0
    ensures attempts <= maxRetries + 1 && (retryDelay <= 0 ==> attempts <= 1)
    ensures forall i | 0 <= i < attempts - 1 :: !succeeds(i) && !cancelled(i)
    ensures attempts > 0 ==> written == succeeds(attempts - 1)
    ensures attempts > 0 && !written ==> attempts == maxRetries + 1 || retryDelay <= 0 || cancelled(attempts - 1)
  {
    attempts, written := 0, false;
    if |entries| == 0 {
      return;
    }
    while attempts <= maxRetries
      invariant attempts <= maxRetries && !written
      invariant attempts > 0 ==> retryDelay > 0
      invariant forall i | 0 <= i < attempts :: !succeeds(i) && !cancelled(i)
      decreases maxRetries - attempts
    {
      var ok := succeeds(attempts);
      attempts := attempts + 1;
      if ok {
        return attempts, true;
      }
      if attempts - 1 == maxRetries || retryDelay <= 0 {
        return attempts, false;
      }
      if cancelled(attempts - 1) {
        return attempts, false;
      }
    }
  }

  /* ---------- the statement ---------- */

  function DigitChar(d: nat): char
    requires d < 10
  {
    ['0', '1', '2', '3', '4', '5', '6', '7', '8', '9'][d]
  }

  predicate IsDigit(c: char) {
    '0' <= c <= '9'
  }

  /** Decimal notation. */
  function Itoa(n: nat): (r: string) {
    if n < 10 then [DigitChar(n)] else Itoa(n / 10) + [DigitChar(n % 10)]
  }

  /** How a server reads a statement: a dollar sign and the digits after it are a parameter number. */
  function Scan(text: string): (r: seq<nat>)
    decreases |text|
  {
    if text == [] then []
    else if text[0] == '$' then
      var n := DigitRun(text[1..]);
      [Value(text[1..][..n])] + Scan(text[1..][n..])
    else Scan(text[1..])
  }

  function DigitRun(text: string): (n: nat)
    ensures n <= |text| && (forall i | 0 <= i < n :: IsDigit(text[i]))
    decreases |text|
  {
    if text == [] || !IsDigit(text[0]) then 0 else 1 + DigitRun(text[1..])
  }

  function Value(digits: string): (r: nat)
    requires forall i | 0 <= i < |digits| :: IsDigit(digits[i])
    decreases |digits|
  {
    if digits == [] then 0
    else
      var last := digits[|digits| - 1];
      assert IsDigit(last);
      10 * Value(digits[..|digits| - 1]) + (last as int - '0' as int)
  }

  predicate AllDigits(s: string) {
    forall i | 0 <= i < |s| :: IsDigit(s[i])
  }

  lemma {:induction false} ItoaRoundTrip(n: nat)
    ensures AllDigits(Itoa(n)) && |Itoa(n)| > 0 && Value(Itoa(n)) == n
    decreases n
  {
    if n >= 10 {
      ItoaRoundTrip(n / 10);
      var s := Itoa(n);
      assert s[..|s| - 1] == Itoa(n / 10);
    } else {
      assert Itoa(n)[..0] == "";
    }
  }

  predicate Breaks(rest: string) {
    rest == [] || !IsDigit(rest[0])
  }

  lemma {:induction false} DigitRunAppend(digits: string, rest: string)
    requires AllDigits(digits) && Breaks(rest)
    ensures DigitRun(digits + rest) == |digits|
    decreases |digits|
  {
    if digits == [] {
      assert digits + rest == rest;
    } else {
      assert (digits + rest)[1..] == digits[1..] + rest;
      DigitRunAppend(digits[1..], rest);
    }
  }

  /** The text is read as these numbers wherever it stands, as long as no digit follows it. */
  ghost predicate Reads(text: string, nums: seq<nat>) {
    forall rest | Breaks(rest) :: Scan(text + rest) == nums + Scan(rest)
  }

  /** What comes next does not continue a number. */
  predicate Starts(text: string) {
    |text| > 0 && !IsDigit(text[0])
  }

  lemma ScanMark(digits: string, rest: string)
    requires AllDigits(digits) && Breaks(rest)
    ensures Scan("$" + (digits + rest)) == [Value(digits)] + Scan(rest)
  {
    var tail := digits + rest;
    var text := "$" + tail;
    DigitRunAppend(digits, rest);
    assert text[0] == '$' && text[1..] == tail;
    assert tail[..|digits|] == digits && tail[|digits|..] == rest;
  }

  lemma ReadsDigits(digits: string)
    requires AllDigits(digits)
    ensures Reads("$" + digits, [Value(digits)])
  {
    forall rest | Breaks(rest) ensures Scan("$" + digits + rest) == [Value(digits)] + Scan(rest) {
      ScanMark(digits, rest);
      Assoc("$", digits, rest);
    }
  }

  lemma ReadsPlain(plain: string)
    requires '$' !in plain
    ensures Reads(plain, [])
  {
    forall rest | Breaks(rest) ensures Scan(plain + rest) == [] + Scan(rest) {
      ScanPlain(plain, rest);
      EmptyConcat(Scan(rest));
    }
  }

  lemma ReadsConcat(a: string, x: seq<nat>, b: string, y: seq<nat>)
    requires Reads(a, x) && Reads(b, y) && (Starts(b) || b == [])
    ensures Reads(a + b, x + y)
  {
    forall rest | Breaks(rest) ensures Scan((a + b) + rest) == (x + y) + Scan(rest) {
      Assoc(a, b, rest);
      Assoc(x, y, Scan(rest));
      EmptyConcat(rest);
      assert Breaks(b + rest);
    }
  }

  lemma {:induction false} ScanPlain(plain: string, rest: string)
    requires '$' !in plain
    ensures Scan(plain + rest) == Scan(rest)
    decreases |plain|
  {
    if plain == [] {
      assert plain + rest == rest;
    } else {
      assert (plain + rest)[1..] == plain[1..] + rest;
      ScanPlain(plain[1..], rest);
    }
  }

  const HEAD: string := "INSERT INTO audit_log ("
  const VALUES: string := ") VALUES "

  /** The columns of the table in the order of the statement. */
  const NAMES: seq<string> := ["id", "tenant_id", "actor_id", "actor_ip", "event", "resource_id", "outcome", "meta", "created_at"]

  /** Names written one after the other, with a comma between. */
  function Listed(names: seq<string>): string {
    if names == [] then "" else if |names| == 1 then names[0] else names[0] + ", " + Listed(names[1..])
  }

  function Header(): string {
    HEAD + Listed(NAMES) + VALUES
  }

  lemma {:induction false} ListIsPlain(names: seq<string>)
    requires forall i | 0 <= i < |names| :: '$' !in names[i]
    ensures '$' !in Listed(names)
    decreases |names|
  {
    if |names| > 1 {
      ListIsPlain(names[1..]);
    }
  }

  lemma HeaderIsPlain()
    ensures '$' !in Header()
  {
    NamesArePlain();
    ListIsPlain(NAMES);
    FrameIsPlain();
  }

  lemma FrameIsPlain()
    ensures '$' !in HEAD && '$' !in VALUES
  {
  }

  lemma NamesArePlain()
    ensures forall i | 0 <= i < |NAMES| :: '$' !in NAMES[i]
  {
    ShortNamesPlain();
    assert '$' !in "actor_id" && '$' !in "actor_ip";
    assert '$' !in "resource_id" && '$' !in "created_at";
  }

  lemma ShortNamesPlain()
    ensures '$' !in "id" && '$' !in "tenant_id" && '$' !in "event" && '$' !in "outcome" && '$' !in "meta"
  {
  }

  const COLUMN_COUNT: nat := 9

  /** The first `k` marks of a group. */
  function Marks(from: nat, k: nat): (r: string) {
    if k == 0 then "" else Marks(from, k - 1) + Mark(k, from + k - 1)
  }

  function Lead(k: nat): string {
    if k == 1 then "(" else ","
  }

  function Comma(n: nat): string {
    if n == 1 then "" else ","
  }

  /** The groups of `n` rows, nine marks each. */
  function Groups(n: nat): (r: string) {
    if n == 0 then "" else Groups(n - 1) + Group(n)
  }

  function Group(n: nat): string
    requires n > 0
  {
    Comma(n) + (Marks(9 * (n - 1) + 1, COLUMN_COUNT) + ")")
  }

  function Upto(a: nat, k: nat): (r: seq<nat>)
    ensures |r| == k
  {
    seq(k, i requires 0 <= i < k => a + i)
  }

  lemma UptoSplit(a: nat, j: nat, k: nat)
    ensures Upto(a, j) + Upto(a + j, k) == Upto(a, j + k)
  {
  }

  function Mark(k: nat, n: nat): string {
    Lead(k) + ("$" + Itoa(n))
  }

  lemma ReadsMark(k: nat, n: nat)
    ensures Reads(Mark(k, n), [n]) && Starts(Mark(k, n))
  {
    ItoaRoundTrip(n);
    ReadsDigits(Itoa(n));
    ReadsPlain(Lead(k));
    ReadsConcat(Lead(k), [], "$" + Itoa(n), [n]);
    EmptyConcat([n]);
  }

  lemma {:induction false} ReadsMarks(from: nat, k: nat)
    ensures Reads(Marks(from, k), Upto(from, k))
    decreases k
  {
    if k == 0 {
      ReadsPlain("");
    } else {
      var last := from + k - 1;
      ReadsMarks(from, k - 1);
      ReadsMark(k, last);
      ReadsConcat(Marks(from, k - 1), Upto(from, k - 1), Mark(k, last), [last]);
      assert Upto(from, k - 1) + [last] == Upto(from, k);
    }
  }

  lemma {:induction false} MarksOpen(from: nat, k: nat)
    requires k > 0
    ensures |Marks(from, k)| > 0 && Marks(from, k)[0] == '('
    decreases k
  {
    if k > 1 {
      MarksOpen(from, k - 1);
    } else {
      assert Marks(from, 1) == "" + Mark(1, from);
    }
  }

  lemma ReadsGroup(n: nat)
    requires n > 0
    ensures Reads(Group(n), Upto(9 * (n - 1) + 1, COLUMN_COUNT)) && Starts(Group(n))
  {
    var from := 9 * (n - 1) + 1;
    var marks, nums := Marks(from, COLUMN_COUNT), Upto(from, COLUMN_COUNT);
    ReadsMarks(from, COLUMN_COUNT);
    MarksOpen(from, COLUMN_COUNT);
    ReadsPlain(")");
    ReadsConcat(marks, nums, ")", []);
    ReadsPlain(Comma(n));
    EmptyConcat(nums);
    ReadsConcat(Comma(n), [], marks + ")", nums);
  }

  lemma {:induction false} ReadsGroups(n: nat)
    ensures Reads(Groups(n), Upto(1, 9 * n))
    decreases n
  {
    if n == 0 {
      ReadsPlain("");
    } else {
      ReadsGroups(n - 1);
      ReadsNextGroup(n, 9 * (n - 1), Groups(n - 1));
    }
  }

  lemma ReadsNextGroup(n: nat, done: nat, groups: string)
    requires n > 0 && done == 9 * (n - 1) && Reads(groups, Upto(1, done))
    ensures Reads(groups + Group(n), Upto(1, done + COLUMN_COUNT))
  {
    ReadsGroup(n);
    ReadsConcat(groups, Upto(1, done), Group(n), Upto(1 + done, COLUMN_COUNT));
    UptoSplit(1, done, COLUMN_COUNT);
  }

  /** A statement for `n` rows names the parameters 1 to 9n, each once and in order. */
  lemma StatementNumbersItsArguments(header: string, n: nat)
    requires '$' !in header
    ensures Scan(header + Groups(n)) == Upto(1, 9 * n)
  {
    ScanPlain(header, Groups(n));
    ReadsGroups(n);
    EmptyConcat(Groups(n));
    EmptyConcat(Upto(1, 9 * n));
    assert Scan("") == [] && Breaks("");
  }

  /* ---------- the rows ---------- */

  datatype Arg = Text(text: string) | Json(text: string) | Stamp(at: Time)

  function DefaultText(v: string, fallback: string): string {
    if v == "" then fallback else v
  }

  function IdFor(e: AuditEntry, newId: Option<string>): Option<string> {
    if e.id == "" then newId else Some(e.id)
  }

  function RowOf(e: AuditEntry, id: string, now: Time): (r: seq<Arg>)
    ensures |r| == 9
  {
    [Text(id), Text(e.tenant), Text(DefaultText(e.actor, "system")), Text(DefaultText(e.ip, "0.0.0.0")), Text(e.event),
     Text(e.resource), Text(e.outcome), Json(if e.meta.Some? then e.meta.value else "{}"),
     Stamp(if e.createdAt.Some? then e.createdAt.value else now)]
  }

  /** The rows to insert: entries in order, without nil ones and those for which no id could be generated. */
  function Rows(entries: seq<Option<AuditEntry>>, newId: nat -> Option<string>, now: Time): (r: seq<seq<Arg>>)
    ensures |r| <= |entries| && forall i | 0 <= i < |r| :: |r[i]| == 9
    decreases |entries|
  {
    if entries == [] then []
    else
      var n := |entries| - 1;
      var before := Rows(entries[..n], newId, now);
      if entries[n].None? || IdFor(entries[n].value, newId(n)).None? then before
      else before + [RowOf(entries[n].value, IdFor(entries[n].value, newId(n)).value, now)]
  }

  /** The arguments are the rows, one after the other. */
  predicate ArgumentsAre(args: seq<Arg>, rows: seq<seq<Arg>>)
    requires forall i | 0 <= i < |rows| :: |rows[i]| == 9
  {
    |args| == 9 * |rows| && forall i | 0 <= i < |rows| :: args[9 * i..9 * i + 9] == rows[i]
  }

  lemma ArgumentsSnoc(args: seq<Arg>, rows: seq<seq<Arg>>, row: seq<Arg>)
    requires (forall i | 0 <= i < |rows| :: |rows[i]| == 9) && |row| == 9 && ArgumentsAre(args, rows)
    ensures ArgumentsAre(args + row, rows + [row])
  {
    forall i | 0 <= i < |rows| + 1 ensures (args + row)[9 * i..9 * i + 9] == (rows + [row])[i] {
      if i < |rows| {
        assert (args + row)[9 * i..9 * i + 9] == args[9 * i..9 * i + 9];
      } else {
        assert (args + row)[|args|..] == row;
      }
    }
  }

  lemma GroupsSnoc(header: string, n: nat)
    ensures header + Groups(n) + Group(n + 1) == header + Groups(n + 1)
  {
    Assoc(header, Groups(n), Group(n + 1));
  }

  lemma RowsSnoc(entries: seq<Option<AuditEntry>>, newId: nat -> Option<string>, now: Time, i: nat)
    requires i < |entries|
    ensures var before := Rows(entries[..i], newId, now);
            Rows(entries[..i + 1], newId, now) ==
              if entries[i].None? || IdFor(entries[i].value, newId(i)).None? then before
              else before + [RowOf(entries[i].value, IdFor(entries[i].value, newId(i)).value, now)]
  {
    assert entries[..i + 1][..i] == entries[..i];
  }

  /** Builds the statement and its arguments: parameter p of the text is the p-th argument, row by row. */
  method WriteBatch(entries: seq<Option<AuditEntry>>, newId: nat -> Option<string>, now: Time)
    returns (executed: bool, text: string, args: seq<Arg>)
    ensures executed <==> Rows(entries, newId, now) != []
    ensures text == Header() + Groups(|Rows(entries, newId, now)|)
    ensures ArgumentsAre(args, Rows(entries, newId, now)) && Scan(text) == Upto(1, |args|)
  {
    var valid;
    text, args, valid := AppendRows(Header(), entries, newId, now);
    HeaderIsPlain();
    StatementNumbersItsArguments(Header(), valid);
    executed := valid != 0;
  }

  method AppendRows(header: string, entries: seq<Option<AuditEntry>>, newId: nat -> Option<string>, now: Time)
    returns (text: string, args: seq<Arg>, valid: nat)
    ensures valid == |Rows(entries, newId, now)| && text == header + Groups(valid)
    ensures ArgumentsAre(args, Rows(entries, newId, now))
  {
    args, text, valid := [], header, 0;
    var placeholder := 1;
    EmptyConcat(header);
    for i := 0 to |entries|
      invariant valid == |Rows(entries[..i], newId, now)| && placeholder == 9 * valid + 1
      invariant text == header + Groups(valid)
      invariant ArgumentsAre(args, Rows(entries[..i], newId, now))
    {
      RowsSnoc(entries, newId, now, i);
      if entries[i].None? {
        continue;
      }
      var id := IdFor(entries[i].value, newId(i));
      if id.None? {
        continue;
      }
      var row := RowOf(entries[i].value, id.value, now);
      GroupsSnoc(header, valid);
      ArgumentsSnoc(args, Rows(entries[..i], newId, now), row);
      text := AppendGroup(text, placeholder, valid);
      placeholder := placeholder + 9;
      valid := valid + 1;
      args := args + row;
    }
    assert entries[..|entries|] == entries;
  }

  /** Writes the comma between groups and one group of nine marks. */
  method AppendGroup(text: string, placeholder: nat, valid: nat) returns (r: string)
    requires placeholder == 9 * valid + 1
    ensures r == text + Group(valid + 1)
  {
    var group := "";
    for k := 0 to COLUMN_COUNT
      invariant group == Marks(placeholder, k)
    {
      group := group + ((if k == 0 then "(" else ",") + ("$" + Itoa(placeholder + k)));
    }
    r := text + (Comma(valid + 1) + (group + ")"));
  }
}
