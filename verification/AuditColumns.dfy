/** What the audit statement writes where: every argument is the field of its entry that the column names. */
module AuditColumns {
  import opened Common
  import opened Domain
  import opened Audit

  /** What belongs into a column. Who acted and from where have defaults, and so have the metadata and the time. */
  function Belongs(e: AuditEntry, id: string, now: Time, column: string): Option<Arg> {
    if column == "id" then Some(Text(id))
    else if column == "tenant_id" then Some(Text(e.tenant))
    else if column == "actor_id" then Some(Text(if e.actor != "" then e.actor else "system"))
    else if column == "actor_ip" then Some(Text(if e.ip != "" then e.ip else "0.0.0.0"))
    else if column == "event" then Some(Text(e.event))
    else if column == "resource_id" then Some(Text(e.resource))
    else if column == "outcome" then Some(Text(e.outcome))
    else if column == "meta" then Some(Json(if e.meta.Some? then e.meta.value else "{}"))
    else if column == "created_at" then Some(Stamp(if e.createdAt.Some? then e.createdAt.value else now))
    else None
  }

  lemma RowByColumn(e: AuditEntry, id: string, now: Time, k: nat)
    requires k < 9
    ensures |NAMES| == 9 && Belongs(e, id, now, NAMES[k]) == Some(RowOf(e, id, now)[k])
  {
  }

  /** An entry is written if it is there and has an id, its own or a new one. */
  predicate Writable(entries: seq<Option<AuditEntry>>, newId: nat -> Option<string>, i: nat)
    requires i < |entries|
  {
    entries[i].Some? && (entries[i].value.id != "" || newId(i).Some?)
  }

  function IdOf(entries: seq<Option<AuditEntry>>, newId: nat -> Option<string>, i: nat): string
    requires i < |entries| && Writable(entries, newId, i)
  {
    if entries[i].value.id != "" then entries[i].value.id else newId(i).value
  }

  predicate Rising(which: seq<nat>, bound: nat) {
    (forall r | 0 <= r < |which| :: which[r] < bound) && forall q, r | 0 <= q < r < |which| :: which[q] < which[r]
  }

  /** These are the entries behind the rows: all that can be written, in order. */
  ghost predicate Behind(entries: seq<Option<AuditEntry>>, newId: nat -> Option<string>, now: Time, which: seq<nat>) {
    var rows := Rows(entries, newId, now);
    && |which| == |rows| && Rising(which, |entries|)
    && (forall i: nat | i < |entries| && Writable(entries, newId, i) :: i in which)
    && (forall r | 0 <= r < |which| ::
          Writable(entries, newId, which[r]) && rows[r] == RowOf(entries[which[r]].value, IdOf(entries, newId, which[r]), now))
  }

  lemma OneMoreRow(entries: seq<Option<AuditEntry>>, newId: nat -> Option<string>, now: Time)
    requires entries != []
    ensures var n := |entries| - 1;
            Rows(entries, newId, now) == Rows(entries[..n], newId, now)
              + if Writable(entries, newId, n) then [RowOf(entries[n].value, IdOf(entries, newId, n), now)] else []
    ensures forall i: nat | i < |entries| - 1 ::
              && Writable(entries[..|entries| - 1], newId, i) == Writable(entries, newId, i)
              && (Writable(entries, newId, i) ==> IdOf(entries[..|entries| - 1], newId, i) == IdOf(entries, newId, i))
  {
  }

  lemma SkippedBehind(entries: seq<Option<AuditEntry>>, newId: nat -> Option<string>, now: Time, which: seq<nat>)
    requires entries != [] && Behind(entries[..|entries| - 1], newId, now, which) && !Writable(entries, newId, |entries| - 1)
    ensures Behind(entries, newId, now, which)
  {
    OneMoreRow(entries, newId, now);
  }

  lemma AddedBehind(entries: seq<Option<AuditEntry>>, newId: nat -> Option<string>, now: Time, which: seq<nat>)
    requires entries != [] && Behind(entries[..|entries| - 1], newId, now, which) && Writable(entries, newId, |entries| - 1)
    ensures Behind(entries, newId, now, which + [|entries| - 1])
  {
    var n := |entries| - 1;
    OneMoreRow(entries, newId, now);
    var all := which + [n];
    assert Rising(all, |entries|);
    forall i: nat | i < |entries| && Writable(entries, newId, i) ensures i in all {
      assert i < n ==> Writable(entries[..n], newId, i);
    }
  }

  lemma {:induction false} RowsBehind(entries: seq<Option<AuditEntry>>, newId: nat -> Option<string>, now: Time) returns (which: seq<nat>)
    ensures Behind(entries, newId, now, which)
    decreases |entries|
  {
    if entries == [] {
      which := [];
    } else {
      var n := |entries| - 1;
      which := RowsBehind(entries[..n], newId, now);
      if Writable(entries, newId, n) {
        AddedBehind(entries, newId, now, which);
        which := which + [n];
      } else {
        SkippedBehind(entries, newId, now, which);
      }
    }
  }

  /**
   Argument number 9r + k + 1 of the statement is what belongs into the k-th column it lists, of the r-th entry
   that is there and has an id; no such entry is left out.
   */
  lemma ArgumentsMatchColumns(entries: seq<Option<AuditEntry>>, newId: nat -> Option<string>, now: Time, args: seq<Arg>)
      returns (which: seq<nat>)
    requires ArgumentsAre(args, Rows(entries, newId, now))
    ensures Behind(entries, newId, now, which) && |args| == 9 * |which| && |NAMES| == 9
    ensures forall r, k | 0 <= r < |which| && 0 <= k < 9 ::
              Belongs(entries[which[r]].value, IdOf(entries, newId, which[r]), now, NAMES[k]) == Some(args[9 * r + k])
  {
    which := RowsBehind(entries, newId, now);
    var rows := Rows(entries, newId, now);
    forall r, k | 0 <= r < |which| && 0 <= k < 9
      ensures Belongs(entries[which[r]].value, IdOf(entries, newId, which[r]), now, NAMES[k]) == Some(args[9 * r + k])
    {
      assert args[9 * r..9 * r + 9] == rows[r];
      assert args[9 * r..9 * r + 9][k] == args[9 * r + k];
      RowByColumn(entries[which[r]].value, IdOf(entries, newId, which[r]), now, k);
    }
  }

  /* ---------- the shape of the statement ---------- */

  /** Parts with a comma between. */
  function Joined(parts: seq<string>): string
    decreases |parts|
  {
    if parts == [] then "" else if |parts| == 1 then parts[0] else Joined(parts[..|parts| - 1]) + ("," + parts[|parts| - 1])
  }

  /** The marks of a row: a dollar sign and a number each. */
  function Marked(from: nat, k: nat): seq<string> {
    seq(k, i requires 0 <= i < k => "$" + Itoa(from + i))
  }

  function Bracket(r: nat): string {
    "(" + (Joined(Marked(9 * r + 1, 9)) + ")")
  }

  function Bracketed(n: nat): seq<string> {
    seq(n, r requires 0 <= r < n => Bracket(r))
  }

  lemma JoinedSnoc(parts: seq<string>, part: string)
    ensures Joined(parts + [part]) == if parts == [] then part else Joined(parts) + ("," + part)
  {
    assert (parts + [part])[..|parts|] == parts;
  }

  lemma {:induction false} MarksJoined(from: nat, k: nat)
    requires k > 0
    ensures Marks(from, k) == "(" + Joined(Marked(from, k))
    decreases k
  {
    var parts := Marked(from, k);
    if k > 1 {
      MarksJoined(from, k - 1);
      assert parts[..k - 1] == Marked(from, k - 1);
      Assoc("(", Joined(Marked(from, k - 1)), "," + parts[k - 1]);
    } else {
      assert Marks(from, 1) == "" + Mark(1, from);
      EmptyConcat(Mark(1, from));
    }
  }

  lemma GroupIsBracket(n: nat)
    requires n > 0
    ensures Group(n) == (if n == 1 then "" else ",") + Bracket(n - 1)
  {
    var from := 9 * (n - 1) + 1;
    MarksJoined(from, 9);
    Assoc("(", Joined(Marked(from, 9)), ")");
  }

  lemma BracketedSnoc(n: nat)
    requires n > 0
    ensures Bracketed(n) == Bracketed(n - 1) + [Bracket(n - 1)] && (Bracketed(n - 1) == [] <==> n == 1)
  {
  }

  lemma NextGroup(groups: string, joined: string, bracket: string, first: bool)
    requires groups == joined && (first ==> joined == "")
    ensures groups + ((if first then "" else ",") + bracket) == if first then bracket else joined + ("," + bracket)
  {
    EmptyConcat(bracket);
  }

  /** After the header the statement is one bracket of nine marks for each row, with commas between. */
  lemma {:induction false} GroupsJoined(n: nat)
    ensures Groups(n) == Joined(Bracketed(n))
    decreases n
  {
    if n > 0 {
      GroupsJoined(n - 1);
      BracketedSnoc(n);
      JoinedSnoc(Bracketed(n - 1), Bracket(n - 1));
      GroupIsBracket(n);
      NextGroup(Groups(n - 1), Joined(Bracketed(n - 1)), Bracket(n - 1), n == 1);
    }
  }
}
