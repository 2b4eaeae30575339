/** The reminders table and the three reminder tools of the assistant:
    `set_reminder` inserts a row, `list_reminders` lists the enabled rows and
    `delete_reminder` removes a row by id. */
module Reminders {
  import opened Common
  import opened Text

  /** A row of the `reminders` table. `enabled` is the INTEGER column, 1 for
      an active reminder; `lastTriggered` is the nullable `last_triggered`
      column, an ISO timestamp once the reminder has fired. */
  datatype Reminder = Reminder(cron: string, note: string, enabled: int, lastTriggered: Option<string>)

  /** The column default of `enabled`. */
  const DEFAULT_ENABLED: int := 1

  /** The table: rows by primary key, and the keys in the order the rows were
      inserted, which is the order a query without ORDER BY returns them. */
  datatype Table = Table(rows: map<string, Reminder>, order: seq<string>)

  ghost predicate WellFormed(t: Table) {
    Distinct(t.order) && (forall id :: id in t.rows <==> id in t.order)
  }

  const EMPTY: Table := Table(map[], [])

  /** The message SQLite gives when the primary key is already taken. */
  const DUPLICATE_ID_MESSAGE: string := "UNIQUE constraint failed: reminders.id"

  /** `set_reminder` with the generated `id`: the INSERT of `(id, cron, note)`
      either adds the row, enabled and never triggered, and reports its id,
      or fails, in which case the table is unchanged and the failure message
      is reported. `failure` is a database failure other than a taken key
      (a locked or read-only database, say). The cron text is not checked. */
  function SetReminder(t: Table, id: string, cron: string, note: string, failure: Option<string>): (r: (Table, string))
    ensures r.0 == t <==> failure.Some? || id in t.rows
    ensures StartsWith(r.1, "Error setting reminder: ") <==> r.0 == t
    ensures failure.None? && id in t.rows ==> r.1 == "Error setting reminder: " + DUPLICATE_ID_MESSAGE
  {
    if failure.Some? then (t, "Error setting reminder: " + failure.value)
    else if id in t.rows then (t, "Error setting reminder: " + DUPLICATE_ID_MESSAGE)
    else
      var reply := "✅ Reminder set (ID: " + id + ")";
      assert reply[0] != "Error setting reminder: "[0];
      (Table(t.rows[id := Reminder(cron, note, DEFAULT_ENABLED, None)], t.order + [id]), reply)
  }

  /** A row as `list_reminders` selects it: `id, cron, note`. */
  datatype Listed = Listed(id: string, cron: string, note: string)

  /** The reply of `list_reminders`: the fixed text when no row is enabled,
      otherwise the selected rows (sent as their JSON rendering). */
  datatype ListReply = NoActiveReminders | Rows(rows: seq<Listed>)

  /** The enabled rows among `ids`, in order. */
  function EnabledRows(rows: map<string, Reminder>, ids: seq<string>): (r: seq<Listed>)
    requires forall i :: 0 <= i < |ids| ==> ids[i] in rows
    ensures |r| <= |ids|
  {
    if ids == [] then []
    else
      var rest := EnabledRows(rows, ids[1..]);
      var row := rows[ids[0]];
      if row.enabled == 1 then [Listed(ids[0], row.cron, row.note)] + rest else rest
  }

  function ListReminders(t: Table): ListReply
    requires WellFormed(t)
  {
    var found := EnabledRows(t.rows, t.order);
    if |found| == 0 then NoActiveReminders else Rows(found)
  }

  /** `s` without the element `x`. */
  function Without(s: seq<string>, x: string): (r: seq<string>)
    ensures forall y :: y in r <==> y in s && y != x
    ensures |r| <= |s|
  {
    if s == [] then []
    else if s[0] == x then Without(s[1..], x)
    else [s[0]] + Without(s[1..], x)
  }

  /** `delete_reminder`: removes the row with that id if there is one. */
  function DeleteReminder(t: Table, id: string): (r: (Table, string))
    ensures r.0 == t <==> id !in t.rows
    ensures r.1 == "❌ Reminder not found." <==> id !in t.rows
  {
    if id in t.rows then (Table(t.rows - {id}, Without(t.order, id)), "✅ Reminder deleted.")
    else (t, "❌ Reminder not found.")
  }

  // ---------------------------------------------------------------------
  // Properties of the tools

  /** A successful insert adds exactly one row, under the new id, holding
      the given cron and note, enabled and never triggered, whatever the
      cron text is; every other row is unchanged. */
  lemma SetAddsOneRow(t: Table, id: string, cron: string, note: string)
    requires WellFormed(t) && id !in t.rows
    ensures var (t', reply) := SetReminder(t, id, cron, note, None);
      WellFormed(t')
      && t'.rows.Keys == t.rows.Keys + {id}
      && t'.rows[id] == Reminder(cron, note, 1, None)
      && (forall other :: other in t.rows ==> t'.rows[other] == t.rows[other])
      && reply == "✅ Reminder set (ID: " + id + ")"
  {
    var t' := SetReminder(t, id, cron, note, None).0;
    assert forall x :: x in t'.order <==> x in t.order || x == id;
  }

  /** A listed row is exactly an enabled row of the table, with its cron and
      note. */
  lemma {:induction false} EnabledRowsExact(rows: map<string, Reminder>, ids: seq<string>, x: Listed)
    requires forall i :: 0 <= i < |ids| ==> ids[i] in rows
    ensures x in EnabledRows(rows, ids) <==>
      x.id in ids && rows[x.id].enabled == 1 && x.cron == rows[x.id].cron && x.note == rows[x.id].note
  {
    if ids != [] {
      EnabledRowsExact(rows, ids[1..], x);
      assert forall y :: y in ids <==> y == ids[0] || y in ids[1..];
    }
  }

  /** `list_reminders` answers "No active reminders." exactly when no row is
      enabled, and otherwise lists exactly the enabled rows. */
  lemma ListCases(t: Table)
    requires WellFormed(t)
    ensures ListReminders(t) == NoActiveReminders <==> forall id :: id in t.rows ==> t.rows[id].enabled != 1
    ensures ListReminders(t).Rows? ==>
      forall x :: x in ListReminders(t).rows <==>
        x.id in t.rows && t.rows[x.id].enabled == 1 && x.cron == t.rows[x.id].cron && x.note == t.rows[x.id].note
  {
    forall x {
      EnabledRowsExact(t.rows, t.order, x);
    }
    var found := EnabledRows(t.rows, t.order);
    if |found| == 0 {
      forall id | id in t.rows ensures t.rows[id].enabled != 1 {
        var x := Listed(id, t.rows[id].cron, t.rows[id].note);
        assert x !in found;
      }
    } else {
      assert found[0] in found;
    }
  }

  /** A new reminder shows up in the listing. */
  lemma SetThenListed(t: Table, id: string, cron: string, note: string)
    requires WellFormed(t) && id !in t.rows
    ensures var t' := SetReminder(t, id, cron, note, None).0;
      ListReminders(t').Rows? && Listed(id, cron, note) in ListReminders(t').rows
  {
    SetAddsOneRow(t, id, cron, note);
    var t' := SetReminder(t, id, cron, note, None).0;
    ListCases(t');
  }

  /** Deleting an existing id removes that row and only that row. */
  lemma DeleteExisting(t: Table, id: string)
    requires WellFormed(t) && id in t.rows
    ensures var (t', reply) := DeleteReminder(t, id);
      WellFormed(t')
      && t'.rows.Keys == t.rows.Keys - {id}
      && (forall other :: other in t'.rows ==> t'.rows[other] == t.rows[other])
      && reply == "✅ Reminder deleted."
  {
    WithoutDistinct(t.order, id);
  }

  lemma {:induction false} WithoutDistinct(s: seq<string>, x: string)
    requires Distinct(s)
    ensures Distinct(Without(s, x))
  {
    if s != [] {
      WithoutDistinct(s[1..], x);
      assert s[0] !in s[1..];
    }
  }

  /** Removing an element that is not there gives the sequence back. */
  lemma {:induction false} WithoutAbsent(s: seq<string>, x: string)
    requires x !in s
    ensures Without(s, x) == s
  {
    if s != [] {
      WithoutAbsent(s[1..], x);
    }
  }

  lemma {:induction false} WithoutLast(s: seq<string>, x: string)
    requires x !in s
    ensures Without(s + [x], x) == s
  {
    if s == [] {
      assert [x][1..] == [];
    } else {
      assert (s + [x])[1..] == s[1..] + [x];
      WithoutLast(s[1..], x);
    }
  }

  /** Deleting the reminder just set gives the table back. */
  lemma SetThenDelete(t: Table, id: string, cron: string, note: string)
    requires WellFormed(t) && id !in t.rows
    ensures DeleteReminder(SetReminder(t, id, cron, note, None).0, id).0 == t
  {
    WithoutLast(t.order, id);
    var t' := SetReminder(t, id, cron, note, None).0;
    assert t'.rows - {id} == t.rows;
  }

  /** The table as the tools see it, changed in place. */
  class ReminderStore {
    var rows: map<string, Reminder>
    var order: seq<string>

    function Model(): Table
      reads this
    {
      Table(rows, order)
    }

    ghost predicate Valid()
      reads this
    {
      WellFormed(Model())
    }

    constructor ()
      ensures Valid() && Model() == EMPTY
    {
      rows := map[];
      order := [];
    }

    method Set(id: string, cron: string, note: string, failure: Option<string>) returns (reply: string)
      requires Valid()
      modifies this
      ensures Valid()
      ensures (Model(), reply) == SetReminder(old(Model()), id, cron, note, failure)
    {
      if failure.Some? {
        reply := "Error setting reminder: " + failure.value;
      } else if id in rows {
        reply := "Error setting reminder: " + DUPLICATE_ID_MESSAGE;
      } else {
        ghost var before := Model();
        rows := rows[id := Reminder(cron, note, DEFAULT_ENABLED, None)];
        order := order + [id];
        reply := "✅ Reminder set (ID: " + id + ")";
        SetAddsOneRow(before, id, cron, note);
      }
    }

    method List() returns (reply: ListReply)
      requires Valid()
      ensures reply == ListReminders(Model())
    {
      var found := EnabledRows(rows, order);
      if |found| == 0 {
        reply := NoActiveReminders;
      } else {
        reply := Rows(found);
      }
    }

    method Delete(id: string) returns (reply: string)
      requires Valid()
      modifies this
      ensures Valid()
      ensures (Model(), reply) == DeleteReminder(old(Model()), id)
    {
      if id in rows {
        DeleteExisting(Model(), id);
        rows := rows - {id};
        order := Without(order, id);
        reply := "✅ Reminder deleted.";
      } else {
        reply := "❌ Reminder not found.";
      }
    }
  }
}
