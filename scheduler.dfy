/** One tick of the reminder scheduler: the enabled reminders are read once,
    then each in turn is skipped when it already fired in the current
    minute, and otherwise fires when its cron expression matches the clock:
    its `last_triggered` is set to now and `reminder:triggered` is emitted.
    The interval timer that runs a tick every 15 seconds is the caller's. */
module Scheduler {
  import opened Common
  import opened Text
  import opened Cron
  import opened Events
  import opened Reminders

  /** The clock at the start of a tick: `now.toISOString()` and the local
      readings of `now`. */
  datatype Now = Now(iso: string, local: LocalTime)

  /** The minute key: the first 16 characters of an ISO timestamp,
      `YYYY-MM-DDTHH:mm`. */
  function MinuteKey(iso: string): (k: string)
    ensures |k| <= 16 && StartsWith(iso, k)
  {
    Take(iso, 16)
  }

  /** The minute a reminder last fired in, or "" when it never did. */
  function LastFired(r: Reminder): (k: string)
    ensures r.lastTriggered.None? ==> k == ""
    ensures r.lastTriggered.Some? ==> k == MinuteKey(r.lastTriggered.value)
  {
    match r.lastTriggered
    case None => ""
    case Some(at) => MinuteKey(at)
  }

  /** The ids `SELECT * FROM reminders WHERE enabled = 1` returns, in table
      order. */
  function EnabledIds(rows: map<string, Reminder>, ids: seq<string>): (r: seq<string>)
    requires forall i :: 0 <= i < |ids| ==> ids[i] in rows
    ensures forall x :: x in r <==> x in ids && rows[x].enabled == 1
    ensures forall i :: 0 <= i < |r| ==> r[i] in rows
  {
    if ids == [] then []
    else if rows[ids[0]].enabled == 1 then [ids[0]] + EnabledIds(rows, ids[1..])
    else EnabledIds(rows, ids[1..])
  }

  /** Where a tick has got to: the table rows, the events emitted so far,
      and whether `parseCron` has thrown, which ends the tick. */
  datatype TickState = TickState(rows: map<string, Reminder>, fired: seq<AppEvent>, aborted: bool)

  /** What the loop does with the reminder `id`, read as `snapshot` when the
      tick began. A cron expression with fewer than five fields throws. */
  function Visit(s: TickState, id: string, snapshot: Reminder, now: Now): TickState
  {
    if s.aborted || LastFired(snapshot) == MinuteKey(now.iso) then s
    else match ParseCron(snapshot.cron, now.local)
      case Matches =>
        var rows := if id in s.rows then s.rows[id := s.rows[id].(lastTriggered := Some(now.iso))] else s.rows;
        TickState(rows, s.fired + [ReminderTriggered(id, snapshot.note)], false)
      case NoMatch => s
      case Throws => s.(aborted := true)
  }

  /** The loop over the first `|ids|` selected reminders, from the table
      `rows0` as it was when the tick began. */
  function Run(rows0: map<string, Reminder>, ids: seq<string>, now: Now): TickState
    requires forall i :: 0 <= i < |ids| ==> ids[i] in rows0
  {
    if ids == [] then TickState(rows0, [], false)
    else
      var last := ids[|ids| - 1];
      Visit(Run(rows0, ids[..|ids| - 1], now), last, rows0[last], now)
  }

  /** A whole tick over the table `t`. */
  function Tick(t: Table, now: Now): TickState
    requires WellFormed(t)
  {
    Run(t.rows, EnabledIds(t.rows, t.order), now)
  }

  /** Whether the reminder `r` is due at `now`: not yet fired in this minute
      and matched by its cron expression. */
  predicate Due(r: Reminder, now: Now) {
    LastFired(r) != MinuteKey(now.iso) && ParseCron(r.cron, now.local) == Matches
  }

  /** The ids named by emitted events (the scheduler emits only
      `reminder:triggered`). */
  function FiredIds(events: seq<AppEvent>): (r: seq<string>)
    ensures |r| == |events|
    ensures forall i :: 0 <= i < |events| ==> r[i] == if events[i].ReminderTriggered? then events[i].id else ""
  {
    seq(|events|, i requires 0 <= i < |events| => if events[i].ReminderTriggered? then events[i].id else "")
  }

  // ---------------------------------------------------------------------
  // Properties of a tick

  lemma RunSnoc(rows0: map<string, Reminder>, ids: seq<string>, i: nat, now: Now)
    requires forall j :: 0 <= j < |ids| ==> ids[j] in rows0
    requires i < |ids|
    ensures Run(rows0, ids[..i + 1], now) == Visit(Run(rows0, ids[..i], now), ids[i], rows0[ids[i]], now)
  {
    assert ids[..i + 1][..i] == ids[..i];
  }

  /** Every event of a run names a selected reminder that was due, with its
      note. */
  lemma {:induction false} RunEvents(rows0: map<string, Reminder>, ids: seq<string>, now: Now)
    requires forall i :: 0 <= i < |ids| ==> ids[i] in rows0
    ensures forall e :: e in Run(rows0, ids, now).fired ==>
      e.ReminderTriggered? && e.id in ids && e.note == rows0[e.id].note && Due(rows0[e.id], now)
  {
    if ids != [] {
      var prefix := ids[..|ids| - 1];
      RunEvents(rows0, prefix, now);
      assert forall x :: x in prefix ==> x in ids;
    }
  }

  /** A run keeps the key set; a reminder that fired has `last_triggered`
      set to now and nothing else changed, every other row is untouched, and
      no reminder fires twice. */
  lemma {:induction false} RunRows(rows0: map<string, Reminder>, ids: seq<string>, now: Now)
    requires forall i :: 0 <= i < |ids| ==> ids[i] in rows0
    requires Distinct(ids)
    ensures var s := Run(rows0, ids, now);
      s.rows.Keys == rows0.Keys
      && Distinct(FiredIds(s.fired))
      && (forall x :: x in FiredIds(s.fired) ==> x in ids)
      && (forall id :: id in rows0 ==>
            s.rows[id] == if id in FiredIds(s.fired) then rows0[id].(lastTriggered := Some(now.iso)) else rows0[id])
  {
    if ids != [] {
      var prefix := ids[..|ids| - 1];
      var last := ids[|ids| - 1];
      DistinctInit(ids);
      RunRows(rows0, prefix, now);
      var p := Run(rows0, prefix, now);
      var s := Run(rows0, ids, now);
      if s.fired != p.fired {
        var ev := ReminderTriggered(last, rows0[last].note);
        assert s.fired == p.fired + [ev];
        FiredIdsSnoc(p.fired, ev);
        DistinctSnoc(FiredIds(p.fired), last);
      }
    }
  }

  lemma FiredIdsSnoc(events: seq<AppEvent>, e: AppEvent)
    requires e.ReminderTriggered?
    ensures FiredIds(events + [e]) == FiredIds(events) + [e.id]
  {
  }

  lemma {:induction false} EnabledIdsDistinct(rows: map<string, Reminder>, ids: seq<string>)
    requires forall i :: 0 <= i < |ids| ==> ids[i] in rows
    requires Distinct(ids)
    ensures Distinct(EnabledIds(rows, ids))
  {
    if ids != [] {
      assert ids[0] !in ids[1..];
      EnabledIdsDistinct(rows, ids[1..]);
    }
  }

  /** A tick keeps the key set; every event names an enabled reminder that
      was due, with its note; the reminders that fired have `last_triggered`
      set to now and nothing else changed, every other row is untouched; no
      reminder fires twice in one tick. */
  lemma TickEffect(t: Table, now: Now)
    requires WellFormed(t)
    ensures var s := Tick(t, now);
      s.rows.Keys == t.rows.Keys
      && (forall e :: e in s.fired ==>
            e.ReminderTriggered? && e.id in t.rows && t.rows[e.id].enabled == 1
            && e.note == t.rows[e.id].note && Due(t.rows[e.id], now))
      && (forall id :: id in t.rows ==>
            s.rows[id] == if id in FiredIds(s.fired) then t.rows[id].(lastTriggered := Some(now.iso)) else t.rows[id])
      && (forall x :: x in FiredIds(s.fired) ==> x in t.rows && t.rows[x].enabled == 1 && Due(t.rows[x], now))
      && Distinct(FiredIds(s.fired))
  {
    var ids := EnabledIds(t.rows, t.order);
    EnabledIdsDistinct(t.rows, t.order);
    RunEvents(t.rows, ids, now);
    RunRows(t.rows, ids, now);
    var s := Tick(t, now);
    forall x | x in FiredIds(s.fired)
      ensures x in t.rows && t.rows[x].enabled == 1 && Due(t.rows[x], now)
    {
      var i :| 0 <= i < |s.fired| && FiredIds(s.fired)[i] == x;
      assert s.fired[i] in s.fired;
    }
  }

  lemma {:induction false} FiredIdsHas(events: seq<AppEvent>, e: AppEvent)
    requires e in events && e.ReminderTriggered?
    ensures e.id in FiredIds(events)
  {
    var init := events[..|events| - 1];
    if e != events[|events| - 1] {
      assert e in init;
      FiredIdsHas(init, e);
    }
  }

  /** A reminder that already fired in the current minute is skipped: its
      row is unchanged and nothing is emitted for it, whatever its cron
      expression says. */
  lemma SkippedWithinMinute(t: Table, now: Now, id: string)
    requires WellFormed(t) && id in t.rows
    requires LastFired(t.rows[id]) == MinuteKey(now.iso)
    ensures id in Tick(t, now).rows && Tick(t, now).rows[id] == t.rows[id]
    ensures forall e :: e in Tick(t, now).fired ==> e.ReminderTriggered? && e.id != id
  {
    TickEffect(t, now);
    assert !Due(t.rows[id], now);
  }

  lemma NotFiredAbsent(events: seq<AppEvent>, x: string)
    requires forall e :: e in events ==> e.ReminderTriggered? && e.id != x
    ensures x !in FiredIds(events)
  {
    forall i | 0 <= i < |events| ensures FiredIds(events)[i] != x {
      assert events[i] in events;
    }
  }

  /** A disabled reminder is never examined: unchanged, and never named by
      an event. */
  lemma DisabledNeverFires(t: Table, now: Now, id: string)
    requires WellFormed(t) && id in t.rows && t.rows[id].enabled != 1
    ensures id in Tick(t, now).rows && Tick(t, now).rows[id] == t.rows[id]
    ensures forall e :: e in Tick(t, now).fired ==> e.ReminderTriggered? && e.id != id
  {
    TickEffect(t, now);
  }

  /** When no cron expression throws, every selected reminder that is due
      fires. */
  lemma {:induction false} RunFiresAllDue(rows0: map<string, Reminder>, ids: seq<string>, now: Now)
    requires forall i :: 0 <= i < |ids| ==> ids[i] in rows0
    requires !Run(rows0, ids, now).aborted
    ensures forall id :: id in ids && Due(rows0[id], now) ==>
      ReminderTriggered(id, rows0[id].note) in Run(rows0, ids, now).fired
  {
    if ids != [] {
      var prefix := ids[..|ids| - 1];
      var p := Run(rows0, prefix, now);
      assert !p.aborted;
      RunFiresAllDue(rows0, prefix, now);
      assert forall id :: id in ids ==> id in prefix || id == ids[|ids| - 1];
    }
  }

  /** So a tick that does not abort fires every enabled reminder that is
      due. */
  lemma TickFiresAllDue(t: Table, now: Now, id: string)
    requires WellFormed(t) && !Tick(t, now).aborted
    requires id in t.rows && t.rows[id].enabled == 1 && Due(t.rows[id], now)
    ensures ReminderTriggered(id, t.rows[id].note) in Tick(t, now).fired
  {
    RunFiresAllDue(t.rows, EnabledIds(t.rows, t.order), now);
  }

  /** Once a run has aborted, the reminders after it are not visited. */
  lemma {:induction false} AbortStays(rows0: map<string, Reminder>, ids: seq<string>, more: seq<string>, now: Now)
    requires forall i :: 0 <= i < |ids| ==> ids[i] in rows0
    requires forall i :: 0 <= i < |more| ==> more[i] in rows0
    requires Run(rows0, ids, now).aborted
    ensures Run(rows0, ids + more, now) == Run(rows0, ids, now)
    decreases |more|
  {
    if more == [] {
      assert ids + more == ids;
    } else {
      var init := more[..|more| - 1];
      AbortStays(rows0, ids, init, now);
      var whole := ids + more;
      assert whole[..|whole| - 1] == ids + init;
      var prev := Run(rows0, ids + init, now);
      assert prev.aborted;
      assert Run(rows0, whole, now) == Visit(prev, whole[|whole| - 1], rows0[whole[|whole| - 1]], now);
    }
  }

  /** At most one firing per minute: after a tick, a second tick in the same
      minute fires none of the reminders the first one fired. */
  lemma AtMostOncePerMinute(t: Table, now: Now, later: Now)
    requires WellFormed(t)
    requires MinuteKey(later.iso) == MinuteKey(now.iso)
    ensures var first := Tick(t, now);
      var t' := Table(first.rows, t.order);
      WellFormed(t')
      && forall x :: x in FiredIds(first.fired) ==> x !in FiredIds(Tick(t', later).fired)
  {
    var first := Tick(t, now);
    TickEffect(t, now);
    var t' := Table(first.rows, t.order);
    assert WellFormed(t');
    forall x | x in FiredIds(first.fired)
      ensures x !in FiredIds(Tick(t', later).fired)
    {
      assert t'.rows[x] == t.rows[x].(lastTriggered := Some(now.iso));
      SkippedWithinMinute(t', later, x);
      NotFiredAbsent(Tick(t', later).fired, x);
    }
  }

  /** The three things a visit can do to a tick that has not aborted. */
  lemma VisitOutcomes(s: TickState, id: string, r: Reminder, now: Now)
    requires !s.aborted && id in s.rows
    ensures LastFired(r) == MinuteKey(now.iso) ==> Visit(s, id, r, now) == s
    ensures LastFired(r) != MinuteKey(now.iso) ==>
      var verdict := ParseCron(r.cron, now.local);
      Visit(s, id, r, now) ==
        if verdict == Matches then
          TickState(s.rows[id := s.rows[id].(lastTriggered := Some(now.iso))], s.fired + [ReminderTriggered(id, r.note)], false)
        else if verdict == Throws then s.(aborted := true)
        else s
  {
  }

  /** The loop of a tick over the selected reminders `ids`, read from the
      rows `rows0` as they were when the tick began: the rows after the
      `UPDATE`s, the events emitted and whether `parseCron` threw. */
  method VisitAll(rows0: map<string, Reminder>, ids: seq<string>, now: Now)
    returns (rows: map<string, Reminder>, fired: seq<AppEvent>, aborted: bool)
    requires forall i :: 0 <= i < |ids| ==> ids[i] in rows0
    ensures Run(rows0, ids, now) == TickState(rows, fired, aborted)
  {
    var key := MinuteKey(now.iso);
    rows := rows0;
    fired := [];
    aborted := false;
    var i := 0;
    while i < |ids| && !aborted
      invariant 0 <= i <= |ids|
      invariant Run(rows0, ids[..i], now) == TickState(rows, fired, aborted)
      invariant rows.Keys == rows0.Keys
    {
      var id := ids[i];
      var r := rows0[id];
      RunSnoc(rows0, ids, i, now);
      VisitOutcomes(TickState(rows, fired, aborted), id, r, now);
      if LastFired(r) != key {
        var verdict := ParseCron(r.cron, now.local);
        if verdict == Matches {
          rows := rows[id := rows[id].(lastTriggered := Some(now.iso))];
          fired := fired + [ReminderTriggered(id, r.note)];
        } else if verdict == Throws {
          aborted := true;
        }
      }
      i := i + 1;
    }
    if i < |ids| {
      assert ids == ids[..i] + ids[i..];
      AbortStays(rows0, ids[..i], ids[i..], now);
    } else {
      assert ids[..i] == ids;
    }
  }

  /** The scheduler's tick on the live table: the `UPDATE`s of the loop
      land in the table, which keeps its reminders and their order. */
  method RunTick(store: ReminderStore, now: Now) returns (fired: seq<AppEvent>, aborted: bool)
    requires store.Valid()
    modifies store
    ensures store.Valid()
    ensures store.order == old(store.order)
    ensures Tick(old(store.Model()), now) == TickState(store.rows, fired, aborted)
  {
    var ids := EnabledIds(store.rows, store.order);
    var rows;
    rows, fired, aborted := VisitAll(store.rows, ids, now);
    TickEffect(store.Model(), now);
    store.rows := rows;
  }
}
