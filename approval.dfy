/** The human-in-the-loop approval gate, `waitForApproval`: each request
    emits `approval:requested` under a fresh id, registers one listener for
    `approval:decision` that reacts only to its own id, and arms a five-minute
    timer that denies. The promise settles once; the listener is removed by
    whichever of the decision and the timer comes first. */
module Approval {
  import opened Common
  import opened Events

  /** The auto-deny delay in milliseconds. */
  const APPROVAL_TIMEOUT_MS: nat := 300000

  /** A pending or settled `waitForApproval` call; `outcome` is the value the
      promise resolved with, if it has. */
  datatype Waiter = Waiter(description: string, outcome: Option<bool>)

  /** The gate: every call by id, the ids whose listener is registered on the
      bus (in registration order) and the ids whose timer has not fired. */
  datatype Gate = Gate(waiters: map<string, Waiter>, listeners: seq<string>, timers: set<string>)

  const NO_REQUESTS: Gate := Gate(map[], [], {})

  /** A listener is registered exactly for the calls still unsettled; each
      id is registered once; timers belong to calls. */
  ghost predicate Consistent(g: Gate) {
    Distinct(g.listeners)
    && (forall id :: id in g.listeners <==> id in g.waiters && g.waiters[id].outcome.None?)
    && g.timers <= g.waiters.Keys
  }

  /** `xs` without `x`: `bus.off` of that listener. */
  function Unregister(xs: seq<string>, x: string): (r: seq<string>)
    ensures forall y :: y in r <==> y in xs && y != x
  {
    if xs == [] then []
    else if xs[0] == x then Unregister(xs[1..], x)
    else [xs[0]] + Unregister(xs[1..], x)
  }

  /** A call with the fresh id `id`: the gate records it, registers its
      listener and arms its timer; the request event is returned. */
  function Request(g: Gate, id: string, description: string): (r: (Gate, AppEvent))
    requires id !in g.waiters
  {
    (Gate(g.waiters[id := Waiter(description, None)], g.listeners + [id], g.timers + {id}),
     ApprovalRequested(id, description))
  }

  /** `approval:decision` is emitted: every registered listener sees it, and
      only the one whose id matches acts, unregistering itself and resolving
      its promise. */
  function Decide(g: Gate, id: string, approved: bool): Gate
  {
    if id in g.listeners && id in g.waiters then
      Gate(g.waiters[id := g.waiters[id].(outcome := if g.waiters[id].outcome.None? then Some(approved) else g.waiters[id].outcome)],
           Unregister(g.listeners, id), g.timers)
    else g
  }

  /** The five-minute timer of call `id` fires: it unregisters the listener
      (a no-op when it is already gone) and resolves with false, which has no
      effect on a promise already settled. The timer is never cleared, so it
      also fires after a decision. */
  function TimerFires(g: Gate, id: string): Gate
    requires id in g.timers
  {
    var w := if id in g.waiters then g.waiters[id] else Waiter("", None);
    var settled := if w.outcome.None? then Some(false) else w.outcome;
    Gate(if id in g.waiters then g.waiters[id := w.(outcome := settled)] else g.waiters,
         Unregister(g.listeners, id), g.timers - {id})
  }

  // ---------------------------------------------------------------------
  // Properties of one step

  lemma {:induction false} UnregisterDistinct(xs: seq<string>, x: string)
    requires Distinct(xs)
    ensures Distinct(Unregister(xs, x))
  {
    if xs != [] {
      assert xs[0] !in xs[1..];
      UnregisterDistinct(xs[1..], x);
      var r := Unregister(xs[1..], x);
      if xs[0] != x {
        var r' := [xs[0]] + r;
        assert xs[0] !in r;
        forall i, j | 0 <= i < j < |r'| ensures r'[i] != r'[j] {
          assert r'[j] == r[j - 1];
          if i == 0 {
            assert r[j - 1] in r;
          } else {
            assert r'[i] == r[i - 1];
          }
        }
      }
    }
  }

  /** A request records an unsettled call with its description, registers
      its listener, arms its timer and emits `approval:requested` with the
      id and the description; the other calls are untouched. */
  lemma RequestEffect(g: Gate, id: string, description: string)
    requires Consistent(g) && id !in g.waiters
    ensures var (g', event) := Request(g, id, description);
      Consistent(g')
      && event == ApprovalRequested(id, description)
      && g'.waiters[id] == Waiter(description, None)
      && id in g'.listeners && id in g'.timers
      && (forall other :: other in g.waiters ==> other in g'.waiters && g'.waiters[other] == g.waiters[other])
  {
  }

  /** The first decision with a matching id resolves the call with its
      `approved` value and unregisters its listener. */
  lemma DecisionResolves(g: Gate, id: string, approved: bool)
    requires Consistent(g) && id in g.waiters && g.waiters[id].outcome.None?
    ensures var g' := Decide(g, id, approved);
      Consistent(g')
      && g'.waiters[id].outcome == Some(approved)
      && id !in g'.listeners
      && (forall other :: other in g.waiters && other != id ==> other in g'.waiters && g'.waiters[other] == g.waiters[other])
      && (forall other :: other in g.listeners && other != id ==> other in g'.listeners)
  {
    UnregisterDistinct(g.listeners, id);
  }

  /** A decision for another id leaves every other call exactly as it was:
      calls are independent because each listener compares only its own
      id. A decision for a settled or unknown id changes nothing at all. */
  lemma DecisionIsolation(g: Gate, id: string, approved: bool)
    requires Consistent(g)
    ensures var g' := Decide(g, id, approved);
      Consistent(g')
      && g'.waiters.Keys == g.waiters.Keys
      && (forall other :: other in g.waiters && other != id ==> g'.waiters[other] == g.waiters[other])
      && (forall other :: other in g.listeners && other != id ==> other in g'.listeners)
      && (id !in g.waiters || g.waiters[id].outcome.Some? ==> g' == g)
  {
    UnregisterDistinct(g.listeners, id);
  }

  /** A timer that fires before any decision denies the call and
      unregisters its listener; one that fires after a decision changes no
      outcome. */
  lemma TimeoutDenies(g: Gate, id: string)
    requires Consistent(g) && id in g.timers
    ensures var g' := TimerFires(g, id);
      Consistent(g')
      && id !in g'.listeners && id !in g'.timers
      && g'.waiters.Keys == g.waiters.Keys
      && g'.waiters[id].outcome == (if g.waiters[id].outcome.None? then Some(false) else g.waiters[id].outcome)
      && (forall other :: other in g.waiters && other != id ==> g'.waiters[other] == g.waiters[other])
  {
    UnregisterDistinct(g.listeners, id);
  }

  // ---------------------------------------------------------------------
  // Whole histories

  /** What can happen to the gate after the requests: a decision is emitted
      on the bus, or the timer of a call fires. */
  datatype GateEvent = Decision(id: string, approved: bool) | Timeout(id: string)

  /** The history applied in order; a timer that has already fired cannot
      fire again, so such an event is ignored. */
  function Replay(g: Gate, history: seq<GateEvent>): Gate
    decreases |history|
  {
    if history == [] then g
    else
      var first := history[0];
      var next := match first
        case Decision(id, approved) => Decide(g, id, approved)
        case Timeout(id) => if id in g.timers then TimerFires(g, id) else g;
      Replay(next, history[1..])
  }

  /** The reference reading of `waitForApproval`: the call resolves with the
      first event that names it, `approved` for a decision and false for its
      timer; with no such event it is still pending. */
  function FirstSettlement(history: seq<GateEvent>, id: string): Option<bool>
  {
    if history == [] then None
    else if history[0] == Timeout(id) then Some(false)
    else if history[0].Decision? && history[0].id == id then Some(history[0].approved)
    else FirstSettlement(history[1..], id)
  }

  /** Once settled, a call stays settled with the same value, whatever
      happens later. */
  lemma {:induction false} SettledOnce(g: Gate, history: seq<GateEvent>, id: string)
    requires Consistent(g) && id in g.waiters && g.waiters[id].outcome.Some?
    ensures Consistent(Replay(g, history))
    ensures id in Replay(g, history).waiters && Replay(g, history).waiters[id] == g.waiters[id]
    decreases |history|
  {
    if history != [] {
      var next := match history[0]
        case Decision(d, approved) => Decide(g, d, approved)
        case Timeout(d) => if d in g.timers then TimerFires(g, d) else g;
      match history[0] {
        case Decision(d, approved) => DecisionIsolation(g, d, approved);
        case Timeout(d) => if d in g.timers { TimeoutDenies(g, d); }
      }
      SettledOnce(next, history[1..], id);
    }
  }

  /** Exactly one resolution: a freshly requested call, whose timer has not
      fired, ends up with the value of the first event naming it, and stays
      pending, listener registered, while no event has named it. */
  lemma {:induction false} ResolvesWithFirst(g: Gate, history: seq<GateEvent>, id: string)
    requires Consistent(g) && id in g.waiters && g.waiters[id].outcome.None? && id in g.timers
    ensures var g' := Replay(g, history);
      id in g'.waiters && g'.waiters[id].outcome == FirstSettlement(history, id)
      && (FirstSettlement(history, id).None? ==> id in g'.listeners)
    decreases |history|
  {
    if history != [] {
      var next := match history[0]
        case Decision(d, approved) => Decide(g, d, approved)
        case Timeout(d) => if d in g.timers then TimerFires(g, d) else g;
      match history[0]
      case Decision(d, approved) =>
        DecisionIsolation(g, d, approved);
        if d == id {
          DecisionResolves(g, id, approved);
          SettledOnce(next, history[1..], id);
        } else {
          ResolvesWithFirst(next, history[1..], id);
        }
      case Timeout(d) =>
        if d == id {
          TimeoutDenies(g, d);
          SettledOnce(next, history[1..], id);
        } else if d in g.timers {
          TimeoutDenies(g, d);
          ResolvesWithFirst(next, history[1..], id);
        } else {
          ResolvesWithFirst(next, history[1..], id);
        }
    }
  }

  /** The gate as the process holds it: listeners on the bus and pending
      timers, changed in place. */
  class ApprovalGate {
    var waiters: map<string, Waiter>
    var listeners: seq<string>
    var timers: set<string>

    function Model(): Gate
      reads this
    {
      Gate(waiters, listeners, timers)
    }

    ghost predicate Valid()
      reads this
    {
      Consistent(Model())
    }

    constructor ()
      ensures Valid() && Model() == NO_REQUESTS
    {
      waiters := map[];
      listeners := [];
      timers := {};
    }

    /** `waitForApproval(description)` with the generated id `id`. */
    method WaitForApproval(id: string, description: string) returns (event: AppEvent)
      requires Valid() && id !in waiters
      modifies this
      ensures Valid()
      ensures (Model(), event) == Request(old(Model()), id, description)
    {
      RequestEffect(Model(), id, description);
      event := ApprovalRequested(id, description);
      waiters := waiters[id := Waiter(description, None)];
      listeners := listeners + [id];
      timers := timers + {id};
    }

    /** `approval:decision` reaches the registered listeners. */
    method OnDecision(id: string, approved: bool)
      requires Valid()
      modifies this
      ensures Valid()
      ensures Model() == Decide(old(Model()), id, approved)
    {
      DecisionIsolation(Model(), id, approved);
      if id in listeners {
        listeners := Unregister(listeners, id);
        if waiters[id].outcome.None? {
          waiters := waiters[id := waiters[id].(outcome := Some(approved))];
        }
      }
    }

    /** The timer of call `id` fires. */
    method OnTimeout(id: string)
      requires Valid() && id in timers
      modifies this
      ensures Valid()
      ensures Model() == TimerFires(old(Model()), id)
    {
      TimeoutDenies(Model(), id);
      listeners := Unregister(listeners, id);
      if waiters[id].outcome.None? {
        waiters := waiters[id := waiters[id].(outcome := Some(false))];
      }
      timers := timers - {id};
    }
  }
}
