/** The step sequencer of the console front end, the `useOrchestration`
    hook: a run goes through stages 0 to 5, each entered by
    `advanceToStep` and left by `completeCurrentStep`; stage 2 reads the
    manifest's cards one by one and then shows the shortlist. The React
    state, the refs and the module-level manifest are the fields of one
    record; every timer is an explicit pending event that fires when the
    environment says so. Only the timer stored in `timeoutRef` can be
    cleared. */
module Orchestration {
  import opened Common

  /** A console line; the timestamp is not modelled. */
  datatype Entry = Entry(title: string, payload: Json)

  /** An agent card of the manifest. */
  datatype Card = Card(name: string, provider: string, capabilities: seq<string>, description: string, score: real)

  /** The manifest shown before any search result replaces it. */
  const DEFAULT_MANIFEST: seq<Card> := [
    Card("ResearchAgent", "DeepMind", ["literature_review", "data_synthesis", "hypothesis_gen"],
         "Deep research across scientific domains with citation tracking.", 0.92),
    Card("PlannerAgent", "OpenAI", ["task_decomposition", "scheduling", "resource_alloc"],
         "Breaks complex goals into actionable multi-step plans.", 0.76),
    Card("DataAgent", "Anthropic", ["data_collection", "cleaning", "transformation"],
         "Automated data pipeline construction and management.", 0.68),
    Card("SynthesisAgent", "Cohere", ["summarization", "cross_reference", "insight_gen"],
         "Synthesizes findings from multiple agent outputs.", 0.61),
    Card("ValidationAgent", "Meta AI", ["fact_checking", "consistency", "bias_detection"],
         "Validates outputs for accuracy and logical consistency.", 0.55),
    Card("ReportAgent", "Google", ["formatting", "visualization", "export"],
         "Generates structured reports and visual summaries.", 0.43)
  ]

  const DEFAULT_SHORTLIST: seq<nat> := [0, 1, 2, 3, 4]

  /** The hook's React state. */
  datatype View = View(currentStep: nat, isRunning: bool, isComplete: bool, selectedAgent: string,
                       consoleEntries: seq<Entry>, activeEdge: Option<string>, envelopeProgress: real,
                       cardReadingIndex: int, cardFlippedIndices: seq<nat>, shortlistPhase: bool,
                       shortlistedIndices: seq<nat>)

  const INITIAL_STATE: View := View(0, false, false, "ResearchAgent", [], None, 0.0, -1, [], false, [])

  const LAST_STEP: nat := 5

  /** The edge highlighted at each stage. */
  const EDGE_MAP: seq<Option<string>> := [None, Some("local-search"), None, Some("search-local"), Some("local-agent"), Some("agent-local")]

  const STEP_LABELS: seq<string> := [
    "",
    "Local Agent → Search Engine",
    "Search Engine → Agent Manifest",
    "Search Engine → Local Agent",
    "Local Agent → Agent Network",
    "Agent Network → Local Agent"
  ]

  function Strings(ss: seq<string>): (r: seq<Json>)
    ensures |r| == |ss| && forall i :: 0 <= i < |r| ==> r[i] == JStr(ss[i])
  {
    seq(|ss|, i requires 0 <= i < |ss| => JStr(ss[i]))
  }

  /** `SHORTLISTED_INDICES.map(i => AGENT_MANIFEST[i]?.name).filter(Boolean)`:
      the names of the shortlisted cards, without missing or empty ones. */
  function ShortlistNames(manifest: seq<Card>, shortlist: seq<nat>): (r: seq<string>)
    ensures |r| <= |shortlist| && forall i :: 0 <= i < |r| ==> r[i] != ""
  {
    if shortlist == [] then []
    else
      var rest := ShortlistNames(manifest, shortlist[1..]);
      var i := shortlist[0];
      if i < |manifest| && manifest[i].name != "" then [manifest[i].name] + rest else rest
  }

  /** Every reported name is the name of a shortlisted card in the manifest. */
  lemma {:induction false} ShortlistNamesFromCards(manifest: seq<Card>, shortlist: seq<nat>)
    ensures forall k :: 0 <= k < |ShortlistNames(manifest, shortlist)| ==>
      exists j :: 0 <= j < |shortlist| && shortlist[j] < |manifest|
        && ShortlistNames(manifest, shortlist)[k] == manifest[shortlist[j]].name
  {
    if shortlist != [] {
      var r := ShortlistNames(manifest, shortlist);
      var rest := ShortlistNames(manifest, shortlist[1..]);
      ShortlistNamesFromCards(manifest, shortlist[1..]);
      var i := shortlist[0];
      var d := if i < |manifest| && manifest[i].name != "" then 1 else 0;
      assert |r| == |rest| + d;
      forall k | 0 <= k < |r|
        ensures exists j :: 0 <= j < |shortlist| && shortlist[j] < |manifest| && r[k] == manifest[shortlist[j]].name
      {
        if k < d {
          assert shortlist[0] < |manifest| && r[k] == manifest[shortlist[0]].name;
        } else {
          assert r[k] == rest[k - d] && 0 <= k - d < |rest|;
          var j :| 0 <= j < |shortlist[1..]| && shortlist[1..][j] < |manifest| && rest[k - d] == manifest[shortlist[1..][j]].name;
          assert shortlist[j + 1] < |manifest| && r[k] == manifest[shortlist[j + 1]].name;
        }
      }
    }
  }

  /** When every shortlisted index names a card with a non-empty name, the
      result is exactly those names, in shortlist order. */
  lemma {:induction false} ShortlistNamesExact(manifest: seq<Card>, shortlist: seq<nat>)
    requires forall j :: 0 <= j < |shortlist| ==> shortlist[j] < |manifest| && manifest[shortlist[j]].name != ""
    ensures var r := ShortlistNames(manifest, shortlist);
      |r| == |shortlist| && forall j :: 0 <= j < |r| ==> r[j] == manifest[shortlist[j]].name
  {
    if shortlist != [] {
      ShortlistNamesExact(manifest, shortlist[1..]);
    }
  }

  /** The console entry `advanceToStep(step)` writes (`getStepPayloads`),
      read from the manifest as it is at that moment. */
  function StepEntry(step: nat, manifest: seq<Card>, shortlist: seq<nat>): (e: Entry)
    requires step <= LAST_STEP
    ensures e.title == STEP_LABELS[step]
  {
    var payload :=
      if step == 0 then JObj(map[])
      else if step == 1 then
        Obj([("type", JStr("intent_message")),
             ("payload", Obj([("intent", JStr("generate_research_plan")), ("domain", JStr("biotech"))]))])
      else if step == 2 then
        Obj([("status", JStr("scanning_manifest")), ("total_agents", JNum(|manifest| as real))])
      else if step == 3 then
        Obj([("selected_agents", JArr(Strings(ShortlistNames(manifest, shortlist)))), ("confidence", JNum(0.92))])
      else if step == 4 then
        Obj([("establish_connection", JBool(true)),
             ("agent", JStr(if |manifest| > 0 then manifest[0].name else "ResearchAgent")),
             ("context", Obj([("domain", JStr("biotech")), ("task", JStr("research_plan"))]))])
      else
        Obj([("workflow", JArr([Obj([("action", JStr("literature_review")), ("priority", JStr("high"))]),
                                Obj([("action", JStr("experiment_design")), ("priority", JStr("medium"))])])),
             ("status", JStr("ready"))]);
    Entry(STEP_LABELS[step], payload)
  }

  /** The console entry for reading a card. */
  function ReadingEntry(card: Card): Entry
  {
    Entry("Reading: " + card.name,
          Obj([("agent", JStr(card.name)), ("provider", JStr(card.provider)),
               ("capabilities", JArr(Strings(card.capabilities))), ("score", JNum(card.score))]))
  }

  /** Every shortlisted index names a card. */
  predicate ShortlistInRange(manifest: seq<Card>, shortlist: seq<nat>) {
    forall i :: 0 <= i < |shortlist| ==> shortlist[i] < |manifest|
  }

  /** The console entry that shows the shortlist, with the sixth card as the
      rejected one when there is one. */
  function ShortlistEntry(manifest: seq<Card>, shortlist: seq<nat>): Entry
    requires ShortlistInRange(manifest, shortlist)
  {
    Entry("Shortlist processing",
          Obj([("shortlisted", JArr(seq(|shortlist|, i requires 0 <= i < |shortlist| =>
                  Obj([("agent", JStr(manifest[shortlist[i]].name)), ("score", JNum(manifest[shortlist[i]].score))])))),
               ("rejected", JArr(if |manifest| > 5 then [JStr(manifest[5].name)] else []))]))
  }

  /** What a pending timer will do: enter stage 1 (`start`), begin reading
      the cards (stage 2), read the card at `index`, or advance to `step`
      (`completeCurrentStep`). */
  datatype Timer = BeginStageOne | BeginCardReading | ReadNextCard(index: nat) | AdvanceTo(step: nat)

  /** The hook: its state, `runningRef`, `currentStepRef`, `timeoutRef`, the
      pending timers by handle and the module-level manifest and shortlist. */
  datatype Hook = Hook(state: View, running: bool, stepRef: nat, timeoutRef: Option<nat>,
                       timers: map<nat, Timer>, nextTimer: nat, manifest: seq<Card>, shortlist: seq<nat>)

  const INITIAL_HOOK: Hook := Hook(INITIAL_STATE, false, 0, None, map[], 0, DEFAULT_MANIFEST, DEFAULT_SHORTLIST)

  /** Handles are fresh, the shortlist names cards, the state's running flag
      agrees with the ref and the stage is at most 5. */
  ghost predicate WellFormed(h: Hook) {
    (forall id :: id in h.timers ==> id < h.nextTimer)
    && (h.timeoutRef.Some? ==> h.timeoutRef.value < h.nextTimer)
    && ShortlistInRange(h.manifest, h.shortlist)
    && h.state.isRunning == h.running
    && h.state.currentStep <= LAST_STEP
  }

  /** `setTimeout`: a new pending timer and its handle. */
  function Arm(h: Hook, t: Timer): (r: (Hook, nat))
  {
    (h.(timers := h.timers[h.nextTimer := t], nextTimer := h.nextTimer + 1), h.nextTimer)
  }

  /** `setTimeout` whose handle is stored in `timeoutRef`. */
  function ArmTracked(h: Hook, t: Timer): Hook
  {
    var (h', id) := Arm(h, t);
    h'.(timeoutRef := Some(id))
  }

  /** `clearAllTimers`: only the timer in `timeoutRef` is cleared (the
      envelope intervals are not modelled). */
  function ClearAllTimers(h: Hook): Hook
  {
    if h.timeoutRef.Some? then h.(timers := h.timers - {h.timeoutRef.value}) else h
  }

  function Start(h: Hook): Hook
  {
    var cleared := ClearAllTimers(h);
    ArmTracked(cleared.(running := true, stepRef := 0, state := INITIAL_STATE.(isRunning := true)), BeginStageOne)
  }

  function Replay(h: Hook): Hook
  {
    ClearAllTimers(h).(running := false, state := INITIAL_STATE)
  }

  function AdvanceToStep(h: Hook, step: nat): Hook
  {
    if !h.running then h
    else if step > LAST_STEP then
      h.(running := false, state := h.state.(isRunning := false, isComplete := true, activeEdge := None, envelopeProgress := 0.0))
    else
      var entry := StepEntry(step, h.manifest, h.shortlist);
      var h1 := h.(state := h.state.(currentStep := step, activeEdge := EDGE_MAP[step], envelopeProgress := 0.0,
                                     consoleEntries := h.state.consoleEntries + [entry]));
      if step == 2 then ArmTracked(h1, BeginCardReading) else h1
  }

  /** `completeCurrentStep(response)`: logs the response, if any, and arms an
      untracked timer that advances past the step in `currentStepRef`. */
  function CompleteCurrentStep(h: Hook, response: Option<Entry>): Hook
  {
    if !h.running then h
    else
      var h1 := if response.Some? then h.(state := h.state.(consoleEntries := h.state.consoleEntries + [response.value])) else h;
      Arm(h1, AdvanceTo(h.stepRef + 1)).0
  }

  /** `readNext` with the reader's index at `index`: reads that card and
      arms the next read, or, past the last card, ends the reading and shows
      the shortlist. */
  function ReadNext(h: Hook, index: nat): Hook
    requires ShortlistInRange(h.manifest, h.shortlist)
  {
    if !h.running then h
    else if index >= |h.manifest| then
      h.(state := h.state.(cardReadingIndex := -1, shortlistPhase := true, shortlistedIndices := h.shortlist,
                           consoleEntries := h.state.consoleEntries + [ShortlistEntry(h.manifest, h.shortlist)]))
    else
      var h1 := h.(state := h.state.(cardReadingIndex := index, cardFlippedIndices := h.state.cardFlippedIndices + [index],
                                     consoleEntries := h.state.consoleEntries + [ReadingEntry(h.manifest[index])]));
      ArmTracked(h1, ReadNextCard(index + 1))
  }

  /** Pending timer `id` fires. */
  function Fire(h: Hook, id: nat): Hook
    requires id in h.timers && ShortlistInRange(h.manifest, h.shortlist)
  {
    var h0 := h.(timers := h.timers - {id});
    match h.timers[id]
    case BeginStageOne => if h0.running then AdvanceToStep(h0, 1) else h0
    case BeginCardReading => if h0.running then ReadNext(h0, 0) else h0
    case ReadNextCard(k) => ReadNext(h0, k)
    case AdvanceTo(s) => AdvanceToStep(h0, s)
  }

  /** The effect that copies `currentStep` into `currentStepRef` after a
      render. */
  function SyncStepRef(h: Hook): Hook
  {
    h.(stepRef := h.state.currentStep)
  }

  /** `setManifestData`. */
  function SetManifestData(h: Hook, cards: seq<Card>, shortlist: seq<nat>): Hook
  {
    h.(manifest := cards, shortlist := shortlist)
  }

  // ---------------------------------------------------------------------
  // Properties

  lemma InitialWellFormed()
    ensures WellFormed(INITIAL_HOOK)
  {
  }

  /** Every timer keeps the hook well-formed. */
  lemma FireWellFormed(h: Hook, id: nat)
    requires WellFormed(h) && id in h.timers
    ensures WellFormed(Fire(h, id))
  {
    var h0 := h.(timers := h.timers - {id});
    match h.timers[id]
    case BeginStageOne => AdvanceWellFormed(h0, 1);
    case BeginCardReading => ReadNextWellFormed(h0, 0);
    case ReadNextCard(k) => ReadNextWellFormed(h0, k);
    case AdvanceTo(step) => AdvanceWellFormed(h0, step);
  }

  lemma AdvanceWellFormed(h: Hook, step: nat)
    requires WellFormed(h)
    ensures WellFormed(AdvanceToStep(h, step))
  {
  }

  lemma ReadNextWellFormed(h: Hook, index: nat)
    requires WellFormed(h)
    ensures WellFormed(ReadNext(h, index))
  {
  }

  /** `replay` from any state gives the initial state with the run stopped
      and the tracked timer cleared; the manifest stays. */
  lemma ReplayResets(h: Hook)
    requires WellFormed(h)
    ensures var h' := Replay(h);
      WellFormed(h')
      && h'.state == INITIAL_STATE && !h'.running
      && (h.timeoutRef.Some? ==> h.timeoutRef.value !in h'.timers)
      && h'.manifest == h.manifest && h'.shortlist == h.shortlist
  {
  }

  /** `start` gives the initial state, running, at stage 0; the only timer it
      arms is the tracked one that enters stage 1. */
  lemma StartResets(h: Hook)
    requires WellFormed(h)
    ensures var h' := Start(h);
      WellFormed(h')
      && h'.state == INITIAL_STATE.(isRunning := true) && h'.running && h'.stepRef == 0
      && h'.timeoutRef == Some(h.nextTimer) && h.nextTimer !in h.timers
      && h'.timers == ClearAllTimers(h).timers[h.nextTimer := BeginStageOne]
  {
  }

  /** Stage 1 is entered only by the start timer, and only while the run is
      on. */
  lemma StageOneByTimer(h: Hook)
    requires WellFormed(h)
    ensures var h1 := Start(h);
      var h2 := Fire(h1, h.nextTimer);
      h2.state.currentStep == 1
      && h2.state.consoleEntries == [StepEntry(1, h.manifest, h.shortlist)]
      && h2.state.activeEdge == Some("local-search")
    ensures var h1 := Replay(Start(h));
      h.nextTimer !in h1.timers
  {
  }

  /** Past the last stage the run completes: not running, complete, no edge,
      no envelope, at the same stage and with the same console. */
  lemma AdvancePastLast(h: Hook, step: nat)
    requires WellFormed(h) && h.running && step > LAST_STEP
    ensures var h' := AdvanceToStep(h, step);
      WellFormed(h')
      && !h'.running && !h'.state.isRunning && h'.state.isComplete
      && h'.state.activeEdge == None && h'.state.envelopeProgress == 0.0
      && h'.state.currentStep == h.state.currentStep
      && h'.state.consoleEntries == h.state.consoleEntries
      && h'.timers == h.timers
  {
  }

  /** Entering a stage sets it, highlights its edge and appends exactly one
      console entry with its label; only stage 2 arms a timer, the tracked
      one that begins the card reading. */
  lemma AdvanceWithin(h: Hook, step: nat)
    requires WellFormed(h) && h.running && step <= LAST_STEP
    ensures var h' := AdvanceToStep(h, step);
      WellFormed(h') && h'.running
      && h'.state.currentStep == step
      && h'.state.activeEdge == EDGE_MAP[step]
      && h'.state.consoleEntries == h.state.consoleEntries + [StepEntry(step, h.manifest, h.shortlist)]
      && h'.state.consoleEntries[|h.state.consoleEntries|].title == STEP_LABELS[step]
      && (step == 2 ==> h'.timeoutRef == Some(h.nextTimer) && h'.timers == h.timers[h.nextTimer := BeginCardReading])
      && (step != 2 ==> h'.timers == h.timers && h'.timeoutRef == h.timeoutRef)
  {
  }

  /** When the run is off, every operation and every timer is inert: stray
      timers left from a completed or replayed run change nothing but their
      own removal. */
  lemma StrayTimersInert(h: Hook, id: nat, step: nat, response: Option<Entry>)
    requires WellFormed(h) && !h.running && id in h.timers
    ensures Fire(h, id) == h.(timers := h.timers - {id})
    ensures AdvanceToStep(h, step) == h
    ensures CompleteCurrentStep(h, response) == h
  {
  }

  /** Completing a stage logs the response exactly when one is given,
      changes nothing else of the state and arms one untracked timer that
      advances to the next stage. */
  lemma CompleteArmsNext(h: Hook, response: Option<Entry>)
    requires WellFormed(h) && h.running
    ensures var h' := CompleteCurrentStep(h, response);
      WellFormed(h')
      && h'.state == h.state.(consoleEntries := h.state.consoleEntries + (if response.Some? then [response.value] else []))
      && h'.timers == h.timers[h.nextTimer := AdvanceTo(h.stepRef + 1)]
      && h.nextTimer !in h.timers
      && h'.timeoutRef == h.timeoutRef
  {
  }

  /** With the step ref in sync, completing a stage and letting its timer
      fire moves to exactly the next stage, or completes the run after the
      last. */
  lemma CompleteThenAdvance(h: Hook, response: Option<Entry>)
    requires WellFormed(h) && h.running && h.stepRef == h.state.currentStep
    ensures var h1 := CompleteCurrentStep(h, response);
      h.nextTimer in h1.timers
      && var h2 := Fire(h1, h.nextTimer);
      (h.state.currentStep < LAST_STEP ==> h2.state.currentStep == h.state.currentStep + 1 && h2.running)
      && (h.state.currentStep == LAST_STEP ==> h2.state.isComplete && !h2.running && h2.state.currentStep == LAST_STEP)
  {
  }

  /** The advance timer of `completeCurrentStep` is not tracked, so `replay`
      and `start` do not cancel it. Armed 300 ms before the restart's 800 ms
      start timer, it fires first: the new run, still at stage 0, jumps to
      the old run's next stage, and the start timer then pulls it back to
      stage 1. */
  lemma StaleAdvanceSurvivesReplay(h: Hook, response: Option<Entry>)
    requires WellFormed(h) && h.running && h.stepRef == h.state.currentStep
    requires h.state.currentStep + 1 <= LAST_STEP
    ensures var stale := h.nextTimer;
      var h1 := Start(Replay(CompleteCurrentStep(h, response)));
      var start := h1.timeoutRef.value;
      h1.state.currentStep == 0 && h1.running
      && stale in h1.timers && start in h1.timers && stale != start
      && var h2 := Fire(h1, stale);
      h2.state.currentStep == h.state.currentStep + 1 && h2.running
      && start in h2.timers
      && Fire(h2, start).state.currentStep == 1
  {
    var stale := h.nextTimer;
    var h0 := CompleteCurrentStep(h, response);
    CompleteArmsNext(h, response);
    var r := Replay(h0);
    ReplayResets(h0);
    var h1 := Start(r);
    StartResets(r);
    StaleKept(h0, r, h1, stale, AdvanceTo(h.state.currentStep + 1));
    var start := h1.timeoutRef.value;
    var h2 := Fire(h1, stale);
    AdvanceWithin(h1.(timers := h1.timers - {stale}), h.state.currentStep + 1);
    assert start in h2.timers;
    AdvanceWithin(h2.(timers := h2.timers - {start}), 1);
  }

  /** A restart within 300 ms of completing the last stage never runs: the
      stale advance past the last stage completes the new run at stage 0
      and stops it, and the start timer then finds it not running. */
  lemma StaleEndsNewRun(h: Hook, response: Option<Entry>)
    requires WellFormed(h) && h.running && h.stepRef == h.state.currentStep
    requires h.state.currentStep == LAST_STEP
    ensures var stale := h.nextTimer;
      var h1 := Start(Replay(CompleteCurrentStep(h, response)));
      var start := h1.timeoutRef.value;
      h1.state.currentStep == 0 && h1.running
      && stale in h1.timers && start in h1.timers && stale != start
      && var h2 := Fire(h1, stale);
      h2.state.isComplete && !h2.running && h2.state.currentStep == 0
      && start in h2.timers
      && Fire(h2, start).state.currentStep == 0 && !Fire(h2, start).running
  {
    var stale := h.nextTimer;
    var h0 := CompleteCurrentStep(h, response);
    CompleteArmsNext(h, response);
    var r := Replay(h0);
    ReplayResets(h0);
    var h1 := Start(r);
    StartResets(r);
    StaleKept(h0, r, h1, stale, AdvanceTo(LAST_STEP + 1));
    var h2 := Fire(h1, stale);
    AdvancePastLast(h1.(timers := h1.timers - {stale}), LAST_STEP + 1);
    FireWellFormed(h1, stale);
    StrayTimersInert(h2, h1.timeoutRef.value, 0, None);
  }

  /** The start timer of a fresh run enters stage 1 and leaves the other
      timers pending. */
  lemma StartTimerFires(h1: Hook, other: nat, t: Timer)
    requires WellFormed(h1) && h1.running && h1.timeoutRef.Some?
    requires h1.timeoutRef.value in h1.timers && h1.timers[h1.timeoutRef.value] == BeginStageOne
    requires other in h1.timers && other != h1.timeoutRef.value && h1.timers[other] == t
    ensures var h2 := Fire(h1, h1.timeoutRef.value);
      WellFormed(h2) && h2.running && h2.state.currentStep == 1 && other in h2.timers && h2.timers[other] == t
  {
    AdvanceWithin(h1.(timers := h1.timers - {h1.timeoutRef.value}), 1);
  }

  /** The untracked timer `stale` outlives a replay and a restart. */
  lemma StaleKept(h0: Hook, r: Hook, h1: Hook, stale: nat, next: Timer)
    requires WellFormed(h0) && stale in h0.timers && h0.timers[stale] == next
    requires h0.timeoutRef.Some? ==> h0.timeoutRef.value != stale
    requires r == Replay(h0) && h1 == Start(r)
    ensures h1.timeoutRef == Some(h0.nextTimer) && h0.nextTimer != stale
    ensures stale in h1.timers && h1.timers[stale] == next
    ensures h1.running && h1.state.currentStep == 0 && WellFormed(h1)
  {
  }

  // ---------------------------------------------------------------------
  // The card reading of stage 2

  /** The reader is about to read card `k`: the tracked timer is pending and
      will read it. */
  ghost predicate ReadingAt(h: Hook, k: nat) {
    h.running && h.timeoutRef.Some? && h.timeoutRef.value in h.timers
    && h.timers[h.timeoutRef.value] == ReadNextCard(k) && k <= |h.manifest|
  }

  /** The indices `lo` up to `hi`. */
  function Range(lo: nat, hi: nat): (r: seq<nat>)
    requires lo <= hi
    ensures |r| == hi - lo && forall i :: 0 <= i < |r| ==> r[i] == lo + i
  {
    seq(hi - lo, i requires 0 <= i < hi - lo => lo + i)
  }

  /** The "Reading:" entries of the `n` cards from card `k` on. */
  function ReadingEntries(cards: seq<Card>, k: nat, n: nat): (r: seq<Entry>)
    requires k + n <= |cards|
    ensures |r| == n && forall i :: 0 <= i < n ==> r[i] == ReadingEntry(cards[k + i])
  {
    seq(n, i requires 0 <= i < n => ReadingEntry(cards[k + i]))
  }

  /** Stage 2's first timer starts the reading at card 0 (or shows the
      shortlist at once for an empty manifest). */
  lemma ReadingBegins(h: Hook, id: nat)
    requires WellFormed(h) && h.running && id in h.timers && h.timers[id] == BeginCardReading
    ensures var h' := Fire(h, id);
      WellFormed(h')
      && (|h.manifest| > 0 ==>
            ReadingAt(h', 1)
            && h'.state == h.state.(cardReadingIndex := 0, cardFlippedIndices := h.state.cardFlippedIndices + [0],
                                    consoleEntries := h.state.consoleEntries + [ReadingEntry(h.manifest[0])]))
      && (|h.manifest| == 0 ==> h'.state.shortlistPhase && h'.state.cardReadingIndex == -1)
  {
  }

  /** Reading one card: it becomes the one being read, is flipped, gets its
      console entry, and the next read is armed. */
  lemma ReadingStep(h: Hook, k: nat)
    requires WellFormed(h) && ReadingAt(h, k) && k < |h.manifest|
    ensures var h' := Fire(h, h.timeoutRef.value);
      WellFormed(h') && ReadingAt(h', k + 1)
      && h'.state == h.state.(cardReadingIndex := k, cardFlippedIndices := h.state.cardFlippedIndices + [k],
                              consoleEntries := h.state.consoleEntries + [ReadingEntry(h.manifest[k])])
      && h'.manifest == h.manifest && h'.shortlist == h.shortlist
  {
  }

  /** The hook after `n` more cards are read from card `k` on. */
  ghost function ReadCards(h: Hook, k: nat, n: nat): Hook
    requires WellFormed(h) && ReadingAt(h, k) && k + n <= |h.manifest|
    decreases n
  {
    if n == 0 then h
    else
      ReadingStep(h, k);
      ReadCards(Fire(h, h.timeoutRef.value), k + 1, n - 1)
  }

  /** After `n` reads from card `k`: cards `k` to `k + n - 1` are flipped in
      order, each with one "Reading:" entry, the last one is being read, and
      the stage is unchanged. */
  lemma {:induction false} ReadCardsEffect(h: Hook, k: nat, n: nat)
    requires WellFormed(h) && ReadingAt(h, k) && k + n <= |h.manifest|
    ensures var h' := ReadCards(h, k, n);
      WellFormed(h') && ReadingAt(h', k + n)
      && h'.manifest == h.manifest && h'.shortlist == h.shortlist
      && h'.state.cardFlippedIndices == h.state.cardFlippedIndices + Range(k, k + n)
      && h'.state.consoleEntries == h.state.consoleEntries + ReadingEntries(h.manifest, k, n)
      && h'.state.cardReadingIndex == (if n == 0 then h.state.cardReadingIndex else k + n - 1)
      && h'.state.currentStep == h.state.currentStep
      && h'.state.shortlistPhase == h.state.shortlistPhase
    decreases n
  {
    if n > 0 {
      var h1 := Fire(h, h.timeoutRef.value);
      ReadCardsEffect(h1, k + 1, n - 1);
      ReadCardsFirst(h, k, n);
      ReadingAppends(h.state.cardFlippedIndices, h.state.consoleEntries, h.manifest, k, n);
    }
  }

  /** `n` reads are one read followed by `n - 1` more. */
  lemma ReadCardsFirst(h: Hook, k: nat, n: nat)
    requires WellFormed(h) && ReadingAt(h, k) && k + n <= |h.manifest| && n > 0
    ensures var h1 := Fire(h, h.timeoutRef.value);
      WellFormed(h1) && ReadingAt(h1, k + 1) && h1.manifest == h.manifest && h1.shortlist == h.shortlist
      && h1.state.cardFlippedIndices == h.state.cardFlippedIndices + [k]
      && h1.state.consoleEntries == h.state.consoleEntries + [ReadingEntry(h.manifest[k])]
      && h1.state.cardReadingIndex == k
      && h1.state.currentStep == h.state.currentStep
      && h1.state.shortlistPhase == h.state.shortlistPhase
    ensures ReadCards(h, k, n) == ReadCards(Fire(h, h.timeoutRef.value), k + 1, n - 1)
  {
    ReadingStep(h, k);
  }

  /** One read followed by `n - 1` more is `n` reads. */
  lemma ReadingAppends(flipped: seq<nat>, entries: seq<Entry>, cards: seq<Card>, k: nat, n: nat)
    requires 0 < n && k + n <= |cards|
    ensures (flipped + [k]) + Range(k + 1, k + n) == flipped + Range(k, k + n)
    ensures (entries + [ReadingEntry(cards[k])]) + ReadingEntries(cards, k + 1, n - 1)
         == entries + ReadingEntries(cards, k, n)
  {
    assert Range(k, k + n) == [k] + Range(k + 1, k + n);
    assert ReadingEntries(cards, k, n) == [ReadingEntry(cards[k])] + ReadingEntries(cards, k + 1, n - 1);
  }

  /** Once every card is read, the next firing ends the reading and shows
      the shortlist, and arms nothing: stage 2 does not advance by
      itself. */
  lemma ShortlistShown(h: Hook)
    requires WellFormed(h) && ReadingAt(h, |h.manifest|)
    ensures var h' := Fire(h, h.timeoutRef.value);
      WellFormed(h')
      && h'.state == h.state.(cardReadingIndex := -1, shortlistPhase := true, shortlistedIndices := h.shortlist,
                              consoleEntries := h.state.consoleEntries + [ShortlistEntry(h.manifest, h.shortlist)])
      && h'.timers == h.timers - {h.timeoutRef.value}
  {
  }

  /** The hook as the component holds it: state and refs, changed in
      place. */
  class Orchestrator {
    var state: View
    var running: bool
    var stepRef: nat
    var timeoutRef: Option<nat>
    var timers: map<nat, Timer>
    var nextTimer: nat
    /** `AGENT_MANIFEST` and `SHORTLISTED_INDICES`. */
    var manifest: seq<Card>
    var shortlist: seq<nat>

    function Model(): Hook
      reads this
    {
      Hook(state, running, stepRef, timeoutRef, timers, nextTimer, manifest, shortlist)
    }

    ghost predicate Valid()
      reads this
    {
      WellFormed(Model())
    }

    constructor ()
      ensures Valid() && Model() == INITIAL_HOOK
    {
      state := INITIAL_STATE;
      running := false;
      stepRef := 0;
      timeoutRef := None;
      timers := map[];
      nextTimer := 0;
      manifest := DEFAULT_MANIFEST;
      shortlist := DEFAULT_SHORTLIST;
    }

    method ClearAll()
      requires Valid()
      modifies this
      ensures Valid() && Model() == ClearAllTimers(old(Model()))
    {
      if timeoutRef.Some? {
        timers := timers - {timeoutRef.value};
      }
    }

    method SetTimeout(t: Timer) returns (id: nat)
      requires Valid()
      modifies this
      ensures Valid() && (Model(), id) == Arm(old(Model()), t)
    {
      id := nextTimer;
      timers := timers[id := t];
      nextTimer := nextTimer + 1;
    }

    method DoStart()
      requires Valid()
      modifies this
      ensures Valid() && Model() == Start(old(Model()))
    {
      ClearAll();
      running := true;
      stepRef := 0;
      state := INITIAL_STATE.(isRunning := true);
      var id := SetTimeout(BeginStageOne);
      timeoutRef := Some(id);
    }

    method DoReplay()
      requires Valid()
      modifies this
      ensures Valid() && Model() == Replay(old(Model()))
    {
      ClearAll();
      running := false;
      state := INITIAL_STATE;
    }

    method DoAdvanceToStep(step: nat)
      requires Valid()
      modifies this
      ensures Valid() && Model() == AdvanceToStep(old(Model()), step)
    {
      if !running {
        return;
      }
      if step > LAST_STEP {
        running := false;
        state := state.(isRunning := false, isComplete := true, activeEdge := None, envelopeProgress := 0.0);
        return;
      }
      var entry := StepEntry(step, manifest, shortlist);
      state := state.(currentStep := step, activeEdge := EDGE_MAP[step], envelopeProgress := 0.0,
                      consoleEntries := state.consoleEntries + [entry]);
      if step == 2 {
        var id := SetTimeout(BeginCardReading);
        timeoutRef := Some(id);
      }
    }

    method DoCompleteCurrentStep(response: Option<Entry>)
      requires Valid()
      modifies this
      ensures Valid() && Model() == CompleteCurrentStep(old(Model()), response)
    {
      if !running {
        return;
      }
      var step := stepRef;
      if response.Some? {
        state := state.(consoleEntries := state.consoleEntries + [response.value]);
      }
      var _ := SetTimeout(AdvanceTo(step + 1));
    }

    method DoReadNext(index: nat)
      requires Valid()
      modifies this
      ensures Valid() && Model() == ReadNext(old(Model()), index)
    {
      if !running {
        return;
      }
      if index >= |manifest| {
        state := state.(cardReadingIndex := -1);
        state := state.(shortlistPhase := true, shortlistedIndices := shortlist,
                        consoleEntries := state.consoleEntries + [ShortlistEntry(manifest, shortlist)]);
        return;
      }
      var card := manifest[index];
      state := state.(cardReadingIndex := index, cardFlippedIndices := state.cardFlippedIndices + [index],
                      consoleEntries := state.consoleEntries + [ReadingEntry(card)]);
      var id := SetTimeout(ReadNextCard(index + 1));
      timeoutRef := Some(id);
    }

    /** Pending timer `id` fires. */
    method FireTimer(id: nat)
      requires Valid() && id in timers
      modifies this
      ensures Valid() && Model() == Fire(old(Model()), id)
    {
      var t := timers[id];
      timers := timers - {id};
      match t {
        case BeginStageOne =>
          if running {
            DoAdvanceToStep(1);
          }
        case BeginCardReading =>
          if running {
            DoReadNext(0);
          }
        case ReadNextCard(k) =>
          DoReadNext(k);
        case AdvanceTo(s) =>
          DoAdvanceToStep(s);
      }
    }

    method SyncRef()
      requires Valid()
      modifies this
      ensures Valid() && Model() == SyncStepRef(old(Model()))
    {
      stepRef := state.currentStep;
    }

    method DoSetManifestData(cards: seq<Card>, indices: seq<nat>)
      requires Valid() && ShortlistInRange(cards, indices)
      modifies this
      ensures Valid() && Model() == SetManifestData(old(Model()), cards, indices)
    {
      manifest := cards;
      shortlist := indices;
    }
  }
}
