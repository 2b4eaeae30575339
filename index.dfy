/** The console page: it turns the backend's `node:log` events, received
    over the WebSocket, into step-tagged entries of a FIFO queue, and feeds
    the queue to the sequencer one head at a time, in step with the stage
    on screen. A render is an explicit event: the page remembers the state
    of the last render, which is what its callbacks and effects see, and an
    effect reruns only when one of its dependencies differs from the
    previous render's. */
module ConsolePage {
  import opened Common
  import opened Text
  import opened Orchestration

  /** An entry of `eventQueueRef`. */
  datatype QueuedStep = QueuedStep(step: nat, title: string, payload: Json)

  /** The page: the sequencer, the queue, the state of the last render and
      whether the three-second stage-2 fallback timer is pending. */
  datatype Page = Page(hook: Hook, queue: seq<QueuedStep>, rendered: View, fallbackArmed: bool)

  const INITIAL_PAGE: Page := Page(INITIAL_HOOK, [], INITIAL_STATE, false)

  /** Stage 2 with the shortlist on screen, in a run that is still going. */
  predicate AtShortlist(v: View) {
    v.shortlistPhase && v.isRunning && !v.isComplete && v.currentStep == 2
  }

  /** The condition under which the fallback effect arms its timer. */
  predicate FallbackWanted(queue: seq<QueuedStep>, v: View) {
    |queue| == 0 && AtShortlist(v)
  }

  /** The sequencer is well-formed and a pending fallback belongs to a
      render at the shortlist of stage 2. */
  ghost predicate PageWellFormed(p: Page) {
    WellFormed(p.hook) && (p.fallbackArmed ==> AtShortlist(p.rendered))
  }

  // ---------------------------------------------------------------------
  // Incoming events

  /** `enqueueStep`: pushes the entry and starts a run if the last render
      showed none running. */
  function Enqueue(p: Page, item: QueuedStep): Page
  {
    p.(queue := p.queue + [item], hook := if p.rendered.isRunning then p.hook else Start(p.hook))
  }

  /** `{ key: v }` as an object member, left out when `v` is undefined. */
  function Member(key: string, v: Option<Json>): seq<(string, Json)>
  {
    if v.Some? then [(key, v.value)] else []
  }

  /** `payload?.key`. */
  function Sub(payload: Option<Json>, key: string): Option<Json>
  {
    if payload.Some? then Field(payload.value, key) else None
  }

  /** A value used as text: a string is itself, anything else is what
      `render` (JavaScript's `String`) makes of it, `None` being
      `undefined`. */
  function AsText(v: Option<Json>, render: Option<Json> -> string): string
  {
    if v.Some? && v.value.JStr? then v.value.s else render(v)
  }

  const DEFAULT_PROVIDER: string := "AgentNetwork"
  const DEFAULT_DESCRIPTION: string := "Agent discovered via AgentHub search."

  /** The score of the `index`-th match when it carries no numeric
      confidence: 0.9 less 0.1 per rank, but at least 0.3. */
  function RankScore(index: nat): (r: real)
    ensures 0.3 <= r <= 0.9
    ensures index <= 6 ==> r == 0.9 - (index as real) * 0.1
    ensures index >= 6 ==> r == 0.3
  {
    var s := 0.9 - (index as real) * 0.1;
    if s < 0.3 then 0.3 else s
  }

  /** The card built from the `index`-th element of `matches_detail`. */
  function DetailCard(m: Json, index: nat, render: Option<Json> -> string): Card
  {
    var tags := Field(m, "tags");
    var provider :=
      if tags.Some? && tags.value.JArr? && |tags.value.items| > 0 && tags.value.items[0] != JNull
      then AsText(Some(tags.value.items[0]), render) else DEFAULT_PROVIDER;
    var caps := Field(m, "capabilities");
    var capabilities :=
      if caps.Some? && caps.value.JArr?
      then seq(|caps.value.items|, i requires 0 <= i < |caps.value.items| => AsText(Some(caps.value.items[i]), render))
      else [];
    var description := Field(m, "description");
    var reasoning := Field(m, "reasoning");
    var text :=
      if description.Some? && Truthy(description.value) then AsText(description, render)
      else if reasoning.Some? && Truthy(reasoning.value) then AsText(reasoning, render)
      else DEFAULT_DESCRIPTION;
    var confidence := Field(m, "confidence");
    var score := if confidence.Some? && confidence.value.JNum? then confidence.value.n else RankScore(index);
    Card(AsText(Field(m, "agent_id"), render), provider, capabilities, text, score)
  }

  function DetailCards(details: seq<Json>, render: Option<Json> -> string): (r: seq<Card>)
    ensures |r| == |details|
  {
    seq(|details|, i requires 0 <= i < |details| => DetailCard(details[i], i, render))
  }

  const SHORTLIST_SIZE: nat := 5

  /** The shortlist of a fresh manifest: its first five indices, or all of
      them when there are fewer. */
  function FirstIndices(n: nat): (r: seq<nat>)
    ensures |r| == (if n < SHORTLIST_SIZE then n else SHORTLIST_SIZE)
    ensures forall i :: 0 <= i < |r| ==> r[i] == i
  {
    Range(0, if n < SHORTLIST_SIZE then n else SHORTLIST_SIZE)
  }

  const REPLY_LENGTH: nat := 140
  const DEFAULT_REPLY: string := "Agent replied."

  /** The entry of a `search_hub` event. */
  function SearchStep(payload: Option<Json>): QueuedStep
  {
    QueuedStep(1, STEP_LABELS[1], Obj([("type", JStr("intent_message"))] + Member("payload", payload)))
  }

  /** The entries of a `search_hub_result` event, with the number of agents
      and the matched names it reports. */
  function ManifestStep(total: Json, selected: seq<Json>): QueuedStep
  {
    QueuedStep(2, STEP_LABELS[2], Obj([("status", JStr("scanning_manifest")), ("total_agents", total), ("matches", JArr(selected))]))
  }

  function SelectionStep(selected: seq<Json>): QueuedStep
  {
    QueuedStep(3, STEP_LABELS[3], Obj([("selected_agents", JArr(selected)), ("confidence", JNum(if |selected| > 0 then 0.92 else 0.5))]))
  }

  /** The entry of a `netagent_request` event. */
  function RequestStep(target: Option<Json>, payload: Option<Json>): QueuedStep
  {
    QueuedStep(4, STEP_LABELS[4], Obj([("establish_connection", JBool(true))] + Member("agent", target) + Member("context", payload)))
  }

  /** The entry of a `netagent_reply` event, whose workflow action is the
      given text. */
  function ReplyStep(action: string): QueuedStep
  {
    QueuedStep(5, STEP_LABELS[5], Obj([("workflow", JArr([Obj([("action", JStr(action)), ("priority", JStr("high"))])])),
                                       ("status", JStr("ready"))]))
  }

  /** The text of the reply: `String(payload?.reply ?? "Agent replied.")`
      cut to 140 characters. */
  function ReplyAction(payload: Option<Json>, render: Option<Json> -> string): string
  {
    Take(AsText(Some(OrElse(Sub(payload, "reply"), JStr(DEFAULT_REPLY))), render), REPLY_LENGTH)
  }

  /** A `search_hub_result` event with these match details: a fresh manifest
      when there are details, then stages 2 and 3. */
  function OnSearchResult(p: Page, payload: Option<Json>, details: seq<Json>, render: Option<Json> -> string): Page
  {
    var selected := ArrayOrEmpty(Sub(payload, "matches"));
    var p1 := if |details| > 0 then p.(hook := SetManifestData(p.hook, DetailCards(details, render), FirstIndices(|details|))) else p;
    var total := OrElse(Sub(payload, "results_count"), JNum(|p1.hook.manifest| as real));
    Enqueue(Enqueue(p1, ManifestStep(total, selected)), SelectionStep(selected))
  }

  /** The WebSocket delivers `message`: `None` when it is not JSON. A `null`
      event, or a `null` among the match details, makes the handler throw,
      which the handler's `catch` swallows. */
  function OnMessage(p: Page, message: Option<Json>, render: Option<Json> -> string): Page
  {
    if message.None? || message.value == JNull then p
    else
      var event := message.value;
      var action := Field(event, "action");
      var payload := Field(event, "payload");
      if action == Some(JStr("search_hub")) then Enqueue(p, SearchStep(payload))
      else if action == Some(JStr("search_hub_result")) then
        var details := ArrayOrEmpty(Sub(payload, "matches_detail"));
        if JNull in details then p else OnSearchResult(p, payload, details, render)
      else if action == Some(JStr("netagent_request")) then Enqueue(p, RequestStep(Field(event, "target"), payload))
      else if action == Some(JStr("netagent_reply")) then Enqueue(p, ReplyStep(ReplyAction(payload, render)))
      else p
  }

  // ---------------------------------------------------------------------
  // Renders and timers

  /** The queue effect: consumes the head when the run is going, the head's
      step is the stage on screen and, for stage 2, the shortlist is shown;
      the head's title and payload complete the stage. */
  function ProcessQueue(h: Hook, queue: seq<QueuedStep>, v: View): (Hook, seq<QueuedStep>)
  {
    if !v.isRunning || v.isComplete || queue == [] then (h, queue)
    else if queue[0].step != v.currentStep then (h, queue)
    else if queue[0].step == 2 && !v.shortlistPhase then (h, queue)
    else (CompleteCurrentStep(h, Some(Entry(queue[0].title, queue[0].payload))), queue[1..])
  }

  /** Whether the queue effect's dependencies differ between two renders. */
  predicate QueueDepsChanged(prev: View, v: View) {
    prev.isRunning != v.isRunning || prev.isComplete != v.isComplete
    || prev.currentStep != v.currentStep || prev.shortlistPhase != v.shortlistPhase
  }

  /** A render with the sequencer's current state. The effects run in
      declaration order: the step ref is synced when the stage changed, the
      queue effect reruns when its dependencies changed, and the fallback
      effect, which also depends on the console, clears its pending timer
      and rearms it when wanted. */
  function Render(p: Page): Page
  {
    var v := p.hook.state;
    var prev := p.rendered;
    var h0 := if v.currentStep != prev.currentStep then SyncStepRef(p.hook) else p.hook;
    var queueDeps := QueueDepsChanged(prev, v);
    var (h1, queue) := if queueDeps then ProcessQueue(h0, p.queue, v) else (h0, p.queue);
    var armed := if queueDeps || v.consoleEntries != prev.consoleEntries then FallbackWanted(queue, v) else p.fallbackArmed;
    Page(h1, queue, v, armed)
  }

  /** A pending timer of the sequencer fires. */
  function HookTimerFires(p: Page, id: nat): Page
    requires id in p.hook.timers && WellFormed(p.hook)
  {
    p.(hook := Fire(p.hook, id))
  }

  /** The response the fallback completes stage 2 with: the first five cards
      of the manifest as it is when the timer fires. */
  function FallbackEntry(manifest: seq<Card>): Entry
  {
    var top := if |manifest| <= SHORTLIST_SIZE then manifest else manifest[..SHORTLIST_SIZE];
    Entry(STEP_LABELS[2],
          Obj([("status", JStr("manifest_scanned")),
               ("shortlisted", JArr(seq(|top|, i requires 0 <= i < |top| =>
                  Obj([("name", JStr(top[i].name)), ("score", JNum(top[i].score))]))))]))
  }

  /** The fallback timer fires. */
  function FallbackFires(p: Page): Page
    requires p.fallbackArmed
  {
    Page(CompleteCurrentStep(p.hook, Some(FallbackEntry(p.hook.manifest))), p.queue, p.rendered, false)
  }

  /** `handleReset`. */
  function HandleReset(p: Page): Page
  {
    p.(queue := [], hook := Replay(p.hook))
  }

  // ---------------------------------------------------------------------
  // Properties of the queue

  /** The queue effect consumes exactly the head, and exactly when the run
      is going, the head is tagged with the stage on screen and a stage-2
      head sees the shortlist; consuming completes the stage with the head's
      title and payload, and otherwise nothing changes. */
  lemma ProcessQueueCases(h: Hook, queue: seq<QueuedStep>, v: View)
    ensures var (h', queue') := ProcessQueue(h, queue, v);
      (queue' == queue && h' == h)
      || (queue != [] && queue' == queue[1..] && h' == CompleteCurrentStep(h, Some(Entry(queue[0].title, queue[0].payload))))
    ensures var queue' := ProcessQueue(h, queue, v).1;
      queue' != queue <==>
        v.isRunning && !v.isComplete && queue != [] && queue[0].step == v.currentStep
        && (queue[0].step == 2 ==> v.shortlistPhase)
  {
  }

  /** Head-of-line blocking: an entry behind a head that does not match the
      stage on screen is never consumed, whatever it is. */
  lemma HeadBlocksQueue(h: Hook, head: QueuedStep, rest: seq<QueuedStep>, v: View)
    requires head.step != v.currentStep || (head.step == 2 && !v.shortlistPhase) || !v.isRunning || v.isComplete
    ensures ProcessQueue(h, [head] + rest, v) == (h, [head] + rest)
  {
  }

  /** A render removes at most the head of the queue, and only a head
      tagged with the stage on screen; the stage it completes is that
      stage, whose step ref the render has just synced. */
  lemma RenderTakesHead(p: Page)
    requires PageWellFormed(p)
    ensures var p' := Render(p);
      PageWellFormed(p')
      && p'.rendered == p.hook.state
      && (p'.queue == p.queue
          || (p.queue != [] && p'.queue == p.queue[1..] && p.queue[0].step == p.hook.state.currentStep
              && p.hook.running
              && p'.hook.timers == p.hook.timers[p.hook.nextTimer := AdvanceTo(p'.hook.stepRef + 1)]))
      && (p.hook.state.currentStep != p.rendered.currentStep ==> p'.hook.stepRef == p.hook.state.currentStep)
  {
    var v := p.hook.state;
    var h0 := if v.currentStep != p.rendered.currentStep then SyncStepRef(p.hook) else p.hook;
    if QueueDepsChanged(p.rendered, v) {
      ProcessQueueCases(h0, p.queue, v);
    }
  }

  // ---------------------------------------------------------------------
  // Properties of the incoming events

  /** The steps each `node:log` action enqueues, in order. */
  function ActionSteps(action: Option<Json>): seq<nat>
  {
    match action
    case Some(JStr(a)) =>
      if a == "search_hub" then [1]
      else if a == "search_hub_result" then [2, 3]
      else if a == "netagent_request" then [4]
      else if a == "netagent_reply" then [5]
      else []
    case _ => []
  }

  function Steps(items: seq<QueuedStep>): (r: seq<nat>)
    ensures |r| == |items|
  {
    seq(|items|, i requires 0 <= i < |items| => items[i].step)
  }

  /** Whether the handler throws on `event`: a `null` event, or a search
      result with a `null` match detail. */
  predicate Throws(event: Json) {
    event == JNull
    || (Field(event, "action") == Some(JStr("search_hub_result"))
        && JNull in ArrayOrEmpty(Sub(Field(event, "payload"), "matches_detail")))
  }

  /** Enqueueing appends the entry and touches neither the manifest nor
      the render. */
  lemma EnqueueQueue(p: Page, item: QueuedStep)
    ensures var p' := Enqueue(p, item);
      p'.queue == p.queue + [item] && p'.rendered == p.rendered && p'.fallbackArmed == p.fallbackArmed
      && p'.hook.manifest == p.hook.manifest && p'.hook.shortlist == p.hook.shortlist
  {
  }

  /** Enqueueing starts a run exactly when the last render showed none. */
  lemma EnqueueStarts(p: Page, item: QueuedStep)
    requires PageWellFormed(p)
    ensures var p' := Enqueue(p, item);
      PageWellFormed(p')
      && (p.rendered.isRunning ==> p'.hook == p.hook)
      && (!p.rendered.isRunning ==> p'.hook.running && p'.hook.state == INITIAL_STATE.(isRunning := true) && p'.hook.stepRef == 0)
  {
    StartResets(p.hook);
  }

  /** A search result enqueues stages 2 and 3, in that order, and replaces
      the manifest exactly when it has match details. */
  lemma SearchResultEffect(p: Page, payload: Option<Json>, details: seq<Json>, render: Option<Json> -> string)
    ensures var p' := OnSearchResult(p, payload, details, render);
      var selected := ArrayOrEmpty(Sub(payload, "matches"));
      var total := OrElse(Sub(payload, "results_count"), JNum((if |details| > 0 then |details| else |p.hook.manifest|) as real));
      p'.queue == p.queue + [ManifestStep(total, selected), SelectionStep(selected)]
      && (|details| > 0 ==> p'.hook.manifest == DetailCards(details, render) && p'.hook.shortlist == FirstIndices(|details|))
      && (|details| == 0 ==> p'.hook.manifest == p.hook.manifest && p'.hook.shortlist == p.hook.shortlist)
  {
    var selected := ArrayOrEmpty(Sub(payload, "matches"));
    var p1 := if |details| > 0 then p.(hook := SetManifestData(p.hook, DetailCards(details, render), FirstIndices(|details|))) else p;
    var total := OrElse(Sub(payload, "results_count"), JNum(|p1.hook.manifest| as real));
    var p2 := Enqueue(p1, ManifestStep(total, selected));
    EnqueueQueue(p1, ManifestStep(total, selected));
    EnqueueQueue(p2, SelectionStep(selected));
    assert (p.queue + [ManifestStep(total, selected)]) + [SelectionStep(selected)]
        == p.queue + [ManifestStep(total, selected), SelectionStep(selected)];
  }

  /** Every entry carries a stage number and that stage's label. */
  predicate Labelled(items: seq<QueuedStep>) {
    forall i :: 0 <= i < |items| ==> items[i].step <= LAST_STEP && items[i].title == STEP_LABELS[items[i].step]
  }

  /** The steps a message adds: those of its action, and none for a message
      that is not JSON or one the handler throws on. */
  function MessageSteps(message: Option<Json>): seq<nat>
  {
    if message.None? || Throws(message.value) then [] else ActionSteps(Field(message.value, "action"))
  }

  /** `p'` is `p` with labelled entries of the stages `steps` appended to
      its queue. */
  predicate AppendsSteps(p: Page, p': Page, steps: seq<nat>) {
    |p.queue| <= |p'.queue| && p'.queue[..|p.queue|] == p.queue
    && Steps(p'.queue[|p.queue|..]) == steps && Labelled(p'.queue[|p.queue|..])
  }

  /** A message appends to the queue the steps of its action, each tagged
      with that stage's label, and nothing for an unknown action, a message
      that is not JSON or one the handler throws on. */
  lemma MessageEnqueues(p: Page, message: Option<Json>, render: Option<Json> -> string)
    ensures AppendsSteps(p, OnMessage(p, message, render), MessageSteps(message))
  {
    if message.None? || message.value == JNull {
      Appended(p, OnMessage(p, message, render), []);
    } else {
      var action := Field(message.value, "action");
      if action == Some(JStr("search_hub")) {
        SearchEnqueues(p, message, render);
      } else if action == Some(JStr("search_hub_result")) {
        ResultEnqueues(p, message, render);
      } else if action == Some(JStr("netagent_request")) {
        RequestEnqueues(p, message, render);
      } else if action == Some(JStr("netagent_reply")) {
        ReplyEnqueues(p, message, render);
      } else {
        OtherEnqueuesNothing(p, message, render);
      }
    }
  }

  lemma SearchEnqueues(p: Page, message: Option<Json>, render: Option<Json> -> string)
    requires message.Some? && message.value != JNull && Field(message.value, "action") == Some(JStr("search_hub"))
    ensures AppendsSteps(p, OnMessage(p, message, render), MessageSteps(message))
  {
    Appended(p, OnMessage(p, message, render), [SearchStep(Field(message.value, "payload"))]);
  }

  lemma RequestEnqueues(p: Page, message: Option<Json>, render: Option<Json> -> string)
    requires message.Some? && message.value != JNull && Field(message.value, "action") == Some(JStr("netagent_request"))
    ensures AppendsSteps(p, OnMessage(p, message, render), MessageSteps(message))
  {
    Appended(p, OnMessage(p, message, render), [RequestStep(Field(message.value, "target"), Field(message.value, "payload"))]);
  }

  lemma ReplyEnqueues(p: Page, message: Option<Json>, render: Option<Json> -> string)
    requires message.Some? && message.value != JNull && Field(message.value, "action") == Some(JStr("netagent_reply"))
    ensures AppendsSteps(p, OnMessage(p, message, render), MessageSteps(message))
  {
    Appended(p, OnMessage(p, message, render), [ReplyStep(ReplyAction(Field(message.value, "payload"), render))]);
  }

  lemma OtherEnqueuesNothing(p: Page, message: Option<Json>, render: Option<Json> -> string)
    requires message.Some? && message.value != JNull
    requires var action := Field(message.value, "action");
      action != Some(JStr("search_hub")) && action != Some(JStr("search_hub_result"))
      && action != Some(JStr("netagent_request")) && action != Some(JStr("netagent_reply"))
    ensures AppendsSteps(p, OnMessage(p, message, render), MessageSteps(message))
  {
    Appended(p, OnMessage(p, message, render), []);
  }

  /** The search-result case: stages 2 and 3, or nothing when it throws. */
  lemma ResultEnqueues(p: Page, message: Option<Json>, render: Option<Json> -> string)
    requires message.Some? && message.value != JNull && Field(message.value, "action") == Some(JStr("search_hub_result"))
    ensures AppendsSteps(p, OnMessage(p, message, render), MessageSteps(message))
  {
    var payload := Field(message.value, "payload");
    var details := ArrayOrEmpty(Sub(payload, "matches_detail"));
    if JNull in details {
      Appended(p, OnMessage(p, message, render), []);
    } else {
      SearchResultEffect(p, payload, details, render);
      var selected := ArrayOrEmpty(Sub(payload, "matches"));
      var total := OrElse(Sub(payload, "results_count"), JNum((if |details| > 0 then |details| else |p.hook.manifest|) as real));
      Appended(p, OnMessage(p, message, render), [ManifestStep(total, selected), SelectionStep(selected)]);
    }
  }

  lemma Appended(p: Page, p': Page, items: seq<QueuedStep>)
    requires p'.queue == p.queue + items && Labelled(items)
    ensures AppendsSteps(p, p', Steps(items))
  {
    assert p'.queue[..|p.queue|] == p.queue && p'.queue[|p.queue|..] == items;
  }

  /** After a message `p'` is well-formed; when the message enqueued
      something and the last render showed no run, a fresh run has started;
      otherwise the sequencer's state and timers are untouched. */
  ghost predicate StartsRunIfIdle(p: Page, p': Page) {
    PageWellFormed(p')
    && (p'.queue != p.queue && !p.rendered.isRunning ==>
          p'.hook.running && p'.hook.state == INITIAL_STATE.(isRunning := true) && p'.hook.stepRef == 0)
    && (p'.queue == p.queue || p.rendered.isRunning ==>
          p'.hook.state == p.hook.state && p'.hook.timers == p.hook.timers && p'.hook.running == p.hook.running)
  }

  /** An enqueueing message starts a run exactly when the last render showed
      none; otherwise the sequencer's state and timers are untouched. */
  lemma MessageStartsRun(p: Page, message: Option<Json>, render: Option<Json> -> string)
    requires PageWellFormed(p)
    ensures StartsRunIfIdle(p, OnMessage(p, message, render))
  {
    if message.Some? && message.value != JNull {
      var event := message.value;
      var action := Field(event, "action");
      var payload := Field(event, "payload");
      if action == Some(JStr("search_hub")) {
        EnqueueStartsRun(p, OnMessage(p, message, render), SearchStep(payload));
      } else if action == Some(JStr("search_hub_result")) {
        ResultStartsRun(p, message, render);
      } else if action == Some(JStr("netagent_request")) {
        EnqueueStartsRun(p, OnMessage(p, message, render), RequestStep(Field(event, "target"), payload));
      } else if action == Some(JStr("netagent_reply")) {
        EnqueueStartsRun(p, OnMessage(p, message, render), ReplyStep(ReplyAction(payload, render)));
      }
    }
  }

  /** One enqueued entry. */
  lemma EnqueueStartsRun(p: Page, p': Page, item: QueuedStep)
    requires PageWellFormed(p) && p' == Enqueue(p, item)
    ensures StartsRunIfIdle(p, p')
  {
    EnqueueQueue(p, item);
    EnqueueStarts(p, item);
  }

  /** A search result: two entries, after a possible new manifest, which
      leaves the sequencer's state and timers alone. */
  lemma ResultStartsRun(p: Page, message: Option<Json>, render: Option<Json> -> string)
    requires PageWellFormed(p)
    requires message.Some? && message.value != JNull && Field(message.value, "action") == Some(JStr("search_hub_result"))
    ensures StartsRunIfIdle(p, OnMessage(p, message, render))
  {
    var payload := Field(message.value, "payload");
    var details := ArrayOrEmpty(Sub(payload, "matches_detail"));
    if JNull !in details {
      var selected := ArrayOrEmpty(Sub(payload, "matches"));
      var p1 := if |details| > 0 then p.(hook := SetManifestData(p.hook, DetailCards(details, render), FirstIndices(|details|))) else p;
      assert PageWellFormed(p1);
      var total := OrElse(Sub(payload, "results_count"), JNum(|p1.hook.manifest| as real));
      var p2 := Enqueue(p1, ManifestStep(total, selected));
      EnqueueQueue(p1, ManifestStep(total, selected));
      EnqueueStarts(p1, ManifestStep(total, selected));
      EnqueueQueue(p2, SelectionStep(selected));
      EnqueueStarts(p2, SelectionStep(selected));
      assert OnMessage(p, message, render) == Enqueue(p2, SelectionStep(selected));
    }
  }

  /** The manifest is replaced only by a search result with match details,
      and then by one card per detail, in order, with the first five (or
      fewer) as the shortlist; every other message leaves it alone. */
  lemma ManifestFromMatches(p: Page, message: Option<Json>, render: Option<Json> -> string)
    ensures var p' := OnMessage(p, message, render);
      var details := if message.Some? then ArrayOrEmpty(Sub(Field(message.value, "payload"), "matches_detail")) else [];
      if message.Some? && !Throws(message.value) && Field(message.value, "action") == Some(JStr("search_hub_result")) && |details| > 0
      then
        |p'.hook.manifest| == |details|
        && (forall i :: 0 <= i < |details| ==> p'.hook.manifest[i] == DetailCard(details[i], i, render))
        && |p'.hook.shortlist| == (if |details| < 5 then |details| else 5)
        && (forall i :: 0 <= i < |p'.hook.shortlist| ==> p'.hook.shortlist[i] == i)
      else
        p'.hook.manifest == p.hook.manifest && p'.hook.shortlist == p.hook.shortlist
  {
    if message.Some? && message.value != JNull {
      var event := message.value;
      var action := Field(event, "action");
      var payload := Field(event, "payload");
      var details := ArrayOrEmpty(Sub(payload, "matches_detail"));
      if action == Some(JStr("search_hub")) {
        EnqueueQueue(p, SearchStep(payload));
      } else if action == Some(JStr("search_hub_result")) {
        if JNull !in details {
          SearchResultEffect(p, payload, details, render);
        }
      } else if action == Some(JStr("netagent_request")) {
        EnqueueQueue(p, RequestStep(Field(event, "target"), payload));
      } else if action == Some(JStr("netagent_reply")) {
        EnqueueQueue(p, ReplyStep(ReplyAction(payload, render)));
      }
    }
  }

  /** A `netagent_reply` enqueues stage 5 whose workflow action is the
      reply cut to its first 140 characters, or "Agent replied." when there
      is none. */
  lemma ReplyCut(p: Page, event: Json, render: Option<Json> -> string)
    requires Field(event, "action") == Some(JStr("netagent_reply"))
    ensures var p' := OnMessage(p, Some(event), render);
      var reply := Sub(Field(event, "payload"), "reply");
      |p'.queue| == |p.queue| + 1
      && (reply.Some? && reply.value.JStr? ==>
            p'.queue[|p.queue|] == ReplyStep(reply.value.s[..if |reply.value.s| < REPLY_LENGTH then |reply.value.s| else REPLY_LENGTH]))
      && (reply.None? || reply.value == JNull ==> p'.queue[|p.queue|] == ReplyStep(DEFAULT_REPLY))
  {
  }

  // ---------------------------------------------------------------------
  // Properties of the fallback and the reset

  /** A render arms the fallback, when its effect reruns, exactly when the
      queue left by the queue effect is empty and the shortlist of stage 2
      is on screen in a run still going. */
  lemma FallbackArming(p: Page)
    requires QueueDepsChanged(p.rendered, p.hook.state) || p.hook.state.consoleEntries != p.rendered.consoleEntries
    ensures var p' := Render(p);
      p'.fallbackArmed <==>
        |p'.queue| == 0 && p.hook.state.shortlistPhase && p.hook.state.isRunning
        && !p.hook.state.isComplete && p.hook.state.currentStep == 2
  {
  }

  /** Every event keeps the page well-formed: a pending fallback always
      belongs to a render at stage 2's shortlist. */
  lemma EventsKeepPage(p: Page, message: Option<Json>, render: Option<Json> -> string)
    requires PageWellFormed(p)
    ensures PageWellFormed(Render(p))
    ensures PageWellFormed(OnMessage(p, message, render))
    ensures PageWellFormed(HandleReset(p))
    ensures p.fallbackArmed ==> PageWellFormed(FallbackFires(p))
  {
    RenderTakesHead(p);
    MessageStartsRun(p, message, render);
  }

  /** The fallback completes stage 2 with the first five cards of the
      manifest, and advances to stage 3 once its own advance timer fires. */
  lemma FallbackCompletesStageTwo(p: Page)
    requires PageWellFormed(p) && p.fallbackArmed && p.hook.running && p.hook.stepRef == 2
    requires p.hook.state.currentStep == 2
    ensures var p' := FallbackFires(p);
      !p'.fallbackArmed
      && p'.hook.state.consoleEntries == p.hook.state.consoleEntries + [FallbackEntry(p.hook.manifest)]
      && p.hook.nextTimer in p'.hook.timers
      && Fire(p'.hook, p.hook.nextTimer).state.currentStep == 3
  {
    CompleteThenAdvance(p.hook, Some(FallbackEntry(p.hook.manifest)));
  }

  /** `handleReset` empties the queue and replays the sequencer. */
  lemma ResetEmptiesQueue(p: Page)
    requires PageWellFormed(p)
    ensures var p' := HandleReset(p);
      p'.queue == [] && p'.hook.state == INITIAL_STATE && !p'.hook.running
      && PageWellFormed(p')
  {
    ReplayResets(p.hook);
  }

  /** The page as the component holds it. */
  class Console {
    const hook: Orchestrator
    var queue: seq<QueuedStep>
    var rendered: View
    var fallbackArmed: bool

    function Model(): Page
      reads this, hook
    {
      Page(hook.Model(), queue, rendered, fallbackArmed)
    }

    ghost predicate Valid()
      reads this, hook
    {
      PageWellFormed(Model())
    }

    constructor ()
      ensures Valid() && Model() == INITIAL_PAGE && fresh(hook)
    {
      hook := new Orchestrator();
      queue := [];
      rendered := INITIAL_STATE;
      fallbackArmed := false;
    }

    method EnqueueStep(item: QueuedStep)
      requires Valid()
      modifies this, hook
      ensures Valid() && Model() == Enqueue(old(Model()), item)
    {
      queue := queue + [item];
      if !rendered.isRunning {
        hook.DoStart();
      }
    }

    method Receive(message: Option<Json>, render: Option<Json> -> string)
      requires Valid()
      modifies this, hook
      ensures Valid() && Model() == OnMessage(old(Model()), message, render)
    {
      if message.None? || message.value == JNull {
        return;
      }
      var event := message.value;
      var action := Field(event, "action");
      var payload := Field(event, "payload");
      if action == Some(JStr("search_hub")) {
        EnqueueStep(SearchStep(payload));
      } else if action == Some(JStr("search_hub_result")) {
        var details := ArrayOrEmpty(Sub(payload, "matches_detail"));
        if JNull in details {
          return;
        }
        ReceiveSearchResult(payload, details, render);
      } else if action == Some(JStr("netagent_request")) {
        EnqueueStep(RequestStep(Field(event, "target"), payload));
      } else if action == Some(JStr("netagent_reply")) {
        EnqueueStep(ReplyStep(ReplyAction(payload, render)));
      }
    }

    /** A search result whose match details hold no `null`. */
    method ReceiveSearchResult(payload: Option<Json>, details: seq<Json>, render: Option<Json> -> string)
      requires Valid()
      modifies this, hook
      ensures Valid() && Model() == OnSearchResult(old(Model()), payload, details, render)
    {
      var selected := ArrayOrEmpty(Sub(payload, "matches"));
      if |details| > 0 {
        hook.DoSetManifestData(DetailCards(details, render), FirstIndices(|details|));
      }
      var total := OrElse(Sub(payload, "results_count"), JNum(|hook.manifest| as real));
      EnqueueStep(ManifestStep(total, selected));
      EnqueueStep(SelectionStep(selected));
    }

    /** A render and the effects it reruns. */
    method RenderPage()
      requires Valid()
      modifies this, hook
      ensures Valid() && Model() == Render(old(Model()))
    {
      RenderTakesHead(Model());
      var v := hook.state;
      var prev := rendered;
      if v.currentStep != prev.currentStep {
        hook.SyncRef();
      }
      var queueDeps := QueueDepsChanged(prev, v);
      if queueDeps && v.isRunning && !v.isComplete && queue != [] && queue[0].step == v.currentStep
         && (queue[0].step != 2 || v.shortlistPhase) {
        var next := queue[0];
        queue := queue[1..];
        hook.DoCompleteCurrentStep(Some(Entry(next.title, next.payload)));
      }
      if queueDeps || v.consoleEntries != prev.consoleEntries {
        fallbackArmed := FallbackWanted(queue, v);
      }
      rendered := v;
    }

    method FireHookTimer(id: nat)
      requires Valid() && id in hook.timers
      modifies hook
      ensures Valid() && Model() == HookTimerFires(old(Model()), id)
    {
      FireWellFormed(hook.Model(), id);
      hook.FireTimer(id);
    }

    method FireFallback()
      requires Valid() && fallbackArmed
      modifies this, hook
      ensures Valid() && Model() == FallbackFires(old(Model()))
    {
      EventsKeepPage(Model(), None, _ => "");
      fallbackArmed := false;
      hook.DoCompleteCurrentStep(Some(FallbackEntry(hook.manifest)));
    }

    method Reset()
      requires Valid()
      modifies this, hook
      ensures Valid() && Model() == HandleReset(old(Model()))
    {
      queue := [];
      hook.DoReplay();
    }
  }
}
