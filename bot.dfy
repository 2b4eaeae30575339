/** The Telegram side of the assistant: the per-chat buffer objects that
    debounce incoming messages into one `agent:message_received` event, the
    `/reset` command's removal of a buffer, the `#chatid` trigger, and the
    callback handler that turns the approval buttons into
    `approval:decision` events. The message handler awaits the photo
    download, so it is two steps here, and a timer may fire between them.
    Downloads and transcriptions are inputs: a message carries the image it
    yields, if any, and the transcript its voice memo resolves to. */
module Bot {
  import opened Common
  import opened Text
  import opened Events
  import Approval

  /** The debounce delay in milliseconds. */
  const DEBOUNCE_MS: nat := 4000

  /** The separator between the parts of a flushed message. */
  const PART_SEPARATOR: string := "\n\n"

  /** The prefix of a transcribed voice memo in a flushed message. */
  const MEMO_PREFIX: string := "[Voice Memo]: "

  /** The text of a flush that carries only images. */
  const MEDIA_ONLY: string := "(User sent media)"

  // ---------------------------------------------------------------------
  // Callback data of the approval buttons

  /** The data of the two buttons sent with an approval request. */
  function ApproveData(id: string): string { "approve:" + id }
  function DenyData(id: string): string { "deny:" + id }

  /** The decision a button press emits: the data is split at `:`, the
      second part is the request id and only the action `approve` approves;
      without a non-empty second part nothing is emitted. */
  function ParseCallback(data: string): (r: Option<AppEvent>)
    ensures r.Some? ==> r.value.ApprovalDecision? && ':' !in r.value.id && r.value.id != ""
  {
    var parts := Split(data, ':');
    if |parts| < 2 || parts[1] == "" then None
    else Some(ApprovalDecision(parts[1], parts[0] == "approve"))
  }

  /** Data `action:id`, possibly followed by more `:`-separated text, gives a
      decision for `id` that approves exactly when the action is
      `approve`. */
  lemma CallbackDecision(action: string, id: string, rest: string)
    requires ':' !in action && ':' !in id && id != ""
    requires rest == "" || rest[0] == ':'
    ensures ParseCallback(action + ":" + id + rest) == Some(ApprovalDecision(id, action == "approve"))
  {
    assert action + ":" + id + rest == action + [':'] + (id + rest);
    SplitPrefix(action, id + rest, ':');
    if rest == "" {
      assert id + rest == id;
      SplitNoSep(id, ':');
    } else {
      assert id + rest == id + [':'] + rest[1..];
      SplitPrefix(id, rest[1..], ':');
    }
  }

  /** Data with no `:`, or whose first `:` is followed by nothing or by
      another `:`, emits no decision. */
  lemma CallbackIgnored(action: string, rest: string)
    requires ':' !in action
    requires rest == "" || rest[0] == ':'
    ensures ParseCallback(action) == None
    ensures ParseCallback(action + ":" + rest) == None
  {
    SplitNoSep(action, ':');
    assert action + ":" + rest == action + [':'] + rest;
    SplitPrefix(action, rest, ':');
    if rest == "" {
      SplitNoSep(rest, ':');
    } else {
      assert rest == "" + [':'] + rest[1..];
      SplitPrefix("", rest[1..], ':');
    }
  }

  /** The two buttons of a request round-trip: pressing one emits the
      decision for that request, approving exactly for the Approve button. */
  lemma ButtonsRoundTrip(id: string)
    requires ':' !in id && id != ""
    ensures ParseCallback(ApproveData(id)) == Some(ApprovalDecision(id, true))
    ensures ParseCallback(DenyData(id)) == Some(ApprovalDecision(id, false))
  {
    CallbackDecision("approve", id, "");
    assert ApproveData(id) == "approve" + ":" + id + "";
    CallbackDecision("deny", id, "");
    assert DenyData(id) == "deny" + ":" + id + "";
  }

  /** The callback handler. Data without a request id is only answered.
      Otherwise the press is answered and the request message edited, and
      only then is the decision emitted: when either Telegram call fails
      the handler stops before the emit. */
  function OnCallback(data: string, telegramFails: bool): (r: Option<AppEvent>)
    ensures r.Some? ==> !telegramFails && r.value.ApprovalDecision?
    ensures ParseCallback(data).None? ==> r.None?
  {
    var event := ParseCallback(data);
    if event.None? || telegramFails then None else event
  }

  /** Pressing a button of a pending request settles that request with the
      button's answer when the Telegram calls succeed. When they fail no
      decision is emitted: the request stays pending, and its five-minute
      timer, if it has not fired, denies it. */
  lemma ButtonSettlesRequest(g: Approval.Gate, id: string, approve: bool, telegramFails: bool)
    requires Approval.Consistent(g) && id in g.waiters && g.waiters[id].outcome.None?
    requires ':' !in id && id != ""
    ensures var event := OnCallback(if approve then ApproveData(id) else DenyData(id), telegramFails);
      if telegramFails then
        event.None?
        && (id in g.timers ==> Approval.TimerFires(g, id).waiters[id].outcome == Some(false))
      else
        event == Some(ApprovalDecision(id, approve))
        && Approval.Decide(g, event.value.id, event.value.approved).waiters[id].outcome == Some(approve)
  {
    ButtonsRoundTrip(id);
    if telegramFails {
      if id in g.timers {
        Approval.TimeoutDenies(g, id);
      }
    } else {
      Approval.DecisionResolves(g, id, approve);
    }
  }


  // ---------------------------------------------------------------------
  // Messages and buffers

  /** The `photo` field of a message: absent, present with no sizes, or
      present, with the image its download yields (none when the file has no
      path or the download fails). */
  datatype Photo = NoPhoto | NoSizes | Photo(downloaded: Option<string>)

  /** An incoming Telegram message; `voice` is the text its transcription
      resolves to when it carries a voice memo. */
  datatype Message = Message(chatId: int, text: Option<string>, caption: Option<string>, photo: Photo, voice: Option<string>)

  /** A buffer object: the chat whose handler created it, its pending flush
      timer, if any, and what has accumulated in it. A handler holds the
      object across its await, so the object outlives its removal from the
      chat map by a flush or by `/reset`. */
  datatype Buffer = Buffer(chat: int, timer: Option<nat>, textParts: seq<string>, images: seq<string>, voice: seq<string>)

  function NewBuffer(chat: int): Buffer {
    Buffer(chat, None, [], [], [])
  }

  /** Every buffer object created so far, by reference; the chat map, from
      chat id to the reference of the chat's buffer; the timers not yet fired
      or cleared, each with the chat it flushes; and the next timer handle
      and reference. */
  datatype BotState = BotState(heap: map<nat, Buffer>, buffers: map<int, nat>, live: map<nat, int>, nextTimer: nat, nextRef: nat)

  const NO_BUFFERS: BotState := BotState(map[], map[], map[], 0, 0)

  /** `chat` has a buffer in the chat map. */
  predicate HasBuffer(b: BotState, chat: int) {
    chat in b.buffers && b.buffers[chat] in b.heap
  }

  function Current(b: BotState, chat: int): Buffer
    requires HasBuffer(b, chat)
  {
    b.heap[b.buffers[chat]]
  }

  /** The chat map holds objects of their own chat, whose timer is live and
      flushes that chat; handles and references are fresh; an object's
      timer, while live, flushes the object's chat and is not the timer of
      the chat's current buffer unless the object is that buffer; text parts
      are never empty. */
  ghost predicate WellFormed(b: BotState) {
    (forall c :: c in b.buffers ==>
       b.buffers[c] in b.heap && b.heap[b.buffers[c]].chat == c
       && (b.heap[b.buffers[c]].timer.Some? ==>
             b.heap[b.buffers[c]].timer.value in b.live && b.live[b.heap[b.buffers[c]].timer.value] == c))
    && (forall t :: t in b.live ==> t < b.nextTimer)
    && (forall r :: r in b.heap ==>
          r < b.nextRef
          && (forall i :: 0 <= i < |b.heap[r].textParts| ==> b.heap[r].textParts[i] != "")
          && (b.heap[r].timer.Some? ==>
                b.heap[r].timer.value < b.nextTimer
                && (b.heap[r].timer.value in b.live ==> b.live[b.heap[r].timer.value] == b.heap[r].chat)
                && (HasBuffer(b, b.heap[r].chat) && b.buffers[b.heap[r].chat] != r ==>
                      Current(b, b.heap[r].chat).timer != b.heap[r].timer)))
  }

  /** Every live timer is the one its chat's buffer holds, so no chat has
      two. */
  ghost predicate OneTimerPerChat(b: BotState) {
    forall t :: t in b.live ==> HasBuffer(b, b.live[t]) && Current(b, b.live[t]).timer == Some(t)
  }

  /** The text `hears` compares with its trigger: the message's text, or its
      caption when it has no text. */
  function HeardText(msg: Message): Option<string> {
    if msg.text.Some? then msg.text else msg.caption
  }

  /** The trigger answered with the chat id; a message with exactly this
      text is consumed there and never reaches the message handler. */
  const CHAT_ID_TRIGGER: string := "#chatid"

  /** The message reaches the message handler, comes from the configured
      chat, compared as text, and is not a command. */
  predicate Accepted(allowedChat: string, msg: Message) {
    HeardText(msg) != Some(CHAT_ID_TRIGGER)
    && IntToString(msg.chatId) == allowedChat
    && !(msg.text.Some? && StartsWith(msg.text.value, "/"))
  }

  /** The text part a message contributes: its text if non-empty, otherwise
      its caption if non-empty. */
  function TextPart(msg: Message): (r: seq<string>)
    ensures |r| <= 1 && forall i :: 0 <= i < |r| ==> r[i] != ""
    ensures msg.text.Some? && msg.text.value != "" ==> r == [msg.text.value]
    ensures r == [] <==> (msg.text.None? || msg.text.value == "") && (msg.caption.None? || msg.caption.value == "")
  {
    if msg.text.Some? && msg.text.value != "" then [msg.text.value]
    else if msg.caption.Some? && msg.caption.value != "" then [msg.caption.value]
    else []
  }

  /** The image a message adds: the downloaded one, if any. */
  function Downloaded(msg: Message): (r: seq<string>)
    ensures |r| <= 1 && (r != [] <==> msg.photo.Photo? && msg.photo.downloaded.Some?)
  {
    if msg.photo.Photo? && msg.photo.downloaded.Some? then [msg.photo.downloaded.value] else []
  }

  /** The transcript a message adds, if it has a voice memo. */
  function Transcript(msg: Message): (r: seq<string>)
    ensures |r| <= 1 && (r != [] <==> msg.voice.Some?)
  {
    if msg.voice.Some? then [msg.voice.value] else []
  }

  /** The message handler up to the photo download. An accepted message
      gets its chat a buffer if it has none and adds its text part. A photo
      field with no sizes ends the handler there; otherwise the reference of
      the buffer is returned, for the rest of the handler once the download
      is over. */
  function Receive(b: BotState, allowedChat: string, msg: Message): (BotState, Option<nat>)
  {
    if !Accepted(allowedChat, msg) then (b, None)
    else
      var chat := msg.chatId;
      var ref := if HasBuffer(b, chat) then b.buffers[chat] else b.nextRef;
      var buf := if HasBuffer(b, chat) then b.heap[ref] else NewBuffer(chat);
      var b' := b.(heap := b.heap[ref := buf.(textParts := buf.textParts + TextPart(msg))],
                   buffers := b.buffers[chat := ref],
                   nextRef := if HasBuffer(b, chat) then b.nextRef else b.nextRef + 1);
      (b', if msg.photo.NoSizes? then None else Some(ref))
  }

  /** The rest of the handler, on the buffer object it holds: the image and
      the transcript are added to that object, even when a flush or `/reset`
      has taken it out of the chat map meanwhile; the object's timer is
      cleared and a new one armed that flushes its chat. */
  function Resume(b: BotState, ref: nat, msg: Message): BotState
    requires ref in b.heap
  {
    var buf := b.heap[ref];
    var live := if buf.timer.Some? then b.live - {buf.timer.value} else b.live;
    var t := b.nextTimer;
    b.(heap := b.heap[ref := buf.(timer := Some(t), images := buf.images + Downloaded(msg), voice := buf.voice + Transcript(msg))],
       live := live[t := buf.chat],
       nextTimer := t + 1)
  }

  /** The whole handler when no timer fires during it, as for every message
      without a photo, which has nothing to await. */
  function OnMessage(b: BotState, allowedChat: string, msg: Message): BotState
  {
    var (b', pending) := Receive(b, allowedChat, msg);
    if pending.Some? && pending.value in b'.heap then Resume(b', pending.value, msg) else b'
  }

  /** `/reset` from `chat`: ignored from another chat; when clearing the
      history table fails the buffer is kept; otherwise the chat's buffer is
      removed from the chat map. Its timer is not cleared. */
  function Reset(b: BotState, allowedChat: string, chat: int, historyDeleteFails: bool): BotState
  {
    if IntToString(chat) != allowedChat || historyDeleteFails then b
    else b.(buffers := b.buffers - {chat})
  }

  /** The transcripts as they appear in a flushed message. */
  function Memos(voice: seq<string>): (r: seq<string>)
    ensures |r| == |voice|
    ensures forall i :: 0 <= i < |r| ==> r[i] == MEMO_PREFIX + voice[i]
  {
    seq(|voice|, i requires 0 <= i < |voice| => MEMO_PREFIX + voice[i])
  }

  /** The parts of a flushed message, text parts first. */
  function FlushParts(buf: Buffer): seq<string> {
    buf.textParts + Memos(buf.voice)
  }

  function FlushText(buf: Buffer): string {
    Join(FlushParts(buf), PART_SEPARATOR)
  }

  /** `flushMessageBuffer(chat)`: no buffer, no effect; otherwise the buffer
      is taken out of the chat map first, then `agent:message_received` is
      emitted unless there is neither text nor an image. The user id is the
      configured chat. */
  function Flush(b: BotState, chat: int, userId: string): (BotState, Option<AppEvent>)
  {
    if !HasBuffer(b, chat) then (b, None)
    else
      var buf := Current(b, chat);
      var b' := b.(buffers := b.buffers - {chat});
      var text := FlushText(buf);
      if text == "" && |buf.images| == 0 then (b', None)
      else (b', Some(MessageReceived(if text == "" then MEDIA_ONLY else text, buf.images, chat, userId)))
  }

  /** Timer `t` fires: it is spent, and flushes its chat. */
  function FireTimer(b: BotState, t: nat, userId: string): (BotState, Option<AppEvent>)
    requires t in b.live
  {
    var (b', event) := Flush(b, b.live[t], userId);
    (b'.(live := b'.live - {t}), event)
  }

  // ---------------------------------------------------------------------
  // Properties of the buffers

  /** The chat of `msg` has a buffer whose text parts are the earlier ones
      followed by the message's part; every other chat keeps its buffer. */
  ghost predicate AddsTextPart(b: BotState, b': BotState, msg: Message) {
    var before := if HasBuffer(b, msg.chatId) then Current(b, msg.chatId).textParts else [];
    HasBuffer(b', msg.chatId)
    && Current(b', msg.chatId).textParts == before + TextPart(msg)
    && (forall c :: HasBuffer(b, c) && c != msg.chatId ==> HasBuffer(b', c) && Current(b', c) == Current(b, c))
    && b'.buffers.Keys == b.buffers.Keys + {msg.chatId}
  }

  /** The first step of the handler keeps the state well-formed and touches
      no timer. A message it does not accept changes nothing. An accepted one
      adds its text part to its chat's buffer, and the handler goes on, with
      that buffer, exactly when the photo field is not one without sizes. */
  lemma ReceiveEffect(b: BotState, allowedChat: string, msg: Message)
    requires WellFormed(b)
    ensures var (b', pending) := Receive(b, allowedChat, msg);
      WellFormed(b') && b'.live == b.live && b'.nextTimer == b.nextTimer
      && (forall r :: r in b.heap ==> r in b'.heap)
      && (!Accepted(allowedChat, msg) ==> b' == b && pending.None?)
      && (Accepted(allowedChat, msg) ==>
            AddsTextPart(b, b', msg)
            && (HasBuffer(b, msg.chatId) ==> Current(b', msg.chatId).timer == Current(b, msg.chatId).timer)
            && (pending.Some? <==> !msg.photo.NoSizes?)
            && (pending.Some? ==> pending.value == b'.buffers[msg.chatId]))
  {
    if Accepted(allowedChat, msg) {
      var (b', pending) := Receive(b, allowedChat, msg);
      var chat := msg.chatId;
      var ref := b'.buffers[chat];
      assert HasBuffer(b', chat);
      forall c | HasBuffer(b, c) && c != chat ensures HasBuffer(b', c) && Current(b', c) == Current(b, c) {
        assert b.heap[b.buffers[c]].chat == c;
      }
    }
  }

  /** The rest of the handler keeps the state well-formed and changes only
      the object it holds: the image and the transcript are appended, its
      old timer is cleared and a fresh one armed that flushes the object's
      chat; every other timer, object and chat map entry stays. */
  lemma ResumeEffect(b: BotState, ref: nat, msg: Message)
    requires WellFormed(b) && ref in b.heap
    ensures var b' := Resume(b, ref, msg);
      var buf := b.heap[ref];
      WellFormed(b') && b'.buffers == b.buffers
      && b'.heap[ref] == buf.(timer := Some(b.nextTimer), images := buf.images + Downloaded(msg), voice := buf.voice + Transcript(msg))
      && (forall r :: r in b.heap && r != ref ==> r in b'.heap && b'.heap[r] == b.heap[r])
      && b.nextTimer !in b.live && b'.live[b.nextTimer] == buf.chat
      && (buf.timer.Some? ==> buf.timer.value !in b'.live)
      && (forall t :: t in b.live && Some(t) != buf.timer ==> t in b'.live && b'.live[t] == b.live[t])
  {
    var b' := Resume(b, ref, msg);
    forall c | c in b'.buffers
      ensures b'.buffers[c] in b'.heap && b'.heap[b'.buffers[c]].chat == c
      ensures b'.heap[b'.buffers[c]].timer.Some? ==>
                b'.heap[b'.buffers[c]].timer.value in b'.live && b'.live[b'.heap[b'.buffers[c]].timer.value] == c
    {
      if b.buffers[c] != ref && b.heap[b.buffers[c]].timer.Some? && b.heap[ref].timer.Some? {
        assert b.heap[b.buffers[c]].timer.value in b.live;
      }
    }
  }

  /** A message from another chat, a command or `#chatid` changes nothing.
      An accepted message handled without a timer firing in between adds at
      most one text part, after the earlier ones, touches no other chat's
      buffer and keeps the state well-formed. */
  lemma MessageEffect(b: BotState, allowedChat: string, msg: Message)
    requires WellFormed(b)
    ensures var b' := OnMessage(b, allowedChat, msg);
      WellFormed(b')
      && (!Accepted(allowedChat, msg) ==> b' == b)
      && (Accepted(allowedChat, msg) ==> AddsTextPart(b, b', msg))
  {
    ReceiveEffect(b, allowedChat, msg);
    var (b1, pending) := Receive(b, allowedChat, msg);
    if pending.Some? {
      ResumeEffect(b1, pending.value, msg);
      assert Current(b1, msg.chatId) == b1.heap[pending.value];
    }
  }

  /** An accepted message with a usable photo field, handled without a
      timer firing in between, replaces the chat's timer: the old one is
      cleared, a fresh one flushing this chat is armed, every other timer
      stays; and no chat ends up with two timers. A photo field with no
      sizes leaves every timer as it was. */
  lemma TimerReplaced(b: BotState, allowedChat: string, msg: Message)
    requires WellFormed(b) && Accepted(allowedChat, msg)
    ensures var b' := OnMessage(b, allowedChat, msg);
      var prior := if HasBuffer(b, msg.chatId) then Current(b, msg.chatId).timer else None;
      HasBuffer(b', msg.chatId)
      && if msg.photo.NoSizes? then
           b'.live == b.live && Current(b', msg.chatId).timer == prior
         else
           Current(b', msg.chatId).timer == Some(b.nextTimer)
           && b.nextTimer !in b.live && b'.live[b.nextTimer] == msg.chatId
           && (prior.Some? ==> prior.value !in b'.live)
           && (forall t :: t in b.live && Some(t) != prior ==> t in b'.live && b'.live[t] == b.live[t])
           && (OneTimerPerChat(b) ==> OneTimerPerChat(b'))
  {
    ReceiveEffect(b, allowedChat, msg);
    var (b1, pending) := Receive(b, allowedChat, msg);
    if pending.Some? {
      ResumeEffect(b1, pending.value, msg);
      assert b1.heap[pending.value].chat == msg.chatId;
      if OneTimerPerChat(b) {
        ReceiveOneTimer(b, allowedChat, msg);
        ResumeOneTimer(b1, pending.value, msg);
      }
    }
  }

  /** The first step of the handler keeps every live timer its chat's. */
  lemma ReceiveOneTimer(b: BotState, allowedChat: string, msg: Message)
    requires WellFormed(b) && OneTimerPerChat(b)
    ensures OneTimerPerChat(Receive(b, allowedChat, msg).0)
  {
    ReceiveEffect(b, allowedChat, msg);
    var b' := Receive(b, allowedChat, msg).0;
    forall t | t in b'.live ensures HasBuffer(b', b'.live[t]) && Current(b', b'.live[t]).timer == Some(t) {
      assert HasBuffer(b, b.live[t]);
    }
  }

  /** Resuming on the buffer its chat still holds keeps every live timer
      its chat's. */
  lemma ResumeOneTimer(b: BotState, ref: nat, msg: Message)
    requires WellFormed(b) && OneTimerPerChat(b) && ref in b.heap
    requires HasBuffer(b, b.heap[ref].chat) && b.buffers[b.heap[ref].chat] == ref
    ensures OneTimerPerChat(Resume(b, ref, msg))
  {
    ResumeEffect(b, ref, msg);
    var b' := Resume(b, ref, msg);
    forall t | t in b'.live ensures HasBuffer(b', b'.live[t]) && Current(b', b'.live[t]).timer == Some(t) {
      if t != b.nextTimer {
        assert HasBuffer(b, b.live[t]);
      }
    }
  }

  /** The photo download is awaited before the debounce: when the chat's
      timer fires during the download, the flush emits the caption without
      the image, and the handler then adds the image to the flushed object,
      which no chat holds any more, and arms a timer for the chat although
      the chat has no buffer. The image is never emitted, and the chat is
      left with a live timer that is not its buffer's. */
  lemma DownloadRace(b: BotState, allowedChat: string, msg: Message, image: string)
    requires WellFormed(b) && Accepted(allowedChat, msg)
    requires msg.photo == Photo(Some(image)) && msg.voice.None?
    requires msg.text.None? && msg.caption.Some? && msg.caption.value != ""
    requires HasBuffer(b, msg.chatId) && Current(b, msg.chatId).timer.Some?
    ensures var chat := msg.chatId;
      var stale := Current(b, chat).timer.value;
      var (b1, pending) := Receive(b, allowedChat, msg);
      stale in b1.live && pending.Some? && HasBuffer(b1, chat)
      && var (b2, event) := FireTimer(b1, stale, allowedChat);
      event == Some(MessageReceived(FlushText(Current(b1, chat)), Current(b, chat).images, chat, allowedChat))
      && |Current(b1, chat).textParts| > 0 && Current(b1, chat).textParts[|Current(b1, chat).textParts| - 1] == msg.caption.value
      && pending.value in b2.heap
      && var b3 := Resume(b2, pending.value, msg);
      chat !in b3.buffers
      && b3.heap[pending.value].images == Current(b, chat).images + [image]
      && (forall c :: c in b3.buffers ==> b3.buffers[c] != pending.value)
      && b.nextTimer in b3.live && b3.live[b.nextTimer] == chat
      && !OneTimerPerChat(b3)
  {
    var chat := msg.chatId;
    ReceiveEffect(b, allowedChat, msg);
    var (b1, pending) := Receive(b, allowedChat, msg);
    var stale := Current(b, chat).timer.value;
    assert b1.live[stale] == chat;
    FlushEffect(b1, chat, allowedChat);
    var (b2, event) := FireTimer(b1, stale, allowedChat);
    ResumeOrphan(b2, pending.value, msg);
  }

  /** A handler that resumes on a buffer no longer in the chat map adds the
      image and the transcript to that object, which no flush reads any
      more, and arms a timer for the object's chat that is not the timer of
      the chat's buffer, if the chat has one. */
  lemma ResumeOrphan(b: BotState, ref: nat, msg: Message)
    requires WellFormed(b) && ref in b.heap
    requires forall c :: c in b.buffers ==> b.buffers[c] != ref
    ensures var b' := Resume(b, ref, msg);
      var chat := b.heap[ref].chat;
      b'.buffers == b.buffers
      && b'.heap[ref].images == b.heap[ref].images + Downloaded(msg)
      && b'.heap[ref].voice == b.heap[ref].voice + Transcript(msg)
      && b.nextTimer in b'.live && b'.live[b.nextTimer] == chat
      && (HasBuffer(b', chat) ==> Current(b', chat).timer != Some(b.nextTimer))
      && !OneTimerPerChat(b')
  {
    ResumeEffect(b, ref, msg);
    var chat := b.heap[ref].chat;
    if HasBuffer(b, chat) {
      assert b.buffers[chat] in b.heap;
    }
  }

  /** `/reset` takes the chat's buffer out of the chat map but leaves its
      timer live, so the one-timer-per-chat invariant is lost: a message
      arriving before that timer fires arms a second timer for the chat. */
  lemma ResetLeavesTimer(b: BotState, allowedChat: string, msg: Message)
    requires WellFormed(b) && Accepted(allowedChat, msg) && !msg.photo.NoSizes?
    requires HasBuffer(b, msg.chatId) && Current(b, msg.chatId).timer.Some?
    ensures var stale := Current(b, msg.chatId).timer.value;
      var b1 := Reset(b, allowedChat, msg.chatId, false);
      var b2 := OnMessage(b1, allowedChat, msg);
      msg.chatId !in b1.buffers && stale in b1.live
      && stale in b2.live && b2.live[stale] == msg.chatId
      && b.nextTimer in b2.live && b2.live[b.nextTimer] == msg.chatId
      && !OneTimerPerChat(b2)
  {
    var stale := Current(b, msg.chatId).timer.value;
    var b1 := Reset(b, allowedChat, msg.chatId, false);
    assert WellFormed(b1);
    TimerReplaced(b1, allowedChat, msg);
    assert stale != b.nextTimer;
  }

  /** Flushing a chat without a buffer changes nothing and emits nothing. */
  lemma FlushAbsent(b: BotState, chat: int, userId: string)
    requires !HasBuffer(b, chat)
    ensures Flush(b, chat, userId) == (b, None)
  {
  }

  /** Flushing a chat with a buffer takes it out of the chat map, touching
      nothing else, and emits exactly when the buffer holds a text part, a
      transcript or an image: the joined parts, or the media-only text when
      there are no parts, with the buffer's images in order. */
  lemma FlushEffect(b: BotState, chat: int, userId: string)
    requires WellFormed(b) && HasBuffer(b, chat)
    ensures var (b', event) := Flush(b, chat, userId);
      var buf := Current(b, chat);
      b'.buffers == b.buffers - {chat} && b'.heap == b.heap && b'.live == b.live
      && WellFormed(b')
      && (event.None? <==> buf.textParts == [] && buf.voice == [] && buf.images == [])
      && (event.Some? ==>
            event.value.MessageReceived? && event.value.chatId == chat && event.value.userId == userId
            && event.value.images == buf.images
            && event.value.text == (if buf.textParts == [] && buf.voice == [] then MEDIA_ONLY else FlushText(buf)))
  {
    var buf := Current(b, chat);
    var parts := FlushParts(buf);
    forall i | 0 <= i < |parts| ensures parts[i] != "" {
      if i >= |buf.textParts| {
        assert parts[i] == MEMO_PREFIX + buf.voice[i - |buf.textParts|];
      } else {
        assert b.buffers[chat] in b.heap;
      }
    }
    JoinEmpty(parts, PART_SEPARATOR);
    assert parts == [] <==> buf.textParts == [] && buf.voice == [];
  }

  /** The flushed text holds every text part, then every transcript after
      its prefix, each at its place in the join and in arrival order. */
  lemma FlushedInOrder(buf: Buffer, i: nat)
    requires i < |buf.textParts| + |buf.voice|
    ensures var parts := FlushParts(buf);
      var at := JoinOffset(parts, PART_SEPARATOR, i);
      at + |parts[i]| <= |FlushText(buf)|
      && FlushText(buf)[at..at + |parts[i]|] == (if i < |buf.textParts| then buf.textParts[i] else MEMO_PREFIX + buf.voice[i - |buf.textParts|])
  {
    JoinSlice(FlushParts(buf), PART_SEPARATOR, i);
  }

  /** The wanted property of the handler with the debounce: a burst of
      messages with no timer firing in between is flushed once, by the timer
      of the last message, as one event whose text joins their text parts in
      order. Here, two text messages into a chat without a buffer. */
  lemma DebounceMerges(b: BotState, allowedChat: string, m1: Message, m2: Message)
    requires WellFormed(b) && m1.chatId !in b.buffers
    requires Accepted(allowedChat, m1) && Accepted(allowedChat, m2) && m1.chatId == m2.chatId
    requires m1.photo.NoPhoto? && m2.photo.NoPhoto? && m1.voice.None? && m2.voice.None?
    requires m1.text.Some? && m1.text.value != "" && m2.text.Some? && m2.text.value != ""
    ensures var b2 := OnMessage(OnMessage(b, allowedChat, m1), allowedChat, m2);
      b.nextTimer !in b2.live
      && b.nextTimer + 1 in b2.live
      && FireTimer(b2, b.nextTimer + 1, allowedChat).1
         == Some(MessageReceived(m1.text.value + "\n\n" + m2.text.value, [], m1.chatId, allowedChat))
      && m1.chatId !in FireTimer(b2, b.nextTimer + 1, allowedChat).0.buffers
  {
    var chat := m1.chatId;
    PlainMessage(b, allowedChat, m1);
    var b1 := OnMessage(b, allowedChat, m1);
    PlainMessage(b1, allowedChat, m2);
    var b2 := OnMessage(b1, allowedChat, m2);
    var buf := Current(b2, chat);
    assert buf.textParts == [m1.text.value, m2.text.value];
    var parts := FlushParts(buf);
    assert parts == [m1.text.value, m2.text.value];
    assert parts[1..] == [m2.text.value];
    assert Join(parts[1..], PART_SEPARATOR) == m2.text.value;
  }

  /** An accepted message with neither photo nor voice memo, handled
      without a timer firing in between, adds its text part to its chat's
      buffer and moves the chat's timer to a fresh one. */
  lemma PlainMessage(b: BotState, allowedChat: string, msg: Message)
    requires WellFormed(b) && Accepted(allowedChat, msg) && msg.photo.NoPhoto? && msg.voice.None?
    ensures var b' := OnMessage(b, allowedChat, msg);
      var buf := if HasBuffer(b, msg.chatId) then Current(b, msg.chatId) else NewBuffer(msg.chatId);
      WellFormed(b') && b'.nextTimer == b.nextTimer + 1 && b.nextTimer !in b.live
      && HasBuffer(b', msg.chatId)
      && Current(b', msg.chatId) == buf.(timer := Some(b.nextTimer), textParts := buf.textParts + TextPart(msg))
      && b'.live == (if buf.timer.Some? then b.live - {buf.timer.value} else b.live)[b.nextTimer := msg.chatId]
  {
    ReceiveEffect(b, allowedChat, msg);
    var (b1, pending) := Receive(b, allowedChat, msg);
    ResumeEffect(b1, pending.value, msg);
  }

  /** Any live timer flushes a chat, and keeps the state well-formed. */
  lemma FireTimerEffect(b: BotState, t: nat, userId: string)
    requires WellFormed(b) && t in b.live
    ensures var (b', _) := FireTimer(b, t, userId);
      WellFormed(b') && (OneTimerPerChat(b) ==> OneTimerPerChat(b'))
      && b'.buffers == b.buffers - {b.live[t]} && b'.heap == b.heap
      && b'.live == b.live - {t}
  {
    var chat := b.live[t];
    if HasBuffer(b, chat) {
      FlushEffect(b, chat, userId);
    }
    var b1 := Flush(b, chat, userId).0;
    assert b1 == b.(buffers := b.buffers - {chat});
    SpentTimer(b1, t);
  }

  /** A timer whose chat has no buffer any more can be dropped from the
      live timers without breaking well-formedness or the one-timer
      invariant. */
  lemma SpentTimer(b: BotState, t: nat)
    requires WellFormed(b) && t in b.live && b.live[t] !in b.buffers
    ensures WellFormed(b.(live := b.live - {t}))
    ensures OneTimerPerChat(b) ==> OneTimerPerChat(b.(live := b.live - {t}))
  {
  }

  /** The handler state as the process holds it: the buffer objects, the
      chat map and the pending timers, changed in place. */
  class ChatBuffers {
    var heap: map<nat, Buffer>
    var buffers: map<int, nat>
    var live: map<nat, int>
    var nextTimer: nat
    var nextRef: nat
    /** `TELEGRAM_CHAT_ID`, the only chat served; also the user id of the
        emitted messages. */
    const allowedChat: string

    function Model(): BotState
      reads this
    {
      BotState(heap, buffers, live, nextTimer, nextRef)
    }

    ghost predicate Valid()
      reads this
    {
      WellFormed(Model())
    }

    constructor (allowedChat: string)
      ensures Valid() && Model() == NO_BUFFERS && this.allowedChat == allowedChat
    {
      heap := map[];
      buffers := map[];
      live := map[];
      nextTimer := 0;
      nextRef := 0;
      this.allowedChat := allowedChat;
    }

    /** A message arrives: the handler runs up to the photo download and
        returns the buffer it goes on with, if it does. */
    method MessageArrived(msg: Message) returns (pending: Option<nat>)
      requires Valid()
      modifies this
      ensures Valid()
      ensures (Model(), pending) == Receive(old(Model()), allowedChat, msg)
      ensures pending.Some? ==> pending.value in heap
    {
      ghost var m0 := Model();
      pending := None;
      if HeardText(msg) == Some(CHAT_ID_TRIGGER) {
        return;
      }
      if IntToString(msg.chatId) != allowedChat {
        return;
      }
      if msg.text.Some? && StartsWith(msg.text.value, "/") {
        return;
      }
      var chat := msg.chatId;
      var ref := nextRef;
      var buffer := NewBuffer(chat);
      if chat in buffers {
        ref := buffers[chat];
        buffer := heap[ref];
      } else {
        // The new buffer is stored together with its first text part.
        buffers := buffers[chat := ref];
        nextRef := nextRef + 1;
      }
      ghost var before := buffer;
      if msg.text.Some? && msg.text.value != "" {
        buffer := buffer.(textParts := buffer.textParts + [msg.text.value]);
      } else if msg.caption.Some? && msg.caption.value != "" {
        buffer := buffer.(textParts := buffer.textParts + [msg.caption.value]);
      }
      assert buffer == before.(textParts := before.textParts + TextPart(msg));
      heap := heap[ref := buffer];
      if !msg.photo.NoSizes? {
        pending := Some(ref);
      }
      assert HasBuffer(m0, chat) <==> chat in m0.buffers;
      assert ref == (if HasBuffer(m0, chat) then m0.buffers[chat] else m0.nextRef);
      assert before == (if HasBuffer(m0, chat) then m0.heap[ref] else NewBuffer(chat));
      assert Model().heap == m0.heap[ref := before.(textParts := before.textParts + TextPart(msg))];
      assert Model().buffers == m0.buffers[chat := ref];
      assert (Model(), pending) == Receive(m0, allowedChat, msg);
      ReceiveEffect(m0, allowedChat, msg);
    }

    /** The download is over: the handler finishes on the buffer `ref` it
        holds, whether or not the chat map still holds it. */
    method DownloadDone(ref: nat, msg: Message)
      requires Valid() && ref in heap
      modifies this
      ensures Valid()
      ensures Model() == Resume(old(Model()), ref, msg)
    {
      ghost var m0 := Model();
      var buffer := heap[ref];
      ghost var before := buffer;
      if msg.photo.Photo? && msg.photo.downloaded.Some? {
        buffer := buffer.(images := buffer.images + [msg.photo.downloaded.value]);
      }
      if msg.voice.Some? {
        buffer := buffer.(voice := buffer.voice + [msg.voice.value]);
      }
      if buffer.timer.Some? {
        live := live - {buffer.timer.value};
      }
      buffer := buffer.(timer := Some(nextTimer));
      assert buffer == before.(timer := Some(nextTimer), images := before.images + Downloaded(msg), voice := before.voice + Transcript(msg));
      live := live[nextTimer := buffer.chat];
      nextTimer := nextTimer + 1;
      heap := heap[ref := buffer];
      assert Model() == Resume(m0, ref, msg);
      ResumeEffect(m0, ref, msg);
    }

    /** The whole handler, with no timer firing during the download. */
    method HandleMessage(msg: Message)
      requires Valid()
      modifies this
      ensures Valid()
      ensures Model() == OnMessage(old(Model()), allowedChat, msg)
    {
      var pending := MessageArrived(msg);
      if pending.Some? {
        DownloadDone(pending.value, msg);
      }
    }

    method HandleReset(chat: int, historyDeleteFails: bool)
      requires Valid()
      modifies this
      ensures Valid()
      ensures Model() == Reset(old(Model()), allowedChat, chat, historyDeleteFails)
    {
      if IntToString(chat) != allowedChat || historyDeleteFails {
        return;
      }
      if chat in buffers {
        buffers := buffers - {chat};
      }
    }

    /** Timer `t` fires and flushes its chat. */
    method TimerFired(t: nat) returns (event: Option<AppEvent>)
      requires Valid() && t in live
      modifies this
      ensures Valid()
      ensures (Model(), event) == FireTimer(old(Model()), t, allowedChat)
    {
      var chat := live[t];
      if chat in buffers {
        FlushEffect(Model(), chat, allowedChat);
        var buffer := heap[buffers[chat]];
        buffers := buffers - {chat};
        var text := Join(buffer.textParts + Memos(buffer.voice), PART_SEPARATOR);
        if text == "" && |buffer.images| == 0 {
          event := None;
        } else {
          event := Some(MessageReceived(if text == "" then MEDIA_ONLY else text, buffer.images, chat, allowedChat));
        }
      } else {
        event := None;
      }
      live := live - {t};
    }
  }
}
