/**
 * The state `streamMessage` works on, as a value, and what each step of one
 * invocation does to it. The per-chat atoms are maps keyed by chat id that
 * the hook replaces by a copy with one key set; the refresh, toast and
 * transport calls it makes are recorded, in call order, in an effect log.
 */
module ChatState {
  import opened Wrappers
  import opened RagDocuments
  import JsString

  /** One chat message as the transport delivers it; its fields are not
      looked at here. */
  datatype Message = Message(payload: string)

  /** The UI-selected component passed through to the transport; opaque. */
  datatype ComponentSelection = ComponentSelection(payload: string)

  /** The fields of `ChatResponseEnd` that the end handler reads. */
  datatype ChatResponseEnd = ChatResponseEnd(
    updatedFiles: bool,
    extraFiles: Option<seq<string>>,
    extraFilesError: Option<string>)

  /** How a stream that started finishes: `onEnd` or `onError`. */
  datatype Terminal = End(response: ChatResponseEnd) | Error(message: string)

  /** What the transport does with a request: it throws while the request is
      being issued, or it calls `onUpdate` any number of times and then
      `onEnd` or `onError` once. The call logged before a `Throw` stands for
      the attempt, whether the client lookup or the streaming call itself
      is what throws. */
  datatype Transport =
    | Throw(message: string)
    | Stream(updates: seq<seq<Message>>, terminal: Terminal)

  /** The arguments of `streamMessage`. */
  datatype Request = Request(
    prompt: string,
    chatId: int,
    redo: Option<bool>,
    attachments: Option<seq<Attachment>>,
    selectedComponent: Option<ComponentSelection>)

  /** The calls the hook makes into code outside this model. */
  datatype Effect =
    | StreamCall(text: string, chatId: int, redo: Option<bool>,
                 attachments: seq<Attachment>, selectedComponent: Option<ComponentSelection>)
    | RefreshAppIframe
    | CheckProblems
    | ShowExtraFilesToast(files: seq<string>, error: Option<string>)
    | RefreshProposal(chatId: int)
    | RefetchUserBudget
    | RefreshChats
    | RefreshApp
    | RefreshVersions
    | CountTokens(chatId: int, text: string)

  /** Every atom `streamMessage` writes, plus the effect log. */
  datatype Snapshot = Snapshot(
    isStreamingById: map<int, bool>,
    errorById: map<int, Option<string>>,
    messagesById: map<int, seq<Message>>,
    streamCountById: map<int, nat>,
    recentStreamChatIds: set<int>,
    isPreviewOpen: bool,
    effects: seq<Effect>)

  // ---------------------------------------------------------------------------
  // Submission guard

  /** `!prompt.trim() && (!attachments || attachments.length === 0)`: the
      prompt is empty or blank and nothing is attached. */
  function IsBlankSubmission(req: Request): (r: bool)
    ensures r <==> JsString.AllTrimmable(req.prompt)
                   && (req.attachments.None? || |req.attachments.value| == 0)
  {
    JsString.TrimEmptyIffBlank(req.prompt);
    JsString.Trim(req.prompt) == ""
    && (req.attachments.None? || |req.attachments.value| == 0)
  }

  /** The request gets past the early `return`: it is not blank and its chat
      id is truthy (a numeric id is falsy exactly when it is 0). */
  function Accepts(req: Request): (r: bool)
    ensures r <==> (!JsString.AllTrimmable(req.prompt)
                    || (req.attachments.Some? && |req.attachments.value| > 0))
                   && req.chatId != 0
  {
    !IsBlankSubmission(req) && req.chatId != 0
  }

  /** The attachments handed to the transport. */
  function OutgoingAttachments(req: Request): seq<Attachment> {
    match req.attachments
    case None => []
    case Some(atts) => OtherAttachments(atts)
  }

  function OutgoingCall(req: Request): Effect {
    StreamCall(SendText(req.attachments, req.prompt), req.chatId, req.redo,
               OutgoingAttachments(req), req.selectedComponent)
  }

  // ---------------------------------------------------------------------------
  // Steps

  /** `prev.get(chatId) ?? 0` on the stream counts. */
  function StreamCount(s: Snapshot, chatId: int): nat {
    if chatId in s.streamCountById then s.streamCountById[chatId] else 0
  }

  /** All four maps agree with those of `s` on every key but `chatId`. */
  predicate OnlyKeyChanged(s: Snapshot, t: Snapshot, chatId: int) {
    && t.isStreamingById - {chatId} == s.isStreamingById - {chatId}
    && t.errorById - {chatId} == s.errorById - {chatId}
    && t.messagesById - {chatId} == s.messagesById - {chatId}
    && t.streamCountById - {chatId} == s.streamCountById - {chatId}
  }

  lemma UpdateOffKey<V>(m: map<int, V>, k: int, v: V)
    ensures m[k := v] - {k} == m - {k}
  {
  }

  /** The three setters run before the transport is called: afterwards the
      chat is recent, has no error and is streaming, and nothing else
      changes. */
  function StartStream(s: Snapshot, chatId: int): (r: Snapshot)
    ensures r.recentStreamChatIds == s.recentStreamChatIds + {chatId}
    ensures chatId in r.errorById && r.errorById[chatId] == None
    ensures chatId in r.isStreamingById && r.isStreamingById[chatId]
    ensures OnlyKeyChanged(s, r, chatId)
    ensures r.messagesById == s.messagesById && r.streamCountById == s.streamCountById
    ensures r.isPreviewOpen == s.isPreviewOpen && r.effects == s.effects
  {
    UpdateOffKey(s.errorById, chatId, None);
    UpdateOffKey(s.isStreamingById, chatId, true);
    s.(recentStreamChatIds := s.recentStreamChatIds + {chatId},
       errorById := s.errorById[chatId := None],
       isStreamingById := s.isStreamingById[chatId := true])
  }

  /** `onUpdate(msgs)` with the latch `hasIncrementedStreamCount` at
      `counted`: the count rises exactly when the latch is still open, the
      chat's messages become `msgs`, and nothing else changes. */
  function ApplyUpdate(s: Snapshot, chatId: int, counted: bool, msgs: seq<Message>): (r: Snapshot)
    ensures StreamCount(r, chatId) == StreamCount(s, chatId) + (if counted then 0 else 1)
    ensures chatId in r.messagesById && r.messagesById[chatId] == msgs
    ensures OnlyKeyChanged(s, r, chatId)
    ensures r.isStreamingById == s.isStreamingById && r.errorById == s.errorById
    ensures r.recentStreamChatIds == s.recentStreamChatIds
    ensures r.isPreviewOpen == s.isPreviewOpen && r.effects == s.effects
  {
    UpdateOffKey(s.messagesById, chatId, msgs);
    UpdateOffKey(s.streamCountById, chatId, StreamCount(s, chatId) + 1);
    var s' := if counted then s
              else s.(streamCountById := s.streamCountById[chatId := StreamCount(s, chatId) + 1]);
    s'.(messagesById := s'.messagesById[chatId := msgs])
  }

  /** A run of `onUpdate` calls of one invocation; the latch is set from the
      second call on. */
  function ApplyUpdates(s: Snapshot, chatId: int, updates: seq<seq<Message>>): Snapshot
    decreases |updates|
  {
    if updates == [] then s
    else
      var n := |updates| - 1;
      ApplyUpdate(ApplyUpdates(s, chatId, updates[..n]), chatId, n > 0, updates[n])
  }

  /** The tail `onEnd` and `onError` share: refreshChats, refreshApp,
      refreshVersions and `countTokens(chatId, "")`. */
  function FinishEffects(chatId: int): seq<Effect> {
    [RefreshChats, RefreshApp, RefreshVersions, CountTokens(chatId, "")]
  }

  /** `setIsPreviewOpen(true)` goes with these: the iframe refresh and, when
      auto-fix is on, the problem check. */
  function PreviewEffects(response: ChatResponseEnd, autoFixProblems: bool): seq<Effect> {
    if !response.updatedFiles then []
    else if autoFixProblems then [RefreshAppIframe, CheckProblems]
    else [RefreshAppIframe]
  }

  /** `showExtraFilesToast`, called when `extraFiles` is present (an empty
      array is truthy too). */
  function ToastEffects(response: ChatResponseEnd): seq<Effect> {
    match response.extraFiles
    case Some(files) => [ShowExtraFilesToast(files, response.extraFilesError)]
    case None => []
  }

  /** Everything `onEnd` calls, in order. */
  function EndEffects(chatId: int, response: ChatResponseEnd, autoFixProblems: bool): seq<Effect> {
    PreviewEffects(response, autoFixProblems) + ToastEffects(response)
    + [RefreshProposal(chatId), RefetchUserBudget] + FinishEffects(chatId)
  }

  /** `onEnd(response)`, `autoFixProblems` being
      `settings?.enableAutoFixProblems`: it clears the streaming flag, leaves
      the errors alone, opens the preview exactly when files were updated,
      and touches only its chat. */
  function ApplyEnd(s: Snapshot, chatId: int, response: ChatResponseEnd, autoFixProblems: bool): (r: Snapshot)
    ensures chatId in r.isStreamingById && !r.isStreamingById[chatId]
    ensures r.errorById == s.errorById
    ensures r.isPreviewOpen == (s.isPreviewOpen || response.updatedFiles)
    ensures r.effects == s.effects + EndEffects(chatId, response, autoFixProblems)
    ensures OnlyKeyChanged(s, r, chatId)
    ensures r.messagesById == s.messagesById && r.streamCountById == s.streamCountById
    ensures r.recentStreamChatIds == s.recentStreamChatIds
  {
    UpdateOffKey(s.isStreamingById, chatId, false);
    s.(isPreviewOpen := if response.updatedFiles then true else s.isPreviewOpen,
       isStreamingById := s.isStreamingById[chatId := false],
       effects := s.effects + EndEffects(chatId, response, autoFixProblems))
  }

  /** `onError(errorMessage)`: it clears the streaming flag, records the
      message, finishes with the refresh tail `onEnd` also ends with, and
      touches only its chat. */
  function ApplyError(s: Snapshot, chatId: int, message: string): (r: Snapshot)
    ensures chatId in r.isStreamingById && !r.isStreamingById[chatId]
    ensures chatId in r.errorById && r.errorById[chatId] == Some(message)
    ensures r.isPreviewOpen == s.isPreviewOpen
    ensures r.effects == s.effects + FinishEffects(chatId)
    ensures OnlyKeyChanged(s, r, chatId)
    ensures r.messagesById == s.messagesById && r.streamCountById == s.streamCountById
    ensures r.recentStreamChatIds == s.recentStreamChatIds
  {
    UpdateOffKey(s.isStreamingById, chatId, false);
    UpdateOffKey(s.errorById, chatId, Some(message));
    s.(errorById := s.errorById[chatId := Some(message)],
       isStreamingById := s.isStreamingById[chatId := false],
       effects := s.effects + FinishEffects(chatId))
  }

  /** The `catch` around the transport call. It re-tests `chatId`; for a
      truthy one the chat stops streaming with the thrown message as its
      error, and nothing else changes. */
  function ApplyThrow(s: Snapshot, chatId: int, message: string): (r: Snapshot)
    ensures chatId == 0 ==> r == s
    ensures chatId != 0 ==>
      && chatId in r.isStreamingById && !r.isStreamingById[chatId]
      && chatId in r.errorById && r.errorById[chatId] == Some(message)
    ensures OnlyKeyChanged(s, r, chatId)
    ensures r.messagesById == s.messagesById && r.streamCountById == s.streamCountById
    ensures r.recentStreamChatIds == s.recentStreamChatIds
    ensures r.isPreviewOpen == s.isPreviewOpen && r.effects == s.effects
  {
    UpdateOffKey(s.isStreamingById, chatId, false);
    UpdateOffKey(s.errorById, chatId, Some(message));
    if chatId != 0 then
      s.(isStreamingById := s.isStreamingById[chatId := false],
         errorById := s.errorById[chatId := Some(message)])
    else s
  }

  /** Everything up to and including the transport call: the chat is marked
      as `StartStream` says and exactly the one call, with
      `ragContent + prompt` and the other attachments, is logged. */
  function IssueRequest(s: Snapshot, req: Request): (r: Snapshot)
    ensures r.recentStreamChatIds == s.recentStreamChatIds + {req.chatId}
    ensures req.chatId in r.errorById && r.errorById[req.chatId] == None
    ensures req.chatId in r.isStreamingById && r.isStreamingById[req.chatId]
    ensures OnlyKeyChanged(s, r, req.chatId)
    ensures r.messagesById == s.messagesById && r.streamCountById == s.streamCountById
    ensures r.isPreviewOpen == s.isPreviewOpen
    ensures r.effects == s.effects + [OutgoingCall(req)]
  {
    var started := StartStream(s, req.chatId);
    started.(effects := started.effects + [OutgoingCall(req)])
  }

  /** What the handler that finishes a stream calls. Both handlers end with
      the shared refresh tail, and neither calls the transport again. */
  function HandlerEffects(chatId: int, terminal: Terminal, autoFixProblems: bool): (r: seq<Effect>)
    ensures |r| >= 4 && r[|r| - 4..] == FinishEffects(chatId)
    ensures forall k | 0 <= k < |r| :: !r[k].StreamCall?
  {
    match terminal
    case End(response) =>
      EndEffectsShape(chatId, response, autoFixProblems);
      EndEffectsNoCall(chatId, response, autoFixProblems);
      EndEffects(chatId, response, autoFixProblems)
    case Error(_) => FinishEffects(chatId)
  }

  /** What the transport's behaviour does to the state once the call was
      issued. */
  function Deliver(s: Snapshot, chatId: int, transport: Transport, autoFixProblems: bool): Snapshot {
    match transport
    case Throw(message) => ApplyThrow(s, chatId, message)
    case Stream(updates, terminal) =>
      var updated := ApplyUpdates(s, chatId, updates);
      match terminal
      case End(response) => ApplyEnd(updated, chatId, response, autoFixProblems)
      case Error(message) => ApplyError(updated, chatId, message)
  }

  /** One whole invocation of `streamMessage`. */
  function Streamed(s: Snapshot, req: Request, transport: Transport, autoFixProblems: bool): Snapshot {
    if !Accepts(req) then s
    else Deliver(IssueRequest(s, req), req.chatId, transport, autoFixProblems)
  }

  // ---------------------------------------------------------------------------
  // Properties

  /** The latch: over any run of updates the chat's stream count grows by
      exactly one if there was at least one update and by none otherwise,
      the chat's messages are the last update's snapshot, and nothing but
      those two entries changes. */
  lemma {:induction false} UpdatesLatch(s: Snapshot, chatId: int, updates: seq<seq<Message>>)
    ensures var t := ApplyUpdates(s, chatId, updates);
      && StreamCount(t, chatId) == StreamCount(s, chatId) + (if |updates| > 0 then 1 else 0)
      && (|updates| > 0 ==> chatId in t.messagesById && t.messagesById[chatId] == updates[|updates| - 1])
      && (|updates| == 0 ==> t == s)
      && OnlyKeyChanged(s, t, chatId)
      && t.isStreamingById == s.isStreamingById && t.errorById == s.errorById
      && t.recentStreamChatIds == s.recentStreamChatIds
      && t.isPreviewOpen == s.isPreviewOpen && t.effects == s.effects
  {
    if updates != [] {
      var n := |updates| - 1;
      UpdatesLatch(s, chatId, updates[..n]);
    }
  }

  /** How many times `e` occurs in `effects`. */
  function Occurrences(effects: seq<Effect>, e: Effect): nat {
    if effects == [] then 0
    else (if effects[0] == e then 1 else 0) + Occurrences(effects[1..], e)
  }

  lemma {:induction false} OccurrencesAppend(a: seq<Effect>, b: seq<Effect>, e: Effect)
    ensures Occurrences(a + b, e) == Occurrences(a, e) + Occurrences(b, e)
  {
    if a == [] {
      assert a + b == b;
    } else {
      assert (a + b)[1..] == a[1..] + b;
      OccurrencesAppend(a[1..], b, e);
    }
  }

  /** The effects of `onEnd` end with the refresh tail it shares with
      `onError`; they refresh the app iframe exactly once when files were
      updated and never otherwise, and run the problem check once when files
      were updated and auto-fix is on, and never otherwise. */
  lemma EndEffectsShape(chatId: int, response: ChatResponseEnd, autoFixProblems: bool)
    ensures var f := EndEffects(chatId, response, autoFixProblems);
      && |f| >= 6
      && f[|f| - 4..] == FinishEffects(chatId)
      && Occurrences(f, RefreshAppIframe) == (if response.updatedFiles then 1 else 0)
      && Occurrences(f, CheckProblems) == (if response.updatedFiles && autoFixProblems then 1 else 0)
  {
    var preview := PreviewEffects(response, autoFixProblems);
    var toast := ToastEffects(response);
    var rest: seq<Effect> := [RefreshProposal(chatId), RefetchUserBudget] + FinishEffects(chatId);
    var f := EndEffects(chatId, response, autoFixProblems);
    assert f == preview + toast + rest;
    assert f[|f| - 4..] == rest[2..];
    OccurrencesAppend(preview + toast, rest, RefreshAppIframe);
    OccurrencesAppend(preview, toast, RefreshAppIframe);
    OccurrencesAppend(preview + toast, rest, CheckProblems);
    OccurrencesAppend(preview, toast, CheckProblems);
    NoPreviewEffects(rest);
    NoPreviewEffects(toast);
  }

  /** Sequences without a preview-related effect count none of them. */
  lemma {:induction false} NoPreviewEffects(effects: seq<Effect>)
    requires forall i | 0 <= i < |effects| :: effects[i] != RefreshAppIframe && effects[i] != CheckProblems
    ensures Occurrences(effects, RefreshAppIframe) == 0 && Occurrences(effects, CheckProblems) == 0
  {
    if effects != [] {
      NoPreviewEffects(effects[1..]);
    }
  }

  /** `onEnd` never calls the transport. */
  lemma EndEffectsNoCall(chatId: int, response: ChatResponseEnd, autoFixProblems: bool)
    ensures var f := EndEffects(chatId, response, autoFixProblems);
      forall k | 0 <= k < |f| :: !f[k].StreamCall?
  {
    var preview := PreviewEffects(response, autoFixProblems);
    var toast := ToastEffects(response);
    var rest: seq<Effect> := [RefreshProposal(chatId), RefetchUserBudget] + FinishEffects(chatId);
    assert EndEffects(chatId, response, autoFixProblems) == preview + toast + rest;
  }

  /** A stream that delivers `updates` and then ends or fails leaves the chat
      not streaming, with the latch effect of `UpdatesLatch` on the messages
      and the count, the terminal's effect on the error and the preview, and
      the finishing handler's effects appended to the log. */
  lemma DeliverStreamOutcome(b: Snapshot, chatId: int, updates: seq<seq<Message>>, terminal: Terminal, autoFixProblems: bool)
    ensures var t := Deliver(b, chatId, Stream(updates, terminal), autoFixProblems);
      && chatId in t.isStreamingById && !t.isStreamingById[chatId]
      && (terminal.Error? ==> chatId in t.errorById && t.errorById[chatId] == Some(terminal.message))
      && (terminal.End? ==> t.errorById == b.errorById)
      && (|updates| > 0 ==> chatId in t.messagesById && t.messagesById[chatId] == updates[|updates| - 1])
      && (|updates| == 0 ==> t.messagesById == b.messagesById)
      && StreamCount(t, chatId) == StreamCount(b, chatId) + (if |updates| > 0 then 1 else 0)
      && t.isPreviewOpen == (b.isPreviewOpen || (terminal.End? && terminal.response.updatedFiles))
      && t.recentStreamChatIds == b.recentStreamChatIds
      && t.effects == b.effects + HandlerEffects(chatId, terminal, autoFixProblems)
      && OnlyKeyChanged(b, t, chatId)
  {
    UpdatesLatch(b, chatId, updates);
  }

  /** A stream that started ends with the chat not streaming, its error the
      `onError` message or else the `null` set on start, and the preview
      opened only by an `onEnd` with updated files. */
  lemma StreamedFinishes(s: Snapshot, req: Request, updates: seq<seq<Message>>, terminal: Terminal, autoFixProblems: bool)
    requires Accepts(req)
    ensures var chatId := req.chatId;
      var t := Streamed(s, req, Stream(updates, terminal), autoFixProblems);
      && t.recentStreamChatIds == s.recentStreamChatIds + {chatId}
      && chatId in t.isStreamingById && !t.isStreamingById[chatId]
      && chatId in t.errorById
      && t.errorById[chatId] == (if terminal.Error? then Some(terminal.message) else None)
      && t.isPreviewOpen == (s.isPreviewOpen || (terminal.End? && terminal.response.updatedFiles))
  {
    DeliverStreamOutcome(IssueRequest(s, req), req.chatId, updates, terminal, autoFixProblems);
  }

  /** However many updates a stream delivers, the chat ends with the last
      one's messages (or its old ones when none came) and a stream count one
      higher if any came. */
  lemma StreamedLatch(s: Snapshot, req: Request, updates: seq<seq<Message>>, terminal: Terminal, autoFixProblems: bool)
    requires Accepts(req)
    ensures var chatId := req.chatId;
      var t := Streamed(s, req, Stream(updates, terminal), autoFixProblems);
      && (|updates| > 0 ==> chatId in t.messagesById && t.messagesById[chatId] == updates[|updates| - 1])
      && (|updates| == 0 ==> t.messagesById == s.messagesById)
      && StreamCount(t, chatId) == StreamCount(s, chatId) + (if |updates| > 0 then 1 else 0)
  {
    DeliverStreamOutcome(IssueRequest(s, req), req.chatId, updates, terminal, autoFixProblems);
  }

  /** The whole log of a stream that started: what was there, then the
      transport call, then exactly what the finishing handler calls. */
  lemma StreamedLog(s: Snapshot, req: Request, updates: seq<seq<Message>>, terminal: Terminal, autoFixProblems: bool)
    requires Accepts(req)
    ensures var t := Streamed(s, req, Stream(updates, terminal), autoFixProblems);
      t.effects == s.effects + [OutgoingCall(req)] + HandlerEffects(req.chatId, terminal, autoFixProblems)
  {
    DeliverStreamOutcome(IssueRequest(s, req), req.chatId, updates, terminal, autoFixProblems);
  }

  /** An invocation changes no entry of any other chat. */
  lemma StreamedOnlyItsChat(s: Snapshot, req: Request, transport: Transport, autoFixProblems: bool)
    ensures OnlyKeyChanged(s, Streamed(s, req, transport, autoFixProblems), req.chatId)
  {
    if Accepts(req) {
      match transport
      case Throw(message) =>
      case Stream(updates, terminal) =>
        DeliverStreamOutcome(IssueRequest(s, req), req.chatId, updates, terminal, autoFixProblems);
    }
  }

  /** A transport that throws while the request is issued leaves the chat
      not streaming with the thrown message as its error, having received no
      messages and no count. */
  lemma StreamedThrowOutcome(s: Snapshot, req: Request, message: string, autoFixProblems: bool)
    requires Accepts(req)
    ensures var chatId := req.chatId;
      var t := Streamed(s, req, Throw(message), autoFixProblems);
      && t.recentStreamChatIds == s.recentStreamChatIds + {chatId}
      && chatId in t.isStreamingById && !t.isStreamingById[chatId]
      && chatId in t.errorById && t.errorById[chatId] == Some(message)
      && t.messagesById == s.messagesById && t.streamCountById == s.streamCountById
      && t.isPreviewOpen == s.isPreviewOpen
      && t.effects == s.effects + [OutgoingCall(req)]
  {
  }

  /** A blank request, or one without a chat id, changes nothing and makes no
      transport call; any other request makes exactly one transport call,
      logged right after what was already there. */
  lemma GuardIsNoOp(s: Snapshot, req: Request, transport: Transport, autoFixProblems: bool)
    ensures !Accepts(req) <==> Streamed(s, req, transport, autoFixProblems) == s
    ensures Accepts(req) ==>
      var t := Streamed(s, req, transport, autoFixProblems);
      && |t.effects| > |s.effects| && t.effects[|s.effects|] == OutgoingCall(req)
      && forall k | |s.effects| < k < |t.effects| :: !t.effects[k].StreamCall?
  {
    if Accepts(req) {
      var call := OutgoingCall(req);
      match transport
      case Throw(message) =>
        StreamedThrowOutcome(s, req, message, autoFixProblems);
        OneCallLogged(s.effects, call, []);
      case Stream(updates, terminal) =>
        StreamedLog(s, req, updates, terminal, autoFixProblems);
        OneCallLogged(s.effects, call, HandlerEffects(req.chatId, terminal, autoFixProblems));
    }
  }

  lemma OneCallLogged(a: seq<Effect>, call: Effect, h: seq<Effect>)
    requires forall k | 0 <= k < |h| :: !h[k].StreamCall?
    ensures var c := a + [call] + h;
      && |c| > |a| && c[|a|] == call
      && forall k | |a| < k < |c| :: !c[k].StreamCall?
  {
    var c := a + [call] + h;
    forall k | |a| < k < |c| ensures !c[k].StreamCall? {
      assert c[k] == h[k - |a| - 1];
    }
  }
}
