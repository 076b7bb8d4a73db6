/**
 * The hook itself: the per-chat atoms as fields that every setter replaces
 * by a copy with one key set, `streamMessage` as a method that runs the
 * transport's callbacks in the order they arrive, and the accessors the hook
 * returns. Each method is proved to do what the matching function of
 * `ChatState` says, and the properties are proved of those functions.
 */
module StreamChat {
  import opened Wrappers
  import opened RagDocuments
  import opened ChatState

  /** The part of `streamMessage` before any state changes: the text to send
      (`ragContent + prompt`) and the attachments to forward. */
  method PrepareRequest(req: Request) returns (text: string, otherAttachments: seq<Attachment>)
    ensures text == SendText(req.attachments, req.prompt)
    ensures otherAttachments == OutgoingAttachments(req)
  {
    var ragContent := "";
    otherAttachments := [];
    if req.attachments.Some? {
      var attachments := req.attachments.value;
      var ragAttachments := RagAttachments(attachments);
      otherAttachments := CollectOtherAttachments(attachments);
      if |ragAttachments| > 0 {
        ragContent := RagContent(ragAttachments);
      }
    }
    text := ragContent + req.prompt;
  }

  class ChatAtoms {
    var isStreamingById: map<int, bool>
    var errorById: map<int, Option<string>>
    var messagesById: map<int, seq<Message>>
    var streamCountById: map<int, nat>
    var recentStreamChatIds: set<int>
    var isPreviewOpen: bool
    /** The calls made into code outside the model, in order. */
    var effects: seq<Effect>

    function Snap(): Snapshot
      reads this
    {
      Snapshot(isStreamingById, errorById, messagesById, streamCountById,
               recentStreamChatIds, isPreviewOpen, effects)
    }

    constructor ()
      ensures Snap() == Snapshot(map[], map[], map[], map[], {}, false, [])
    {
      isStreamingById, errorById, messagesById, streamCountById := map[], map[], map[], map[];
      recentStreamChatIds, isPreviewOpen, effects := {}, false, [];
    }

    /** `setRecentStreamChatIds`, `setErrorById(null)` and
        `setIsStreamingById(true)` before the call. */
    method MarkStreaming(chatId: int)
      modifies this
      ensures Snap() == StartStream(old(Snap()), chatId)
    {
      recentStreamChatIds := recentStreamChatIds + {chatId};
      errorById := errorById[chatId := None];
      isStreamingById := isStreamingById[chatId := true];
    }

    /** `onUpdate(updatedMessages)`; returns the new value of the latch
        `hasIncrementedStreamCount`. */
    method OnUpdate(chatId: int, hasIncrementedStreamCount: bool, updatedMessages: seq<Message>)
      returns (incremented: bool)
      modifies this
      ensures incremented
      ensures Snap() == ApplyUpdate(old(Snap()), chatId, hasIncrementedStreamCount, updatedMessages)
    {
      if !hasIncrementedStreamCount {
        var previous := if chatId in streamCountById then streamCountById[chatId] else 0;
        streamCountById := streamCountById[chatId := previous + 1];
      }
      incremented := true;
      messagesById := messagesById[chatId := updatedMessages];
    }

    /** `onEnd(response)`. */
    method OnEnd(chatId: int, response: ChatResponseEnd, autoFixProblems: bool)
      modifies this
      ensures Snap() == ApplyEnd(old(Snap()), chatId, response, autoFixProblems)
    {
      ghost var before := effects;
      if response.updatedFiles {
        isPreviewOpen := true;
        effects := effects + [RefreshAppIframe];
        if autoFixProblems {
          effects := effects + [CheckProblems];
        }
      }
      if response.extraFiles.Some? {
        effects := effects + [ShowExtraFilesToast(response.extraFiles.value, response.extraFilesError)];
      }
      effects := effects + [RefreshProposal(chatId), RefetchUserBudget];
      isStreamingById := isStreamingById[chatId := false];
      effects := effects + [RefreshChats, RefreshApp, RefreshVersions, CountTokens(chatId, "")];
      assert effects == before + EndEffects(chatId, response, autoFixProblems);
    }

    /** `onError(errorMessage)`. */
    method OnError(chatId: int, errorMessage: string)
      modifies this
      ensures Snap() == ApplyError(old(Snap()), chatId, errorMessage)
    {
      errorById := errorById[chatId := Some(errorMessage)];
      isStreamingById := isStreamingById[chatId := false];
      effects := effects + [RefreshChats, RefreshApp, RefreshVersions, CountTokens(chatId, "")];
    }

    /** The `catch` around the transport call. */
    method OnSetupError(chatId: int, message: string)
      modifies this
      ensures Snap() == ApplyThrow(old(Snap()), chatId, message)
    {
      if chatId != 0 {
        isStreamingById := isStreamingById[chatId := false];
      }
      if chatId != 0 {
        errorById := errorById[chatId := Some(message)];
      }
    }

    /** The `onUpdate` calls of one invocation, with its latch
        `hasIncrementedStreamCount` starting out false. */
    method ReceiveUpdates(chatId: int, updates: seq<seq<Message>>)
      modifies this
      ensures Snap() == ApplyUpdates(old(Snap()), chatId, updates)
    {
      var hasIncrementedStreamCount := false;
      var i := 0;
      while i < |updates|
        invariant 0 <= i <= |updates|
        invariant hasIncrementedStreamCount == (i > 0)
        invariant Snap() == ApplyUpdates(old(Snap()), chatId, updates[..i])
      {
        assert updates[..i + 1][..i] == updates[..i];
        hasIncrementedStreamCount := OnUpdate(chatId, hasIncrementedStreamCount, updates[i]);
        i := i + 1;
      }
      assert updates[..i] == updates;
    }

    /** `streamMessage`, with the transport's behaviour given as `transport`
        and `settings?.enableAutoFixProblems` as `autoFixProblems`. */
    method StreamMessage(req: Request, transport: Transport, autoFixProblems: bool)
      modifies this
      ensures Snap() == Streamed(old(Snap()), req, transport, autoFixProblems)
    {
      if !Accepts(req) {
        return;
      }
      var chatId := req.chatId;
      var text, otherAttachments := PrepareRequest(req);
      MarkStreaming(chatId);
      effects := effects + [StreamCall(text, chatId, req.redo, otherAttachments, req.selectedComponent)];
      assert Snap() == IssueRequest(old(Snap()), req);
      match transport {
        case Throw(message) =>
          OnSetupError(chatId, message);
        case Stream(updates, terminal) =>
          ReceiveUpdates(chatId, updates);
          match terminal {
            case End(response) => OnEnd(chatId, response, autoFixProblems);
            case Error(message) => OnError(chatId, message);
          }
      }
    }

    /** The returned `isStreaming`: the chat's flag, false when it has none
        or the hook has no chat id. */
    function IsStreaming(hasChatId: bool, chatId: Option<int>): (r: bool)
      reads this
      ensures r <==> hasChatId && chatId.Some? && chatId.value in isStreamingById
                     && isStreamingById[chatId.value]
    {
      if hasChatId && chatId.Some? then
        (if chatId.value in isStreamingById then isStreamingById[chatId.value] else false)
      else false
    }

    /** The returned `error`: the chat's error, null when it has none or the
        hook has no chat id. */
    function CurrentError(hasChatId: bool, chatId: Option<int>): (r: Option<string>)
      reads this
      ensures r.Some? <==> hasChatId && chatId.Some? && chatId.value in errorById
                           && errorById[chatId.value].Some?
      ensures r.Some? ==> r == errorById[chatId.value]
    {
      if hasChatId && chatId.Some? then
        (if chatId.value in errorById then errorById[chatId.value] else None)
      else None
    }

    /** The returned `setError`: sets the hook's chat's error, and does
        nothing when the hook has no chat id. */
    method SetError(chatId: Option<int>, value: Option<string>)
      modifies this
      ensures chatId.None? ==> Snap() == old(Snap())
      ensures chatId.Some? ==> Snap() == old(Snap()).(errorById := old(errorById)[chatId.value := value])
      ensures chatId.Some? ==> CurrentError(true, chatId) == value
    {
      if chatId.Some? {
        errorById := errorById[chatId.value := value];
      }
    }

    /** The returned `setIsStreaming`: sets the hook's chat's flag, and does
        nothing when the hook has no chat id. */
    method SetIsStreaming(chatId: Option<int>, value: bool)
      modifies this
      ensures chatId.None? ==> Snap() == old(Snap())
      ensures chatId.Some? ==> Snap() == old(Snap()).(isStreamingById := old(isStreamingById)[chatId.value := value])
      ensures chatId.Some? ==> IsStreaming(true, chatId) == value
    {
      if chatId.Some? {
        isStreamingById := isStreamingById[chatId.value := value];
      }
    }
  }
}
