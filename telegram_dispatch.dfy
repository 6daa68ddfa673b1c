/**
 * One dispatch of an inbound Telegram message: the state the dispatcher keeps
 * while the agent replies (the last partial snapshot, the draft text, the
 * delivery bookkeeping) and the callbacks that change it. Every callback is
 * proved to do exactly what the value-level reconciler in DraftReconciler and
 * the rules in TelegramRules say.
 */
module TelegramDispatch {
  import opened Wrappers
  import opened JsValues
  import opened JsStrings
  import opened BlockChunking
  import opened DraftReconciler
  import opened TelegramRules
  import opened DraftStreams
  import opened ThinkingUpdaters

  /** `info.kind` of a reply handed to `deliver`. */
  datatype ReplyKind = ToolReply | BlockReply | FinalReply

  /** A reply payload; only its text matters here. */
  datatype ReplyPayload = ReplyPayload(text: Option<string>)

  const FallbackReply := ReplyPayload(Some(EMPTY_RESPONSE_FALLBACK))

  class Dispatch {
    const mode: StreamMode
    const thinkingCfg: Option<ThinkingConfig>
    const draftStream: DraftStream?
    const draftChunker: BlockChunker?
    const thinkingUpdater: ThinkingUpdater?

    var lastPartialText: string
    var draftText: string
    /** `deliveryState.delivered` and `deliveryState.skippedNonSilent`. */
    var delivered: bool
    var skippedNonSilent: nat
    /** Every reply handed to `deliverReplies`, in order. */
    var sent: seq<ReplyPayload>
    /** What the reply dispatcher reported so far, oldest first. */
    ghost var events: seq<DeliveryEvent>

    ghost function Config(): DraftConfig {
      DraftConfig(draftStream != null, mode, if draftChunker != null then Some(draftChunker.policy) else None)
    }

    /** The reconciler's state as the dispatcher holds it: pending text lives in the chunker, updates in the draft stream. */
    ghost function State(): DraftState
      reads this, draftStream, draftChunker
    {
      DraftState(
        lastPartialText,
        draftText,
        if draftChunker != null then draftChunker.buffer else "",
        if draftStream != null then draftStream.updates else [])
    }

    ghost predicate Valid()
      reads this, draftStream, draftChunker
    {
      && ValidConfig(Config())
      && Coherent(Config(), State())
      && DeliveryState(delivered, skippedNonSilent) == After(events)
    }

    /** The set-up at the start of `dispatchTelegramMessage`. */
    constructor (mode: StreamMode, isPrivateChat: bool, resolvedThreadId: Value, topicsEnabled: bool, textLimit: int,
                 chunking: Option<BoundaryPolicy>, thinkingCfg: Option<ThinkingConfig>)
      ensures Valid()
      ensures this.mode == mode && this.thinkingCfg == thinkingCfg
      ensures (draftStream != null) == CanStreamDraft(mode, isPrivateChat, resolvedThreadId, topicsEnabled)
      ensures draftStream != null ==>
        && fresh(draftStream) && draftStream.maxChars == DraftMaxChars(textLimit)
        && draftStream.updates == [] && draftStream.flushes == 0 && !draftStream.stopped
      ensures (draftChunker != null) == (draftStream != null && mode == Block && chunking.Some?)
      ensures draftChunker != null ==> fresh(draftChunker) && draftChunker.policy == chunking.value
      ensures (thinkingUpdater != null) == ThinkingEnabled(isPrivateChat, thinkingCfg)
      ensures thinkingUpdater != null ==> fresh(thinkingUpdater) && thinkingUpdater.calls == []
      ensures State() == Initial
      ensures !delivered && skippedNonSilent == 0 && sent == [] && events == []
    {
      this.mode := mode;
      this.thinkingCfg := thinkingCfg;
      var stream: DraftStream? := null;
      if CanStreamDraft(mode, isPrivateChat, resolvedThreadId, topicsEnabled) {
        stream := new DraftStream(DraftMaxChars(textLimit));
      }
      var chunker: BlockChunker? := null;
      if stream != null && mode == Block && chunking.Some? {
        chunker := new BlockChunker(chunking.value);
      }
      var updater: ThinkingUpdater? := null;
      if ThinkingEnabled(isPrivateChat, thinkingCfg) {
        updater := new ThinkingUpdater();
      }
      draftStream, draftChunker, thinkingUpdater := stream, chunker, updater;
      lastPartialText, draftText := "", "";
      delivered, skippedNonSilent := false, 0;
      sent := [];
      events := [];
    }

    /** The drain callback of `updateDraftFromPartial`: each chunk grows the draft text, which is pushed. */
    method EmitChunks(chunks: seq<string>)
      requires draftStream != null
      modifies this`draftText, draftStream
      ensures draftText == old(draftText) + Concat(chunks)
      ensures draftStream.updates == old(draftStream.updates) + Accumulate(old(draftText), chunks)
      ensures draftStream.flushes == old(draftStream.flushes) && draftStream.stopped == old(draftStream.stopped)
    {
      var i := 0;
      while i < |chunks|
        invariant 0 <= i <= |chunks|
        invariant draftText + Concat(chunks[i..]) == old(draftText) + Concat(chunks)
        invariant draftStream.updates + Accumulate(draftText, chunks[i..]) ==
                  old(draftStream.updates) + Accumulate(old(draftText), chunks)
        invariant draftStream.flushes == old(draftStream.flushes) && draftStream.stopped == old(draftStream.stopped)
      {
        assert chunks[i..][1..] == chunks[i + 1..];
        var before := draftStream.updates;
        var rest := Accumulate(draftText + chunks[i], chunks[i + 1..]);
        assert before + Accumulate(draftText, chunks[i..]) == before + [draftText + chunks[i]] + rest;
        AppendAssoc3(draftText, chunks[i], Concat(chunks[i + 1..]));
        draftText := draftText + chunks[i];
        draftStream.Update(draftText);
        i := i + 1;
      }
      assert chunks[i..] == [];
    }

    /** The drain callback of `flushDraft`: each chunk grows the draft text, with no push. */
    method CollectChunks(chunks: seq<string>)
      modifies this`draftText
      ensures draftText == old(draftText) + Concat(chunks)
    {
      var i := 0;
      while i < |chunks|
        invariant 0 <= i <= |chunks|
        invariant draftText + Concat(chunks[i..]) == old(draftText) + Concat(chunks)
      {
        assert chunks[i..][1..] == chunks[i + 1..];
        AppendAssoc3(draftText, chunks[i], Concat(chunks[i + 1..]));
        draftText := draftText + chunks[i];
        i := i + 1;
      }
      assert chunks[i..] == [];
    }

    /** `updateDraftFromPartial(text)`. */
    method UpdateDraftFromPartial(text: Option<string>)
      requires Valid()
      modifies this`lastPartialText, this`draftText, draftStream, draftChunker
      ensures Valid()
      ensures State() == OnPartial(Config(), old(State()), text)
      ensures draftStream != null ==>
        draftStream.flushes == old(draftStream.flushes) && draftStream.stopped == old(draftStream.stopped)
    {
      OnPartialCoherent(Config(), State(), text);
      if draftStream == null || text.None? || text.value == "" {
        return;
      }
      var t := text.value;
      if t == lastPartialText {
        return;
      }
      if mode == Partial {
        lastPartialText := t;
        draftStream.Update(t);
        return;
      }
      var delta := t;
      if StartsWith(t, lastPartialText) {
        delta := t[|lastPartialText|..];
      } else {
        if draftChunker != null {
          draftChunker.Reset();
        }
        draftText := "";
      }
      lastPartialText := t;
      if delta == "" {
        return;
      }
      if draftChunker == null {
        draftText := t;
        draftStream.Update(draftText);
        return;
      }
      draftChunker.Append(delta);
      var chunks := draftChunker.Drain(false);
      EmitChunks(chunks);
    }

    /** `flushDraft()`. */
    method FlushDraft()
      requires Valid()
      modifies this`draftText, draftStream, draftChunker
      ensures Valid()
      ensures State() == OnFlush(Config(), old(State()))
      ensures draftStream != null ==>
        draftStream.flushes == old(draftStream.flushes) + 1 && draftStream.stopped == old(draftStream.stopped)
    {
      if draftStream == null {
        return;
      }
      if draftChunker != null {
        var buffered := draftChunker.HasBuffered();
        if buffered {
          var chunks := draftChunker.Drain(true);
          ForcedCovers(draftChunker.policy, old(draftChunker.buffer));
          CollectChunks(chunks);
          draftChunker.Reset();
          if draftText != "" {
            draftStream.Update(draftText);
          }
        }
      }
      draftStream.Flush();
    }

    /** `onReasoningStream`: non-empty reasoning text goes to the draft and to the thinking message. */
    method OnReasoningStream(text: Option<string>)
      requires Valid()
      modifies draftStream, thinkingUpdater
      ensures Valid()
      ensures State() == OnReasoning(Config(), old(State()), text)
      ensures draftStream != null ==>
        draftStream.flushes == old(draftStream.flushes) && draftStream.stopped == old(draftStream.stopped)
      ensures thinkingUpdater != null ==>
        thinkingUpdater.calls ==
          old(thinkingUpdater.calls) + if text.Some? && text.value != "" then [ShowReasoning(text.value)] else []
    {
      if text.Some? && text.value != "" {
        if draftStream != null {
          draftStream.Update(text.value);
        }
        if thinkingUpdater != null {
          thinkingUpdater.Call(ShowReasoning(text.value));
        }
      }
    }

    /** `onAgentEvent`: tool events become tool status calls on the thinking message. */
    method OnAgentEvent(stream: Value, data: Record)
      modifies thinkingUpdater
      ensures thinkingUpdater != null ==>
        thinkingUpdater.calls ==
          old(thinkingUpdater.calls) + match RouteToolEvent(stream, data) case Some(c) => [c] case None => []
    {
      if thinkingUpdater != null {
        var call := RouteToolEvent(stream, data);
        if call.Some? {
          thinkingUpdater.Call(call.value);
        }
      }
    }

    /**
     * `deliver(payload, info)`. A final reply first flushes and stops the
     * draft and applies the thinking message's completion action; every reply
     * then goes to `deliverReplies`, whose outcome is `transportDelivered`.
     */
    method Deliver(payload: ReplyPayload, kind: ReplyKind, transportDelivered: bool)
      requires Valid()
      modifies this`draftText, this`delivered, this`sent, this`events, draftStream, draftChunker, thinkingUpdater
      ensures Valid()
      ensures sent == old(sent) + [payload]
      ensures events == old(events) + [Delivered(transportDelivered)]
      ensures delivered == (old(delivered) || transportDelivered)
      ensures State() == if kind == FinalReply then OnFlush(Config(), old(State())) else old(State())
      ensures draftStream != null ==>
        && draftStream.stopped == (old(draftStream.stopped) || kind == FinalReply)
        && draftStream.flushes == old(draftStream.flushes) + if kind == FinalReply then 1 else 0
      ensures thinkingUpdater != null ==>
        thinkingUpdater.calls ==
          old(thinkingUpdater.calls) + if kind == FinalReply then [CompletionAction(thinkingCfg)] else []
    {
      if kind == FinalReply {
        CloseOnFinal();
      }
      RecordDelivery(payload, transportDelivered);
    }

    /** The final-reply part of `deliver`: flush and stop the draft, then the thinking message's completion action. */
    method CloseOnFinal()
      requires Valid()
      modifies this`draftText, draftStream, draftChunker, thinkingUpdater
      ensures Valid()
      ensures State() == OnFlush(Config(), old(State()))
      ensures draftStream != null ==>
        draftStream.stopped && draftStream.flushes == old(draftStream.flushes) + 1
      ensures thinkingUpdater != null ==>
        thinkingUpdater.calls == old(thinkingUpdater.calls) + [CompletionAction(thinkingCfg)]
    {
      FlushDraft();
      if draftStream != null {
        draftStream.Stop();
      }
      if thinkingUpdater != null {
        var completion := CompletionMode(thinkingCfg);
        if completion == Str("delete") {
          thinkingUpdater.Call(Delete);
        } else if completion == Str("summary") {
          thinkingUpdater.Call(Collapse);
        } else {
          thinkingUpdater.Call(Stop);
        }
      }
    }

    /** The reply goes to `deliverReplies`; a delivered outcome sets the delivered flag. */
    method RecordDelivery(payload: ReplyPayload, transportDelivered: bool)
      requires Valid()
      modifies this`delivered, this`sent, this`events
      ensures Valid()
      ensures sent == old(sent) + [payload]
      ensures events == old(events) + [Delivered(transportDelivered)]
      ensures delivered == (old(delivered) || transportDelivered)
    {
      sent := sent + [payload];
      assert (events + [Delivered(transportDelivered)])[..|events|] == events;
      events := events + [Delivered(transportDelivered)];
      if transportDelivered {
        delivered := true;
      }
    }

    /** `onSkip(payload, info)`: only skips whose reason is not "silent" are counted. */
    method OnSkip(reason: Value)
      requires Valid()
      modifies this`skippedNonSilent, this`events
      ensures Valid()
      ensures events == old(events) + [Skipped(reason)]
      ensures skippedNonSilent == old(skippedNonSilent) + if reason != Str("silent") then 1 else 0
    {
      assert (events + [Skipped(reason)])[..|events|] == events;
      events := events + [Skipped(reason)];
      if reason != Str("silent") {
        skippedNonSilent := skippedNonSilent + 1;
      }
    }

    /**
     * What runs after the reply dispatcher returns: the draft and the thinking
     * message are stopped, the fallback text is sent when owed (its transport
     * outcome is `fallbackDelivered`), and the post-delivery steps are chosen.
     */
    method Finish(queuedFinal: bool, fallbackDelivered: bool, canReact: bool, isGroup: bool, hasHistoryKey: bool)
      returns (hasFinalResponse: bool, steps: seq<PostStep>)
      requires Valid()
      modifies this`sent, draftStream, thinkingUpdater
      ensures Valid()
      ensures State() == old(State())
      ensures sent == old(sent) + if OwesFallback(After(events)) then [FallbackReply] else []
      ensures hasFinalResponse <==> queuedFinal || (OwesFallback(After(events)) && fallbackDelivered)
      ensures steps == PostDeliverySteps(hasFinalResponse, canReact, isGroup, hasHistoryKey)
      ensures draftStream != null ==> draftStream.stopped && draftStream.flushes == old(draftStream.flushes)
      ensures thinkingUpdater != null ==> thinkingUpdater.calls == old(thinkingUpdater.calls) + [Stop]
    {
      StopAll();
      var sentFallback := false;
      if !delivered && skippedNonSilent > 0 {
        sent := sent + [FallbackReply];
        sentFallback := fallbackDelivered;
      }
      hasFinalResponse := queuedFinal || sentFallback;
      steps := ChooseSteps(hasFinalResponse, canReact, isGroup, hasHistoryKey);
    }

    /** The `finally` of the dispatch: the draft and the thinking message are stopped. */
    method StopAll()
      requires Valid()
      modifies draftStream, thinkingUpdater
      ensures Valid()
      ensures State() == old(State())
      ensures draftStream != null ==> draftStream.stopped && draftStream.flushes == old(draftStream.flushes)
      ensures thinkingUpdater != null ==> thinkingUpdater.calls == old(thinkingUpdater.calls) + [Stop]
    {
      if draftStream != null {
        draftStream.Stop();
      }
      if thinkingUpdater != null {
        thinkingUpdater.Call(Stop);
      }
    }
  }

  /** The post-delivery steps as the dispatcher takes them: nothing but the history clear without a final response. */
  method ChooseSteps(hasFinalResponse: bool, canReact: bool, isGroup: bool, hasHistoryKey: bool)
    returns (steps: seq<PostStep>)
    ensures steps == PostDeliverySteps(hasFinalResponse, canReact, isGroup, hasHistoryKey)
  {
    steps := [];
    if !hasFinalResponse {
      if isGroup && hasHistoryKey {
        steps := [ClearHistory];
      }
      return;
    }
    if canReact {
      steps := steps + [AckReaction];
    }
    if isGroup && hasHistoryKey {
      steps := steps + [ClearHistory];
    }
  }

  // ---------------------------------------------------------------------------
  // The sticker branch

  class Sticker {
    const fileId: Option<string>
    const fileUniqueId: Option<string>
    const emoji: Option<string>
    const setName: Option<string>
    var cachedDescription: Option<string>

    constructor (fileId: Option<string>, fileUniqueId: Option<string>, emoji: Option<string>, setName: Option<string>,
                 cachedDescription: Option<string>)
      ensures this.fileId == fileId && this.fileUniqueId == fileUniqueId
      ensures this.emoji == emoji && this.setName == setName && this.cachedDescription == cachedDescription
    {
      this.fileId, this.fileUniqueId, this.emoji, this.setName := fileId, fileUniqueId, emoji, setName;
      this.cachedDescription := cachedDescription;
    }
  }

  /** The fields of the inbound context payload that the sticker branch reads or clears. */
  class InboundContext {
    const sticker: Sticker?
    const from: Option<string>
    var body: Option<string>
    var bodyForAgent: Option<string>
    var mediaPath: Option<string>
    var mediaType: Option<string>
    var mediaUrl: Option<string>
    var mediaPaths: Option<seq<string>>
    var mediaUrls: Option<seq<string>>
    var mediaTypes: Option<seq<string>>

    constructor (sticker: Sticker?, from: Option<string>, body: Option<string>, mediaPath: Option<string>)
      ensures this.sticker == sticker && this.from == from
      ensures this.body == body && bodyForAgent == body && this.mediaPath == mediaPath
      ensures mediaType == None && mediaUrl == None && mediaPaths == None && mediaUrls == None && mediaTypes == None
    {
      this.sticker, this.from := sticker, from;
      this.body, bodyForAgent, this.mediaPath := body, body, mediaPath;
      mediaType, mediaUrl, mediaPaths, mediaUrls, mediaTypes := None, None, None, None, None;
    }

    /** The sticker branch runs for a sticker with a unique id whose image was downloaded. */
    predicate HasDescribableSticker()
      reads this
    {
      sticker != null && Present(sticker.fileUniqueId) && Present(mediaPath)
    }
  }

  /** What is written to the sticker cache. */
  datatype StickerCacheEntry = StickerCacheEntry(
    fileId: Option<string>, fileUniqueId: string, emoji: Option<string>, setName: Option<string>,
    description: string, receivedFrom: Option<string>)

  /**
   * The sticker branch before dispatch. `described` is what the vision
   * describer returns when asked (it is asked only when no description is
   * cached) and `supportsVision` whether the agent's default model sees
   * images. With a description, the sticker remembers it and a cache entry is
   * produced; an agent without vision gets the sticker label as its body and
   * no media.
   */
  method DescribeSticker(ctx: InboundContext, supportsVision: bool, described: Option<string>)
    returns (entry: Option<StickerCacheEntry>)
    modifies ctx, ctx.sticker
    ensures entry.Some? <==>
      && old(ctx.HasDescribableSticker())
      && Present(StickerDescription(old(ctx.sticker.cachedDescription), described))
    ensures entry.None? ==> unchanged(ctx) && (ctx.sticker != null ==> unchanged(ctx.sticker))
    ensures entry.Some? ==>
      var st := ctx.sticker;
      var d := entry.value.description;
      && Some(d) == StickerDescription(old(st.cachedDescription), described)
      && st.cachedDescription == Some(d)
      && entry.value == StickerCacheEntry(st.fileId, st.fileUniqueId.value, st.emoji, st.setName, d, ctx.from)
      && (supportsVision ==> unchanged(ctx))
      && (!supportsVision ==>
          && ctx.body == Some(StickerLabel(st.emoji, st.setName, d))
          && ctx.bodyForAgent == ctx.body
          && ctx.mediaPath == None && ctx.mediaType == None && ctx.mediaUrl == None
          && ctx.mediaPaths == None && ctx.mediaUrls == None && ctx.mediaTypes == None)
  {
    entry := None;
    var st := ctx.sticker;
    if st != null && Present(st.fileUniqueId) && Present(ctx.mediaPath) {
      var description := StickerDescription(st.cachedDescription, described);
      if Present(description) {
        var d := description.value;
        var shown := StickerLabel(st.emoji, st.setName, d);
        st.cachedDescription := Some(d);
        if !supportsVision {
          ctx.body := Some(shown);
          ctx.bodyForAgent := Some(shown);
          ctx.mediaPath, ctx.mediaType, ctx.mediaUrl := None, None, None;
          ctx.mediaPaths, ctx.mediaUrls, ctx.mediaTypes := None, None, None;
        }
        entry := Some(StickerCacheEntry(st.fileId, st.fileUniqueId.value, st.emoji, st.setName, d, ctx.from));
      }
    }
  }
}
