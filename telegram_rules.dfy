/**
 * The decision rules of the Telegram dispatcher that are plain expressions:
 * who gets a draft stream and a thinking message, which completion action the
 * thinking message gets, how tool events are routed, how a sticker's
 * description is labelled, when the empty-response fallback is owed, and which
 * post-delivery steps run.
 */
module TelegramRules {
  import opened Wrappers
  import opened JsValues
  import opened DraftReconciler
  import opened ThinkingUpdaters

  const EMPTY_RESPONSE_FALLBACK := "No response generated. Please try again."

  /** Telegram's limit on one message's text, which also caps the draft. */
  const TELEGRAM_MAX_CHARS := 4096

  /** `Math.min(textLimit, 4096)`. */
  function DraftMaxChars(textLimit: int): (n: int)
    ensures n <= textLimit && n <= TELEGRAM_MAX_CHARS
    ensures n == textLimit || n == TELEGRAM_MAX_CHARS
  {
    if textLimit < TELEGRAM_MAX_CHARS then textLimit else TELEGRAM_MAX_CHARS
  }

  /**
   * A draft stream is used only with streaming on, in a private chat, with a
   * numeric thread id, and when the bot has topics enabled.
   */
  function CanStreamDraft(mode: StreamMode, isPrivateChat: bool, resolvedThreadId: Value, topicsEnabled: bool): (ok: bool)
    ensures ok ==> isPrivateChat && topicsEnabled && resolvedThreadId.Num?
    ensures mode == Off ==> !ok
    ensures mode != Off && isPrivateChat && resolvedThreadId.Num? && topicsEnabled ==> ok
  {
    mode != Off && isPrivateChat && resolvedThreadId.Num? && topicsEnabled
  }

  /** The `thinking` section of the Telegram configuration, fields as given. */
  datatype ThinkingConfig = ThinkingConfig(enabled: Value, mode: Value, completionMode: Value)

  /** The thinking message is used only in a private chat, with `enabled === true` and a mode other than "off". */
  function ThinkingEnabled(isPrivateChat: bool, cfg: Option<ThinkingConfig>): (ok: bool)
    ensures ok ==> isPrivateChat && cfg.Some?
    ensures cfg.Some? && cfg.value.enabled != Bool(true) ==> !ok
    ensures cfg.Some? && cfg.value.mode == Str("off") ==> !ok
    ensures isPrivateChat && cfg.Some? && cfg.value.enabled == Bool(true) && cfg.value.mode != Str("off") ==> ok
  {
    isPrivateChat && cfg.Some? && cfg.value.enabled == Bool(true) && cfg.value.mode != Str("off")
  }

  /** `thinkingCfg?.completionMode ?? "summary"`. */
  function CompletionMode(cfg: Option<ThinkingConfig>): (m: Value)
    ensures m != Undefined && m != Null
    ensures cfg.None? || cfg.value.completionMode == Undefined || cfg.value.completionMode == Null ==> m == Str("summary")
    ensures cfg.Some? && cfg.value.completionMode != Undefined && cfg.value.completionMode != Null ==>
      m == cfg.value.completionMode
  {
    if cfg.None? || cfg.value.completionMode == Undefined || cfg.value.completionMode == Null then Str("summary")
    else cfg.value.completionMode
  }

  /**
   * The one completion action a final delivery applies to the thinking
   * message: "delete" deletes it, "summary" (and an unset mode) collapses it,
   * any other mode just stops it.
   */
  function CompletionAction(cfg: Option<ThinkingConfig>): (c: ThinkingCall)
    ensures c == Delete || c == Collapse || c == Stop
    ensures c == Delete <==> CompletionMode(cfg) == Str("delete")
    ensures c == Collapse <==> CompletionMode(cfg) == Str("summary")
    ensures cfg.None? ==> c == Collapse
  {
    var mode := CompletionMode(cfg);
    if mode == Str("delete") then Delete
    else if mode == Str("summary") then Collapse
    else Stop
  }

  /** `args` is passed on only when it is a non-null object (arrays included). */
  function ToolArgs(v: Value): (a: Option<Value>)
    ensures a.Some? <==> (v.Obj? || v.Arr?)
    ensures a.Some? ==> a.value == v && Truthy(v)
  {
    if v.Obj? || v.Arr? then Some(v) else None
  }

  /**
   * `onAgentEvent`: a tool event with a non-empty string `toolCallId` becomes
   * `toolStart` for phase "start" and `toolEnd` for phase "result"; every
   * other event is ignored.
   */
  function RouteToolEvent(stream: Value, data: Record): (c: Option<ThinkingCall>)
    ensures c.Some? <==>
      && stream == Str("tool")
      && StringOrEmpty(Field(Some(data), "toolCallId")) != ""
      && (Field(Some(data), "phase") == Str("start") || Field(Some(data), "phase") == Str("result"))
    ensures c.Some? ==> c.value.ToolStart? || c.value.ToolEnd?
    ensures c.Some? && c.value.ToolStart? ==>
      && Field(Some(data), "phase") == Str("start")
      && c.value.toolCallId == Field(Some(data), "toolCallId").s
      && c.value.name == StringOrEmpty(Field(Some(data), "name"))
      && c.value.args == ToolArgs(Field(Some(data), "args"))
    ensures c.Some? && c.value.ToolEnd? ==>
      && Field(Some(data), "phase") == Str("result")
      && c.value.toolCallId == Field(Some(data), "toolCallId").s
      && c.value.isError == Truthy(Field(Some(data), "isError"))
  {
    if stream != Str("tool") then None
    else
      var phase := StringOrEmpty(Field(Some(data), "phase"));
      var toolCallId := StringOrEmpty(Field(Some(data), "toolCallId"));
      var name := StringOrEmpty(Field(Some(data), "name"));
      if phase == "start" && toolCallId != "" then
        Some(ToolStart(toolCallId, name, ToolArgs(Field(Some(data), "args"))))
      else if phase == "result" && toolCallId != "" then
        Some(ToolEnd(toolCallId, Truthy(Field(Some(data), "isError"))))
      else None
  }

  /** A string field that counts as present: set and non-empty. */
  predicate Present(v: Option<string>) {
    v.Some? && v.value != ""
  }

  /** The sticker's context: its emoji and `from "<set>"`, whichever are present, space-separated. */
  function StickerContext(emoji: Option<string>, setName: Option<string>): (ctx: string)
    ensures ctx == "" <==> !Present(emoji) && !Present(setName)
  {
    var from := if Present(setName) then "from \"" + setName.value + "\"" else "";
    if Present(emoji) && Present(setName) then emoji.value + " " + from
    else if Present(emoji) then emoji.value
    else from
  }

  /** The text an agent without vision sees in place of a sticker image. */
  function StickerLabel(emoji: Option<string>, setName: Option<string>, description: string): (shown: string)
    ensures !Present(emoji) && !Present(setName) ==> shown == "[Sticker] " + description
    ensures Present(emoji) && !Present(setName) ==> shown == "[Sticker " + emoji.value + "] " + description
    ensures !Present(emoji) && Present(setName) ==>
      shown == "[Sticker from \"" + setName.value + "\"] " + description
    ensures Present(emoji) && Present(setName) ==>
      shown == "[Sticker " + emoji.value + " from \"" + setName.value + "\"] " + description
  {
    var ctx := StickerContext(emoji, setName);
    "[Sticker" + (if ctx != "" then " " + ctx else "") + "] " + description
  }

  /** The description used for a sticker: the cached one if non-empty, else a freshly described one. */
  function StickerDescription(cached: Option<string>, described: Option<string>): (d: Option<string>)
    ensures Present(cached) ==> d == cached
    ensures !Present(cached) ==> d == described
  {
    if Present(cached) then cached else described
  }

  // ---------------------------------------------------------------------------
  // Delivery bookkeeping

  /** What a dispatch learns from its reply dispatcher: a delivery attempt's outcome, or a skipped reply and its reason. */
  datatype DeliveryEvent = Delivered(ok: bool) | Skipped(reason: Value)

  datatype DeliveryState = DeliveryState(delivered: bool, skippedNonSilent: nat)

  /** `deliver` sets `delivered` on success; `onSkip` counts skips whose reason is not "silent". */
  function Record(d: DeliveryState, e: DeliveryEvent): DeliveryState {
    match e
    case Delivered(ok) => d.(delivered := d.delivered || ok)
    case Skipped(reason) => d.(skippedNonSilent := d.skippedNonSilent + if reason != Str("silent") then 1 else 0)
  }

  /** The delivery state after a dispatch's events, oldest first. */
  function After(events: seq<DeliveryEvent>): DeliveryState
    decreases |events|
  {
    if events == [] then DeliveryState(false, 0)
    else Record(After(events[..|events| - 1]), events[|events| - 1])
  }

  /** The fallback text is owed when nothing was delivered yet some reply was skipped for a reason other than "silent". */
  predicate OwesFallback(d: DeliveryState) {
    !d.delivered && d.skippedNonSilent > 0
  }

  predicate CountsAsSkip(e: DeliveryEvent) {
    e.Skipped? && e.reason != Str("silent")
  }

  /** The positions of the skips that count. */
  function NonSilentSkips(events: seq<DeliveryEvent>): set<int> {
    set i | 0 <= i < |events| && CountsAsSkip(events[i])
  }

  /** `delivered` holds exactly when some attempt succeeded; the skip counter counts exactly the non-silent skips. */
  lemma AfterCounts(events: seq<DeliveryEvent>)
    ensures After(events).delivered <==> exists i :: 0 <= i < |events| && events[i] == Delivered(true)
    ensures After(events).skippedNonSilent == |NonSilentSkips(events)|
  {
    AfterDelivered(events);
    AfterSkips(events);
  }

  lemma {:induction false} AfterDelivered(events: seq<DeliveryEvent>)
    ensures After(events).delivered <==> exists i :: 0 <= i < |events| && events[i] == Delivered(true)
    decreases |events|
  {
    if events != [] {
      var n := |events| - 1;
      var prev := events[..n];
      AfterDelivered(prev);
      if exists i :: 0 <= i < |prev| && prev[i] == Delivered(true) {
        var i :| 0 <= i < |prev| && prev[i] == Delivered(true);
        assert events[i] == Delivered(true);
      }
      if exists i :: 0 <= i < |events| && events[i] == Delivered(true) {
        var i :| 0 <= i < |events| && events[i] == Delivered(true);
        if i < n {
          assert prev[i] == Delivered(true);
        }
      }
    }
  }

  lemma {:induction false} AfterSkips(events: seq<DeliveryEvent>)
    ensures After(events).skippedNonSilent == |NonSilentSkips(events)|
    decreases |events|
  {
    if events != [] {
      var n := |events| - 1;
      var prev := events[..n];
      AfterSkips(prev);
      var old_ := NonSilentSkips(prev);
      var new_ := NonSilentSkips(events);
      if CountsAsSkip(events[n]) {
        assert new_ == old_ + {n};
      } else {
        assert new_ == old_;
      }
    }
  }

  /**
   * The fallback is owed exactly when no delivery attempt succeeded and at
   * least one reply was skipped for a reason other than "silent".
   */
  lemma FallbackOwedExactly(events: seq<DeliveryEvent>)
    ensures OwesFallback(After(events)) <==>
      && (forall i :: 0 <= i < |events| ==> events[i] != Delivered(true))
      && (exists i :: 0 <= i < |events| && CountsAsSkip(events[i]))
  {
    AfterCounts(events);
    if exists i :: 0 <= i < |events| && CountsAsSkip(events[i]) {
      var i :| 0 <= i < |events| && CountsAsSkip(events[i]);
      assert i in NonSilentSkips(events);
    } else {
      assert NonSilentSkips(events) == {};
    }
  }

  /** `delivered` never goes back from true to false, and the skip counter never decreases. */
  lemma {:induction false} AfterMonotone(events: seq<DeliveryEvent>, k: nat)
    requires k <= |events|
    ensures After(events[..k]).delivered ==> After(events).delivered
    ensures After(events[..k]).skippedNonSilent <= After(events).skippedNonSilent
    decreases |events| - k
  {
    if k < |events| {
      AfterMonotone(events, k + 1);
      assert events[..k + 1][..k] == events[..k];
    } else {
      assert events[..k] == events;
    }
  }

  // ---------------------------------------------------------------------------
  // After the reply flow

  datatype PostStep = AckReaction | ClearHistory

  /**
   * The steps after the reply flow: the acknowledgement reaction only when a
   * final response exists and a reaction can be set, then the group history
   * clear, which runs whether or not there was a final response.
   */
  function PostDeliverySteps(hasFinalResponse: bool, canReact: bool, isGroup: bool, hasHistoryKey: bool): (steps: seq<PostStep>)
    ensures AckReaction in steps <==> hasFinalResponse && canReact
    ensures ClearHistory in steps <==> isGroup && hasHistoryKey
    ensures AckReaction in steps ==> steps[0] == AckReaction
    ensures forall i, j :: 0 <= i < j < |steps| ==> steps[i] != steps[j]
  {
    var clear := if isGroup && hasHistoryKey then [ClearHistory] else [];
    if !hasFinalResponse then clear
    else (if canReact then [AckReaction] else []) + clear
  }
}
