# Telegram dispatch and provider stream parameters, modelled in Dafny

This project models two pieces of the OpenClaw agent gateway.

**Telegram message dispatch** (`src/telegram/bot-message-dispatch.ts`):

- An inbound Telegram message is dispatched to an agent.
- The reply may be streamed into a live *draft*. In "partial" mode every cumulative snapshot is pushed. In "block" mode the new suffix goes through a block chunker, and only the drained chunks are pushed.
- A separate *thinking message* shows reasoning and tool status.
- An uncached sticker is described once and labelled for agents without vision.
- Every delivery is recorded.
- A fallback text is sent when every reply was skipped.
- The acknowledgement reaction and the group-history clear are chosen afterwards.

The dispatcher's closures over `lastPartialText`, `draftText` and `deliveryState` become the class `TelegramDispatch.Dispatch`. The class has those fields, and its callbacks are methods with `modifies` clauses. The draft stream, the block chunker and the thinking updater are small classes. Each records the calls it receives.

Every callback is proved against a value-level reconciler in `DraftReconciler`:

- `OnPartial`, `OnReasoning` and `OnFlush` say how one event changes the reconciler's state.
- The reconciler's lemmas prove that, for every boundary policy:
  - the draft text and what the chunker holds always spell the last snapshot;
  - growing snapshots make a draft that only grows;
  - a reset never mixes old and new text;
  - after a run of answer snapshots and the final flush, the draft shows the last snapshot.
- Reasoning text goes to the same draft stream as the answer (bot-message-dispatch.ts:292). For runs that interleave the two (`Replay` over `DraftEvent`s):
  - the draft text and what the chunker holds still spell the last answer snapshot;
  - the draft ends on the answer only when the last event is a new answer snapshot.
  - Reasoning that arrives after the last answer snapshot stays on the draft after the flush. So does reasoning followed by a repeat of the previous snapshot, which the dispatcher ignores. `ReasoningCanOutlastAnswer` exhibits both cases. The final reply is sent as its own message, so this affects only the draft preview.

**Provider stream parameters** (`src/agents/pi-embedded-runner/extra-params.ts`):

- The per-model `params` are looked up and a per-call override is merged in. Anthropic's cache retention is resolved, including the legacy TTL spellings.
- The stream params a provider gets are chosen.
- Anthropic beta features are collected into an insertion-ordered set. They are merged into the `anthropic-beta` header, together with the betas pi-ai injects itself.
- The Responses-API `store` flag is forced only for direct OpenAI.
- `applyExtraParamsToAgent` reassigns `agent.streamFn` once per applicable wrapper. `StreamWrappers` models this as the method `ApplyExtraParamsToAgent` on an `Agent` class. Each wrapper is a `Layer`, and one call through the finished chain is the function `Invoke`.
- The lemmas prove:
  - the wrapper order;
  - that the caller's options and headers win;
  - that parsing a merged beta header gives back the existing betas followed by the new ones, first occurrences kept;
  - that the merge is idempotent;
  - that an Anthropic call carries every configured beta, pi-ai's betas and a cache retention.

Supporting modules:

- `JsValues`: untyped JavaScript values.
- `JsStrings`: `trim`, ASCII `toLowerCase`, `startsWith`, `includes`, and `split`/`join` on one character.
- `HeaderRecords`: header objects as ordered key/value lists, because `Object.keys(...).find` depends on key order.
- `InsertionSets`: JavaScript `Set` as an insertion-ordered sequence.
- `BlockChunking`: the chunker. Its boundary policy is a parameter.
- `Wrappers`: `Option`.

Where the code and its comments disagree, the model follows the code:

- `thinkingUpdater.stop()` runs after the dispatcher returns even when a final delivery already deleted or collapsed the thinking message (bot-message-dispatch.ts:322). So the updater can receive two closing calls.
- In block mode the early `return` on an empty delta (bot-message-dispatch.ts:126) is unreachable. A new snapshot is never the empty string and never equals the last one.

## Model

| member | source | states |
|---|---|---|
| TelegramRules.DraftMaxChars | src/telegram/bot-message-dispatch.ts:69 | the draft limit is the text limit capped at Telegram's 4096, and is one of the two |
| TelegramRules.CompletionMode | src/telegram/bot-message-dispatch.ts:238 | an unset completion mode (no config, undefined or null) reads as "summary"; a set mode is returned as it is |
| TelegramRules.CompletionAction | src/telegram/bot-message-dispatch.ts:238-245 | a final delivery applies exactly one action: delete iff the mode is "delete", collapse iff it is "summary" (the default), otherwise stop |
| TelegramRules.ToolArgs | src/telegram/bot-message-dispatch.ts:304-307 | tool args are passed on exactly when they are an object or an array (a non-null object), and then unchanged |
| TelegramRules.RouteToolEvent | src/telegram/bot-message-dispatch.ts:299-311 | an event becomes a thinking call iff it is a tool event with a non-empty string toolCallId and phase "start" or "result"; start carries id, name and exactly ToolArgs of the event's args, result carries id and the truthiness of isError |
| TelegramRules.StickerContext | src/telegram/bot-message-dispatch.ts:185-187 | the sticker context is empty iff neither emoji nor set name is present |
| TelegramRules.StickerLabel | src/telegram/bot-message-dispatch.ts:185-188 | the label for each of the four emoji/set-name combinations, written out |
| TelegramRules.StickerDescription | src/telegram/bot-message-dispatch.ts:174-182 | a non-empty cached description wins; otherwise the freshly described one is used |
| TelegramRules.AfterCounts | src/telegram/bot-message-dispatch.ts:263-268 | after any run of events, `delivered` holds iff some delivery succeeded, and the skip counter equals the number of non-silent skips |
| TelegramRules.AfterDelivered | src/telegram/bot-message-dispatch.ts:263-265 | `delivered` holds iff some delivery attempt succeeded |
| TelegramRules.AfterSkips | src/telegram/bot-message-dispatch.ts:267-268 | the skip counter counts exactly the positions of skips whose reason is not "silent" |
| TelegramRules.FallbackOwedExactly | src/telegram/bot-message-dispatch.ts:324 | the fallback is owed iff no delivery succeeded and at least one reply was skipped for a reason other than "silent" |
| TelegramRules.AfterMonotone | src/telegram/bot-message-dispatch.ts:263-268 | `delivered` never goes back to false, and the skip counter never decreases, as events arrive |
| TelegramRules.PostDeliverySteps | src/telegram/bot-message-dispatch.ts:342-365 | the reaction runs iff there is a final response and a reaction can be set, and then comes first; the history clear runs iff group and history key, with or without a final response; no step is repeated |
| TelegramDispatch.ChooseSteps | src/telegram/bot-message-dispatch.ts:342-365 | the imperative step selection equals PostDeliverySteps |
| TelegramRules.CanStreamDraft | src/telegram/bot-message-dispatch.ts:70-74 | a draft stream is possible only in a private chat with a numeric thread id and topics enabled, never with streaming off, and always when all four hold |
| TelegramRules.ThinkingEnabled | src/telegram/bot-message-dispatch.ts:89-90 | the thinking message is used only in a private chat with a thinking config; an `enabled` other than the boolean true or a mode of "off" disables it; otherwise it is used |
| DraftReconciler.OnPartial | src/telegram/bot-message-dispatch.ts:109-140 | a missing, empty or repeated snapshot changes nothing; a new snapshot becomes the last one; partial mode pushes exactly the snapshot |
| DraftReconciler.OnReasoning | src/telegram/bot-message-dispatch.ts:288-296 | reasoning text leaves the reconciler's texts alone and, exactly when non-empty and streaming, pushes one draft update that is the reasoning text itself; earlier updates are kept |
| DraftReconciler.AccumulateGrows | src/telegram/bot-message-dispatch.ts:133-139 | pushing non-empty chunks one by one produces one update per chunk, each extending the base and the previous one; the last is base plus all chunks |
| DraftReconciler.OnPartialCoherent | src/telegram/bot-message-dispatch.ts:109-140 | every snapshot keeps the invariant: in block mode draft text plus chunker contents spell the last snapshot, for every boundary policy |
| DraftReconciler.BlockStepSpells | src/telegram/bot-message-dispatch.ts:117-139 | in block mode the new draft text, the drained chunks and what stays pending spell the new snapshot, with or without a reset |
| DraftReconciler.ExtensionFeedsSuffix | src/telegram/bot-message-dispatch.ts:117-139 | an extending snapshot feeds only its new suffix to the chunker; earlier updates are kept and the new ones form a prefix chain over the old draft text |
| DraftReconciler.ResetStartsOver | src/telegram/bot-message-dispatch.ts:117-124 | a non-extending snapshot restarts the draft from the snapshot alone; every text pushed after the reset is a prefix of the new snapshot |
| DraftReconciler.FlushDrainsAll | src/telegram/bot-message-dispatch.ts:141-154 | after a flush nothing is pending, the draft text is the last snapshot in block mode, the draft text is pushed once iff something was pending, and the invariant holds |
| DraftReconciler.OnPartialShows | src/telegram/bot-message-dispatch.ts:109-140 | every snapshot preserves "the draft's last update is the current answer text whenever that text is non-empty" |
| DraftReconciler.RunInvariant | src/telegram/bot-message-dispatch.ts:109-140 | after any run of snapshots the reconciler is coherent and the draft shows the current answer text |
| DraftReconciler.FinalDraftIsLastSnapshot | src/telegram/bot-message-dispatch.ts:109-154 | after any run of answer snapshots and the final flush, the draft's last update is the last snapshot, and in block mode nothing is left pending |
| DraftReconciler.OnFlush | src/telegram/bot-message-dispatch.ts:141-154 | the flush keeps the last snapshot; with a chunker it moves everything pending into the draft text and pushes that text once iff something was pending; without a chunker it changes nothing |
| DraftReconciler.Step | src/telegram/bot-message-dispatch.ts:287-296 | a reasoning event leaves the last snapshot, the draft text and the pending text alone |
| DraftReconciler.ReplaySnapshots | src/telegram/bot-message-dispatch.ts:287 | replaying answer snapshots alone is the snapshot run `Run` |
| DraftReconciler.ReplayCoherent | src/telegram/bot-message-dispatch.ts:287-296 | with reasoning interleaved in any way, the reconciler stays coherent: draft text plus chunker contents spell the last answer snapshot |
| DraftReconciler.NewSnapshotThenFlush | src/telegram/bot-message-dispatch.ts:109-154 | from any coherent state, a new answer snapshot followed by the flush leaves that snapshot as the draft's last text, in every mode and for every policy |
| DraftReconciler.MixedFinalDraft | src/telegram/bot-message-dispatch.ts:287-296 | after any interleaving of reasoning and answer snapshots, a final new snapshot and the flush leave the draft showing that snapshot |
| DraftReconciler.ReasoningCanOutlastAnswer | src/telegram/bot-message-dispatch.ts:290-293 | in partial mode, answer, reasoning, then the same answer again leaves the draft's texts as [answer, reasoning]: the draft ends on the reasoning, and the texts are not a prefix chain |
| DraftReconciler.GrowingSnapshotsGrowDraft | src/telegram/bot-message-dispatch.ts:117-139 | when each snapshot extends the previous one, every update extends all earlier updates: the draft never drops text it showed |
| DraftReconciler.GrowStep | src/telegram/bot-message-dispatch.ts:117-139 | one extending snapshot keeps the prefix chain and keeps the answer text ahead of the last update |
| BlockChunking.SegmentCovers | src/telegram/bot-message-dispatch.ts:132-139 | a non-forced drain loses and invents nothing: its non-empty chunks followed by the leftover are the pending text |
| BlockChunking.ForcedCovers | src/telegram/bot-message-dispatch.ts:143-150 | a forced drain emits all pending text, in non-empty chunks |
| BlockChunking.BlockChunker.Drain | src/telegram/bot-message-dispatch.ts:133-149 | the loop emits exactly the policy's chunks (plus the rest when forced); the chunks followed by the new buffer are the old buffer; a forced drain empties the buffer |
| BlockChunking.BlockChunker.Append | src/telegram/bot-message-dispatch.ts:132 | the delta is appended to the buffer |
| BlockChunking.BlockChunker.HasBuffered | src/telegram/bot-message-dispatch.ts:143 | true iff the buffer is non-empty |
| BlockChunking.BlockChunker.Reset | src/telegram/bot-message-dispatch.ts:122 | the buffer is discarded |
| DraftStreams.DraftStream.Update | src/telegram/bot-message-dispatch.ts:114 | one more text is recorded; flushes and stop state unchanged |
| DraftStreams.DraftStream.Flush | src/telegram/bot-message-dispatch.ts:153 | one more flush; texts unchanged |
| DraftStreams.DraftStream.Stop | src/telegram/bot-message-dispatch.ts:236 | the stream is stopped; texts and flushes unchanged |
| ThinkingUpdaters.ThinkingUpdater.Call | src/telegram/bot-message-dispatch.ts:240-244 | one call is appended to the updater's log |
| TelegramDispatch.Dispatch.constructor | src/telegram/bot-message-dispatch.ts:68-108 | a draft stream exists iff streaming is allowed, capped at DraftMaxChars; a chunker iff block mode with chunking; a thinking updater iff thinking is enabled; all texts and counters start empty |
| TelegramDispatch.Dispatch.EmitChunks | src/telegram/bot-message-dispatch.ts:135-138 | the emit loop grows the draft text by all chunks and pushes each intermediate text, as Accumulate says |
| TelegramDispatch.Dispatch.CollectChunks | src/telegram/bot-message-dispatch.ts:146-148 | the forced-drain callback grows the draft text by all chunks without pushing |
| TelegramDispatch.Dispatch.UpdateDraftFromPartial | src/telegram/bot-message-dispatch.ts:109-140 | the new state is exactly OnPartial of the old one; the invariant is kept; flushes and stop state are untouched |
| TelegramDispatch.Dispatch.FlushDraft | src/telegram/bot-message-dispatch.ts:141-154 | the new state is exactly OnFlush of the old one, and the stream is flushed once |
| TelegramDispatch.Dispatch.OnReasoningStream | src/telegram/bot-message-dispatch.ts:288-296 | the new state is OnReasoning of the old one; the thinking message gets the reasoning text iff it is non-empty |
| TelegramDispatch.Dispatch.OnAgentEvent | src/telegram/bot-message-dispatch.ts:297-314 | the thinking message gets exactly the call RouteToolEvent chooses, if any |
| TelegramDispatch.Dispatch.Deliver | src/telegram/bot-message-dispatch.ts:233-266 | the reply is sent and recorded, and delivered becomes true iff it was already true or this delivery succeeded. A final reply also flushes and stops the draft (state becomes OnFlush) and applies CompletionAction once; other replies leave the draft and the thinking message alone |
| TelegramDispatch.Dispatch.CloseOnFinal | src/telegram/bot-message-dispatch.ts:234-247 | flush then stop the draft, then exactly the completion action on the thinking message |
| TelegramDispatch.Dispatch.RecordDelivery | src/telegram/bot-message-dispatch.ts:248-265 | the payload is sent once; delivered becomes true iff the transport delivered it |
| TelegramDispatch.Dispatch.OnSkip | src/telegram/bot-message-dispatch.ts:267-269 | the counter grows by one iff the reason is not "silent" |
| TelegramDispatch.Dispatch.Finish | src/telegram/bot-message-dispatch.ts:321-365 | the draft and thinking message are stopped; the fallback text is sent iff it is owed; there is a final response iff one was queued or the fallback was delivered; the steps are PostDeliverySteps |
| TelegramDispatch.Dispatch.StopAll | src/telegram/bot-message-dispatch.ts:321-322 | the draft is stopped and the thinking message gets one stop; reconciler state unchanged |
| TelegramDispatch.DescribeSticker | src/telegram/bot-message-dispatch.ts:170-216 | a cache entry is produced iff the sticker has a unique id and media and a description is found. The sticker then remembers that description. A non-vision agent's body becomes the sticker label and all media fields are cleared; otherwise nothing changes |
| ExtraParams.ResolveExtraParams | src/agents/pi-embedded-runner/extra-params.ts:24-32 | params are found iff the "provider/model" key has a params entry, and are that entry |
| ExtraParams.ModelKeyInjective | src/agents/pi-embedded-runner/extra-params.ts:29 | for slash-free providers, different provider/model pairs never share a key |
| ExtraParams.ParseCacheRetention | src/agents/pi-embedded-runner/extra-params.ts:59-62 | exactly "none", "short" and "long" are valid retentions, each read as itself |
| ExtraParams.ResolveCacheRetention | src/agents/pi-embedded-runner/extra-params.ts:50-75 | only Anthropic gets a retention. A valid cacheRetention wins. Otherwise the legacy TTL maps "5m" to short and "1h" to long, and the default is short |
| ExtraParams.NumberParam | src/agents/pi-embedded-runner/extra-params.ts:100-105 | a param is kept iff it is a number, and unchanged |
| ExtraParams.ResolveStreamParams | src/agents/pi-embedded-runner/extra-params.ts:99-132 | there are no params iff temperature and maxTokens are not numbers and the provider is neither Anthropic nor google-antigravity. Otherwise the params are the numeric fields, the resolved retention and the antigravity headers; never empty |
| ExtraParams.IsDirectOpenAIBaseUrl | src/agents/pi-embedded-runner/extra-params.ts:147-159 | a missing, non-string or blank base URL counts as direct; a non-blank one is direct iff its host is OpenAI's |
| ExtraParams.ShouldForceResponsesStore | src/agents/pi-embedded-runner/extra-params.ts:147-176 | store is forced only for api "openai-responses" with provider "openai". For those, it is forced when the base URL is missing, blank or on a direct host, and never for a non-blank base URL on another host |
| ExtraParams.TrimmedNonEmpty | src/agents/pi-embedded-runner/extra-params.ts:207-210 | every item is non-empty and trimmed and is some part trimmed; every part that is not blank appears trimmed |
| ExtraParams.TrimmedNonEmptyFromParts | src/agents/pi-embedded-runner/extra-params.ts:207-210 | trim-and-filter invents nothing: every item is some part, trimmed |
| ExtraParams.TrimmedNonEmptyAppend | src/agents/pi-embedded-runner/extra-params.ts:207-210 | trim-and-filter works part by part: the items of a concatenation are the items of each side, in order |
| ExtraParams.TrimmedNonEmptySingle | src/agents/pi-embedded-runner/extra-params.ts:207-210 | one part gives its trimmed self, or nothing when blank |
| ExtraParams.TrimmedNonEmptyNoComma | src/agents/pi-embedded-runner/extra-params.ts:207-210 | trimming comma-free parts gives comma-free items |
| ExtraParams.ParseHeaderList | src/agents/pi-embedded-runner/extra-params.ts:203-211 | a non-string gives no items; every item is non-empty, trimmed and comma-free |
| ExtraParams.ParseHeaderListConcat | src/agents/pi-embedded-runner/extra-params.ts:203-211 | the items of `a,b` are the items of `a` followed by the items of `b` |
| ExtraParams.ParseHeaderListPiece | src/agents/pi-embedded-runner/extra-params.ts:203-211 | a comma-free value gives its trimmed self as the one item, or no item when blank |
| ExtraParams.ParseHeaderListPadded | src/agents/pi-embedded-runner/extra-params.ts:203-211 | for clean x and y, "x, y, " parses to exactly [x, y] |
| ExtraParams.TrimmedNonEmptyOfClean | src/agents/pi-embedded-runner/extra-params.ts:207-210 | clean items survive trim-and-filter unchanged |
| ExtraParams.ParseJoin | src/agents/pi-embedded-runner/extra-params.ts:203-211 | parsing the comma-join of clean items gives back the items (round trip) |
| ExtraParams.IsAnthropic1MModel | src/agents/pi-embedded-runner/extra-params.ts:198-201 | an id is a 1M model iff its trimmed form starts, letter case ignored, with "claude-opus-4" or "claude-sonnet-4"; in particular an id with either plain prefix is one |
| ExtraParams.OtherModelsNotOneM | src/agents/pi-embedded-runner/extra-params.ts:198-201 | no id starting with "claude-haiku-" or "claude-3-" is a 1M-context model |
| ExtraParams.OtherFamilyNotOneM | src/agents/pi-embedded-runner/extra-params.ts:198-201 | an id with a plain prefix that differs from both 1M prefixes at some position is not a 1M-context model |
| ExtraParams.OneMModelIgnoresCaseAndPadding | src/agents/pi-embedded-runner/extra-params.ts:198-201 | the 1M-context model test gives the same answer for an id, its lower-cased form and its trimmed form |
| ExtraParams.BetaItem | src/agents/pi-embedded-runner/extra-params.ts:228-230 | one array entry gives at most one beta, non-empty and trimmed |
| ExtraParams.ArrayBetas | src/agents/pi-embedded-runner/extra-params.ts:226-232 | every beta read from an array is non-empty and trimmed |
| ExtraParams.ArrayBetasMember | src/agents/pi-embedded-runner/extra-params.ts:226-232 | a beta comes out of a configured array iff some entry is a string that trims to it, non-blank |
| ExtraParams.ConfiguredBetas | src/agents/pi-embedded-runner/extra-params.ts:222-232 | the configured betas are duplicate-free, non-empty and trimmed; a beta is configured iff it is the trimmed non-blank string, or the configured value is an array with an entry that trims to it; for an array they come in first-seen order (KeepFirst of the kept entries) |
| ExtraParams.AnthropicBetas | src/agents/pi-embedded-runner/extra-params.ts:213-243 | no betas for other providers. The result is never empty and is duplicate-free. A beta is in it iff it is configured, or it is the 1M-context beta with context1m true on a 1M model. It is the configured betas in their order, then the 1M-context beta last when wanted and new; None exactly when that list is empty |
| ExtraParams.AddContext1M | src/agents/pi-embedded-runner/extra-params.ts:234-240 | the 1M-context beta joins the set iff wanted, and the set stays duplicate-free; the configured betas keep their order and a new 1M-context beta is appended at the end |
| ExtraParams.ArrayBetasNext | src/agents/pi-embedded-runner/extra-params.ts:227-231 | one more array entry adds its trimmed string to the set iff it is a non-blank string |
| ExtraParams.CollectArrayBetas | src/agents/pi-embedded-runner/extra-params.ts:226-232 | the loop over the array yields the deduplicated betas in first-seen order |
| ExtraParams.ResolveAnthropicBetas | src/agents/pi-embedded-runner/extra-params.ts:213-243 | the imperative collection equals AnthropicBetas |
| ExtraParams.FindBetaKey | src/agents/pi-embedded-runner/extra-params.ts:250 | no key is found iff no key lower-cases to "anthropic-beta"; a found key is the first such key |
| ExtraParams.BetaHeaderKey | src/agents/pi-embedded-runner/extra-params.ts:250-253 | the chosen key lower-cases to "anthropic-beta"; it is the existing key found, whatever its case, and "anthropic-beta" only when no such key exists |
| ExtraParams.HeaderField | src/agents/pi-embedded-runner/extra-params.ts:251 | reading a header gives a string iff the key is present, and then its value |
| ExtraParams.ExistingBetas | src/agents/pi-embedded-runner/extra-params.ts:250-251 | the betas already listed are clean header-list items |
| ExtraParams.MergeAnthropicBetaHeader | src/agents/pi-embedded-runner/extra-params.ts:245-256 | the beta key holds the comma-join of existing-then-new betas, deduplicated. Every other header is unchanged. The key is added last only when new |
| ExtraParams.MergeKeepsEveryBeta | src/agents/pi-embedded-runner/extra-params.ts:245-256 | the merged header parses back to the existing betas then the new ones, first occurrences kept; no beta is lost |
| ExtraParams.ParsedBetaHeader | src/agents/pi-embedded-runner/extra-params.ts:250-254 | the merged header's value parses back to the deduplicated betas |
| ExtraParams.BetaHeaderKeyStable | src/agents/pi-embedded-runner/extra-params.ts:250-253 | after a merge, the same key is found again |
| ExtraParams.MergeIdempotent | src/agents/pi-embedded-runner/extra-params.ts:245-256 | merging the same betas twice gives the same headers as merging once |
| ExtraParams.IsAnthropicOAuthApiKey | src/agents/pi-embedded-runner/extra-params.ts:276-278 | a key is an OAuth token iff it is a string in which "sk-ant-oat" occurs at some offset |
| ExtraParams.PiAiBetas | src/agents/pi-embedded-runner/extra-params.ts:262-291 | pi-ai's betas for the key kind are duplicate-free clean items |
| ExtraParams.PiAiBetasClean | src/agents/pi-embedded-runner/extra-params.ts:262-274 | both constant beta lists are duplicate-free and hold clean items |
| ExtraParams.AllBetas | src/agents/pi-embedded-runner/extra-params.ts:289-292 | the sent betas are duplicate-free and are exactly pi-ai's plus the configured ones. They always include the default pair, and include the OAuth betas for an OAuth key |
| ExtraParams.PiAiBetasFirst | src/agents/pi-embedded-runner/extra-params.ts:292 | pi-ai's betas come first, then the configured ones pi-ai did not send, first occurrences kept |
| ExtraParams.FilterOverride | src/agents/pi-embedded-runner/extra-params.ts:367-372 | an override is used iff it has keys; then its keys are exactly those not set to undefined, with their values |
| ExtraParams.MergeParams | src/agents/pi-embedded-runner/extra-params.ts:367-373 | a key is merged iff configured or defined in the override. The override's defined values win and the others come from the config. With no override the config is kept as is |
| StreamWrappers.Plan | src/agents/pi-embedded-runner/extra-params.ts:374-407 | the wrappers come in the source's order with the store wrapper outermost. Params iff resolved, betas iff non-empty, OpenRouter iff asked for, Z.AI iff wanted |
| StreamWrappers.PlanWraps | src/agents/pi-embedded-runner/extra-params.ts:374-407 | wrapping with the plan is wrapping with each optional step in turn, then the store wrapper |
| StreamWrappers.WrapStreamFn | src/agents/pi-embedded-runner/extra-params.ts:374-407 | each conditional reassignment of `agent.streamFn` yields the plan's chain, ending in the store wrapper |
| StreamWrappers.ApplyExtraParamsToAgent | src/agents/pi-embedded-runner/extra-params.ts:355-408 | the agent ends with the model's config merged with the override, wrapped by that plan, and the store wrapper outermost |
| StreamWrappers.WithParams | src/agents/pi-embedded-runner/extra-params.ts:137-142 | the params wrapper keeps the caller's API key and always passes headers; a temperature, maxTokens or cacheRetention the caller leaves unset takes the configured value |
| StreamWrappers.ParamsCallerWins | src/agents/pi-embedded-runner/extra-params.ts:137-142 | every option the caller gives wins over the configured one, an option the caller leaves unset takes the configured one, and every caller header overrides the configured header |
| StreamWrappers.WithBetaHeader | src/agents/pi-embedded-runner/extra-params.ts:293-296 | the beta wrapper keeps the API key and always passes headers |
| StreamWrappers.WithOpenRouterHeaders | src/agents/pi-embedded-runner/extra-params.ts:306-313 | the OpenRouter wrapper keeps the API key and always passes headers |
| StreamWrappers.OpenRouterCallerWins | src/agents/pi-embedded-runner/extra-params.ts:304-314 | attribution headers never hide a caller header, and both are present |
| StreamWrappers.AnthropicCallCarriesBetas | src/agents/pi-embedded-runner/extra-params.ts:280-298 | a call through an Anthropic agent's chain reaches the plain function with a cache retention, the caller's other headers unchanged, and a beta header. That header parses to the caller's betas, then pi-ai's and the configured ones, first occurrences kept. Store is forced iff direct Responses; tool_stream is never forced |
| StreamWrappers.BetaCall | src/agents/pi-embedded-runner/extra-params.ts:280-298 | the same, for the params, beta and store wrappers over any plain function |
| StreamWrappers.AnthropicChain | src/agents/pi-embedded-runner/extra-params.ts:381-387 | an Anthropic agent with betas gets exactly the params, beta and store wrappers, in that order, and params without headers but with a retention |
| StreamWrappers.AnthropicHeaders | src/agents/pi-embedded-runner/extra-params.ts:137-142 | under the beta wrapper, Anthropic's params wrapper passes the merged headers on unchanged and always sets a retention |
| StreamWrappers.AllBetasClean | src/agents/pi-embedded-runner/extra-params.ts:289-292 | with comma-free configured betas, every beta sent is a clean header-list item |
| HeaderRecords.Assign | src/agents/pi-embedded-runner/extra-params.ts:254 | the key gets the value and every other key is unchanged; a new key goes last |
| HeaderRecords.SpreadGet | src/agents/pi-embedded-runner/extra-params.ts:141 | in `{...a, ...b}` a key reads from `b` when present there, else from `a` |
| HeaderRecords.SpreadKeys | src/agents/pi-embedded-runner/extra-params.ts:141 | the spread's keys are `a`'s keys, then `b`'s new keys, in order |
| InsertionSets.Add | src/agents/pi-embedded-runner/extra-params.ts:225-236 | `set.add(x)` appends a new element at the end and leaves a set that already holds it unchanged; distinctness is kept |
| InsertionSets.DedupeKeepsFirst | src/agents/pi-embedded-runner/extra-params.ts:252 | `[...new Set(xs)]` equals the first-occurrence reference definition |
| InsertionSets.AddAllKeepsFirst | src/agents/pi-embedded-runner/extra-params.ts:252 | adding to a distinct set appends the first occurrences of the new elements, in order |
| JsStrings.Trim | src/agents/pi-embedded-runner/extra-params.ts:209 | the result is trimmed, and is `s` with only whitespace removed at both ends |
| JsStrings.TrimOfTrimmed | src/agents/pi-embedded-runner/extra-params.ts:209 | trim leaves a trimmed string unchanged, so it is idempotent |
| JsStrings.TrimLower | src/agents/pi-embedded-runner/extra-params.ts:199 | trim and lower-casing commute |
| JsStrings.IncludesIff | src/agents/pi-embedded-runner/extra-params.ts:277 | `includes` holds iff the substring occurs at some offset |
| JsStrings.SplitConcat | src/agents/pi-embedded-runner/extra-params.ts:208 | splitting `a sep b` gives the pieces of `a` followed by the pieces of `b` |
| JsStrings.JoinSplit | src/agents/pi-embedded-runner/extra-params.ts:208 | joining the pieces of a split gives back the string |
| JsStrings.SplitJoin | src/agents/pi-embedded-runner/extra-params.ts:254 | splitting a join of separator-free pieces gives back the pieces |

## Left out

- I/O, the network and asynchrony are left out: Telegram API calls, `deliverReplies`, the reply dispatcher, typing indicators and model-catalog loading. The transport outcome of a delivery is a boolean parameter. Awaited calls are taken to complete in program order.
- A delivery that throws is not modelled. `onError` only logs, and such a delivery counts as not delivered.
- The sticker branch's vision support check and image describer are parameters (`supportsVision`, `described`). The cache write is returned as a `StickerCacheEntry`. The `cachedAt` timestamp is left out because it comes from the clock.
- `Date.now()` as a fallback draft id is not modelled; the draft id is never read.
- The acknowledgement reaction (bot-message-dispatch.ts:350-362) is the step `AckReaction`; its promise chain and the emoji it sets are not modelled. `canReact` stands for the promise, the reaction API and a message id all being present.
- The block chunker's boundary rules are an abstract policy (the chunker's source is not part of this model). All chunker properties are proved for every policy. A policy here only picks where the next cut falls, so every chunk is an exact piece of the buffer: the model assumes the real chunker emits its buffer unchanged, in order. Trimming at a boundary, or re-opening a code fence across chunks, would break that assumption, and every draft-text lemma depends on it.
- `disableBlockStreaming`, the reply prefix context, table mode, chunk mode and reply-quote text (bot-message-dispatch.ts:156-166, 218-221) are only passed on to code outside this model.
- Logging (`logVerbose`, `log.debug`, `log.warn`) is left out.
- `isDirectOpenAIBaseUrl` parses the URL with `new URL`, and falls back to a substring test when the parse throws (extra-params.ts:152-158). The parse, the fallback and the host comparison are the input `baseUrlIsDirect`. The blank and non-string cases are modelled.
- `toLowerCase` is ASCII only. No Unicode case mapping is modelled.
- JavaScript numbers are reals: NaN, infinities and -0 are not modelled.
- The dead block at extra-params.ts:82-97 is not modelled. It redeclares `streamParams` and calls `resolveCacheControlTtl` and `modelId`, none of which exist there. The model follows the block at lines 99-132 that produces the wrapper.
- `ApplyExtraParamsToAgent` resolves the stream params and the betas before it reassigns `agent.streamFn`, whereas the source interleaves the two. Resolution reads nothing the reassignments change, so the final `streamFn` is the same.
- The `onPayload` hooks are modelled as the set of fields they force on the request (`PayloadPatch`); the caller's own `onPayload`, which still runs, and the payload object itself are not modelled.
- Only the parts of a stream call that the wrappers touch are modelled (temperature, maxTokens, cacheRetention, headers, apiKey). The model and context arguments pass through unchanged.
- WithParams: a caller option that is present but set to `undefined` is not modelled. The options are `Option` fields, so an absent key and an `undefined` one are the same. In the source, `{...streamParams, ...options}` (extra-params.ts:139-140) lets such a key erase the configured temperature, maxTokens or cacheRetention; the model keeps the configured value. A caller header set to `undefined` (line 141) is likewise not modelled, because headers are strings.
- RouteToolEvent: the event's `data` is always a record. The source reads `evt.data.phase` unguarded (bot-message-dispatch.ts:300), so it throws on an event without `data`; that throw is not modelled.
- Spread: header keys keep their insertion order. JavaScript lists integer-like keys first, in numeric order; that ordering is not modelled. The header names this code sets itself are not integer-like.
- Trim: strings are sequences of Unicode scalar values, not UTF-16 code units. `trim` strips the same whitespace characters either way, but lengths and offsets differ for characters outside the Basic Multilingual Plane.
