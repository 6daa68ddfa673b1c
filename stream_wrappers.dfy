/**
 * The chain of stream-function wrappers `applyExtraParamsToAgent` installs on
 * an agent, and what one call through the chain hands to the underlying
 * stream function: the merged options and the payload fields forced on the
 * request body.
 */
module StreamWrappers {
  import opened Wrappers
  import opened JsValues
  import opened InsertionSets
  import opened HeaderRecords
  import opened ExtraParams

  /** OpenRouter's app attribution headers. */
  const OPENROUTER_APP_HEADERS: Headers := [("HTTP-Referer", "https://openclaw.ai"), ("X-Title", "OpenClaw")]

  /** One wrapper and what it closes over. */
  datatype Layer =
    | ParamsLayer(params: StreamParams)
    | AnthropicBetaLayer(betas: seq<string>)
    | OpenRouterLayer
    | ZaiToolStreamLayer
    | ResponsesStoreLayer

  /** A stream function: the library's `streamSimple`, one the agent already had, or a wrapper around another. */
  datatype StreamFn = StreamSimple | Custom(name: string) | Wrapped(layer: Layer, inner: StreamFn)

  /** A wrapper's underlying function is `baseStreamFn ?? streamSimple`. */
  function Wrap(f: Option<StreamFn>, l: Layer): StreamFn {
    Wrapped(l, f.GetOr(StreamSimple))
  }

  /** Wrapping `f` with each layer in turn; the last layer ends up outermost. */
  function WrapAll(f: Option<StreamFn>, layers: seq<Layer>): Option<StreamFn>
    decreases |layers|
  {
    if layers == [] then f else Some(Wrap(WrapAll(f, layers[..|layers| - 1]), layers[|layers| - 1]))
  }

  /** The order in which `applyExtraParamsToAgent` considers the wrappers. */
  function Rank(l: Layer): nat {
    match l
    case ParamsLayer(_) => 0
    case AnthropicBetaLayer(_) => 1
    case OpenRouterLayer => 2
    case ZaiToolStreamLayer => 3
    case ResponsesStoreLayer => 4
  }

  /** Every layer of `s` comes strictly later in that order than the ones before it. */
  predicate Ranked(s: seq<Layer>) {
    forall i, j :: 0 <= i < j < |s| ==> Rank(s[i]) < Rank(s[j])
  }

  /** Every layer of `s` ranks below `r`. */
  predicate Below(s: seq<Layer>, r: nat) {
    forall i :: 0 <= i < |s| ==> Rank(s[i]) < r
  }

  /** Appending at most one layer of rank `r` after layers ranked below `r` keeps the order. */
  lemma {:induction false} StepRanked(a: seq<Layer>, step: seq<Layer>, r: nat)
    requires Ranked(a) && Below(a, r)
    requires |step| <= 1 && forall i :: 0 <= i < |step| ==> Rank(step[i]) == r
    ensures Ranked(a + step) && Below(a + step, r + 1)
  {
    if step != [] {
      assert forall i :: 0 <= i < |a| ==> (a + step)[i] == a[i];
      assert (a + step)[|a|] == step[0];
    } else {
      assert a + step == a;
    }
  }

  /** Appending layers none of which ranks with `l` does not add `l`. */
  lemma NoneOfRank(a: seq<Layer>, b: seq<Layer>, l: Layer)
    requires forall i :: 0 <= i < |b| ==> Rank(b[i]) != Rank(l)
    ensures l in a + b <==> l in a
  {
    assert l !in b;
  }

  /** Z.AI tool streaming is on by default and off only with `tool_stream === false`. */
  predicate ZaiToolStreamWanted(merged: Record, provider: string) {
    (provider == "zai" || provider == "z-ai") && Field(Some(merged), "tool_stream") != Bool(false)
  }

  /** The params wrapper, when the model has stream params. */
  function ParamsStep(params: Option<StreamParams>): (step: seq<Layer>)
    ensures |step| <= 1 && forall i :: 0 <= i < |step| ==> step[i].ParamsLayer?
    ensures forall p :: ParamsLayer(p) in step <==> params == Some(p)
  {
    match params case Some(p) => [ParamsLayer(p)] case None => []
  }

  /** The beta wrapper, when there are Anthropic betas. */
  function BetaStep(betas: Option<seq<string>>): (step: seq<Layer>)
    ensures |step| <= 1 && forall i :: 0 <= i < |step| ==> step[i].AnthropicBetaLayer?
    ensures forall b :: AnthropicBetaLayer(b) in step <==> betas == Some(b) && b != []
  {
    match betas case Some(b) => (if b != [] then [AnthropicBetaLayer(b)] else []) case None => []
  }

  function FlagStep(on: bool, l: Layer): (step: seq<Layer>)
    ensures |step| <= 1 && forall i :: 0 <= i < |step| ==> step[i] == l
  {
    if on then [l] else []
  }

  /** The layers in plan order, innermost first. */
  function Layers(params: Option<StreamParams>, betas: Option<seq<string>>, openRouter: bool, zaiToolStream: bool): seq<Layer> {
    ParamsStep(params) + BetaStep(betas) + FlagStep(openRouter, OpenRouterLayer)
      + FlagStep(zaiToolStream, ZaiToolStreamLayer) + [ResponsesStoreLayer]
  }

  /** Four optional layers of ranks 0 to 3, then the store layer, are in order. */
  lemma InOrder(s1: seq<Layer>, s2: seq<Layer>, s3: seq<Layer>, s4: seq<Layer>)
    requires |s1| <= 1 && forall i :: 0 <= i < |s1| ==> Rank(s1[i]) == 0
    requires |s2| <= 1 && forall i :: 0 <= i < |s2| ==> Rank(s2[i]) == 1
    requires |s3| <= 1 && forall i :: 0 <= i < |s3| ==> Rank(s3[i]) == 2
    requires |s4| <= 1 && forall i :: 0 <= i < |s4| ==> Rank(s4[i]) == 3
    ensures Ranked(s1 + s2 + s3 + s4 + [ResponsesStoreLayer])
  {
    StepRanked([], s1, 0);
    assert [] + s1 == s1;
    StepRanked(s1, s2, 1);
    StepRanked(s1 + s2, s3, 2);
    StepRanked(s1 + s2 + s3, s4, 3);
    StepRanked(s1 + s2 + s3 + s4, [ResponsesStoreLayer], 4);
  }

  lemma LayersRanked(params: Option<StreamParams>, betas: Option<seq<string>>, openRouter: bool, zaiToolStream: bool)
    ensures Ranked(Layers(params, betas, openRouter, zaiToolStream))
  {
    InOrder(ParamsStep(params), BetaStep(betas), FlagStep(openRouter, OpenRouterLayer),
            FlagStep(zaiToolStream, ZaiToolStreamLayer));
  }

  lemma LayersParams(params: Option<StreamParams>, betas: Option<seq<string>>, openRouter: bool, zaiToolStream: bool)
    ensures forall p :: ParamsLayer(p) in Layers(params, betas, openRouter, zaiToolStream) <==> params == Some(p)
  {
    var s1 := ParamsStep(params);
    var s2 := s1 + BetaStep(betas);
    var s3 := s2 + FlagStep(openRouter, OpenRouterLayer);
    var s4 := s3 + FlagStep(zaiToolStream, ZaiToolStreamLayer);
    forall p
      ensures ParamsLayer(p) in s4 + [ResponsesStoreLayer] <==> ParamsLayer(p) in s1
    {
      var l := ParamsLayer(p);
      NoneOfRank(s4, [ResponsesStoreLayer], l);
      NoneOfRank(s3, FlagStep(zaiToolStream, ZaiToolStreamLayer), l);
      NoneOfRank(s2, FlagStep(openRouter, OpenRouterLayer), l);
      NoneOfRank(s1, BetaStep(betas), l);
    }
  }

  lemma LayersBetas(params: Option<StreamParams>, betas: Option<seq<string>>, openRouter: bool, zaiToolStream: bool)
    ensures forall b :: AnthropicBetaLayer(b) in Layers(params, betas, openRouter, zaiToolStream) <==> betas == Some(b) && b != []
  {
    var s1 := ParamsStep(params);
    var s2 := s1 + BetaStep(betas);
    var s3 := s2 + FlagStep(openRouter, OpenRouterLayer);
    var s4 := s3 + FlagStep(zaiToolStream, ZaiToolStreamLayer);
    forall b
      ensures AnthropicBetaLayer(b) in s4 + [ResponsesStoreLayer] <==> AnthropicBetaLayer(b) in BetaStep(betas)
    {
      var l := AnthropicBetaLayer(b);
      NoneOfRank(s4, [ResponsesStoreLayer], l);
      NoneOfRank(s3, FlagStep(zaiToolStream, ZaiToolStreamLayer), l);
      NoneOfRank(s2, FlagStep(openRouter, OpenRouterLayer), l);
      NoneOfRank(BetaStep(betas), s1, l);
    }
  }

  /**
   * The wrappers `applyExtraParamsToAgent` applies given what it resolved,
   * innermost first: the params wrapper when there are params, the beta
   * wrapper when there are betas, OpenRouter attribution when asked for, Z.AI
   * tool streaming when wanted, and the Responses-store wrapper always,
   * outermost.
   */
  function Plan(params: Option<StreamParams>, betas: Option<seq<string>>, openRouter: bool, zaiToolStream: bool): (plan: seq<Layer>)
    ensures plan != [] && plan[|plan| - 1] == ResponsesStoreLayer
    ensures Ranked(plan)
    ensures OpenRouterLayer in plan <==> openRouter
    ensures ZaiToolStreamLayer in plan <==> zaiToolStream
    ensures forall p :: ParamsLayer(p) in plan <==> params == Some(p)
    ensures forall b :: AnthropicBetaLayer(b) in plan <==> betas == Some(b) && b != []
  {
    LayersRanked(params, betas, openRouter, zaiToolStream);
    LayersParams(params, betas, openRouter, zaiToolStream);
    LayersBetas(params, betas, openRouter, zaiToolStream);
    Layers(params, betas, openRouter, zaiToolStream)
  }

  /** The plan for a model: its stream params, its Anthropic betas, OpenRouter for `openrouter`, Z.AI tool streaming when wanted. */
  function WrapperPlan(merged: Record, provider: string, modelId: string): seq<Layer> {
    Plan(ResolveStreamParams(merged, provider), AnthropicBetas(Some(merged), provider, modelId),
         provider == "openrouter", ZaiToolStreamWanted(merged, provider))
  }

  /** Wrapping with at most one more layer. */
  lemma WrapStep(f: Option<StreamFn>, done: seq<Layer>, step: seq<Layer>)
    requires |step| <= 1
    ensures WrapAll(f, done + step) == if step == [] then WrapAll(f, done) else Some(Wrap(WrapAll(f, done), step[0]))
  {
    if step == [] {
      assert done + step == done;
    } else {
      assert (done + step)[..|done|] == done;
    }
  }

  /** An agent's `streamFn` property, undefined until set. */
  class Agent {
    var streamFn: Option<StreamFn>

    constructor (streamFn: Option<StreamFn>)
      ensures this.streamFn == streamFn
    {
      this.streamFn := streamFn;
    }
  }

  /**
   * `applyExtraParamsToAgent`: resolves the model's params, merges the
   * override, and reassigns `agent.streamFn` once per applicable wrapper.
   */
  method ApplyExtraParamsToAgent(agent: Agent, models: map<string, Option<Record>>, provider: string, modelId: string,
                                 extraParamsOverride: Option<Record>)
    modifies agent
    ensures agent.streamFn ==
      WrapAll(old(agent.streamFn),
              WrapperPlan(MergeParams(ResolveExtraParams(models, provider, modelId), extraParamsOverride), provider, modelId))
    ensures agent.streamFn.Some? && agent.streamFn.value.Wrapped? && agent.streamFn.value.layer == ResponsesStoreLayer
  {
    var extraParams := ResolveExtraParams(models, provider, modelId);
    var merged := MergeParams(extraParams, extraParamsOverride);
    var streamParams := ResolveStreamParams(merged, provider);
    var anthropicBetas := ResolveAnthropicBetas(Some(merged), provider, modelId);
    var toolStreamEnabled := (provider == "zai" || provider == "z-ai") && Field(Some(merged), "tool_stream") != Bool(false);
    WrapStreamFn(agent, streamParams, anthropicBetas, provider == "openrouter", toolStreamEnabled);
  }

  /** Wrapping `f` with the layer of a step, if it has one. */
  function WrapIf(f: Option<StreamFn>, step: seq<Layer>): Option<StreamFn> {
    if step == [] then f else Some(Wrap(f, step[0]))
  }

  /** Wrapping with a plan is wrapping with each of its steps in turn, then the store wrapper. */
  lemma PlanWraps(base: Option<StreamFn>, params: Option<StreamParams>, betas: Option<seq<string>>,
                  openRouter: bool, zaiToolStream: bool)
    ensures WrapAll(base, Plan(params, betas, openRouter, zaiToolStream)) ==
      Some(Wrap(WrapIf(WrapIf(WrapIf(WrapIf(base, ParamsStep(params)), BetaStep(betas)),
                                     FlagStep(openRouter, OpenRouterLayer)),
                              FlagStep(zaiToolStream, ZaiToolStreamLayer)),
                ResponsesStoreLayer))
  {
    var s1 := ParamsStep(params);
    var s2 := s1 + BetaStep(betas);
    var s3 := s2 + FlagStep(openRouter, OpenRouterLayer);
    var s4 := s3 + FlagStep(zaiToolStream, ZaiToolStreamLayer);
    assert WrapAll(base, s1) == WrapIf(base, s1) by {
      WrapStep(base, [], s1);
      assert [] + s1 == s1;
    }
    WrapStep(base, s1, BetaStep(betas));
    WrapStep(base, s2, FlagStep(openRouter, OpenRouterLayer));
    WrapStep(base, s3, FlagStep(zaiToolStream, ZaiToolStreamLayer));
    WrapStep(base, s4, [ResponsesStoreLayer]);
  }

  /** The wrapping half of `applyExtraParamsToAgent`, given what it resolved. */
  method WrapStreamFn(agent: Agent, streamParams: Option<StreamParams>, anthropicBetas: Option<seq<string>>,
                      openRouter: bool, toolStreamEnabled: bool)
    modifies agent
    ensures agent.streamFn == WrapAll(old(agent.streamFn), Plan(streamParams, anthropicBetas, openRouter, toolStreamEnabled))
    ensures agent.streamFn.Some? && agent.streamFn.value.Wrapped? && agent.streamFn.value.layer == ResponsesStoreLayer
  {
    ghost var f0 := agent.streamFn;
    ghost var f1 := WrapIf(f0, ParamsStep(streamParams));
    ghost var f2 := WrapIf(f1, BetaStep(anthropicBetas));
    ghost var f3 := WrapIf(f2, FlagStep(openRouter, OpenRouterLayer));
    ghost var f4 := WrapIf(f3, FlagStep(toolStreamEnabled, ZaiToolStreamLayer));

    if streamParams.Some? {
      agent.streamFn := Some(Wrap(agent.streamFn, ParamsLayer(streamParams.value)));
    }
    assert agent.streamFn == f1;

    if anthropicBetas.Some? && |anthropicBetas.value| > 0 {
      agent.streamFn := Some(Wrap(agent.streamFn, AnthropicBetaLayer(anthropicBetas.value)));
    }
    assert agent.streamFn == f2;

    if openRouter {
      agent.streamFn := Some(Wrap(agent.streamFn, OpenRouterLayer));
    }
    assert agent.streamFn == f3;

    if toolStreamEnabled {
      agent.streamFn := Some(Wrap(agent.streamFn, ZaiToolStreamLayer));
    }
    assert agent.streamFn == f4;

    agent.streamFn := Some(Wrap(agent.streamFn, ResponsesStoreLayer));
    PlanWraps(f0, streamParams, anthropicBetas, openRouter, toolStreamEnabled);
  }

  // ---------------------------------------------------------------------------
  // One call through the chain

  /** The stream options a call passes down; `None` is an absent key. */
  datatype StreamOptions = StreamOptions(
    temperature: Option<real>, maxTokens: Option<real>, cacheRetention: Option<CacheRetention>,
    headers: Option<Headers>, apiKey: Value)

  /** A field an `onPayload` hook sets to true on the request body. */
  datatype PayloadPatch = StoreTrue | ToolStreamTrue

  /** What reaches the innermost stream function: the function, its options, and the forced payload fields. */
  datatype Request = Request(target: StreamFn, options: StreamOptions, patches: set<PayloadPatch>)

  /** The caller's option when given, else the wrapper's. */
  function CallerFirst<T>(caller: Option<T>, param: Option<T>): (r: Option<T>)
    ensures caller.Some? ==> r == caller
    ensures caller.None? ==> r == param
  {
    if caller.Some? then caller else param
  }

  /** The params wrapper: `{ ...streamParams, ...options, headers: { ...streamParams.headers, ...options?.headers } }`. */
  function WithParams(p: StreamParams, o: StreamOptions): (r: StreamOptions)
    ensures r.apiKey == o.apiKey && r.headers.Some?
    ensures o.temperature.None? ==> r.temperature == p.temperature
    ensures o.maxTokens.None? ==> r.maxTokens == p.maxTokens
    ensures o.cacheRetention.None? ==> r.cacheRetention == p.cacheRetention
  {
    StreamOptions(
      CallerFirst(o.temperature, p.temperature),
      CallerFirst(o.maxTokens, p.maxTokens),
      CallerFirst(o.cacheRetention, p.cacheRetention),
      Some(Spread(p.headers.GetOr([]), o.headers.GetOr([]))),
      o.apiKey)
  }

  /** The beta wrapper: the `anthropic-beta` header gets pi-ai's betas and the configured ones. */
  function WithBetaHeader(betas: seq<string>, o: StreamOptions): (r: StreamOptions)
    ensures r.headers.Some? && r.apiKey == o.apiKey
  {
    o.(headers := Some(MergeAnthropicBetaHeader(o.headers, AllBetas(o.apiKey, betas))))
  }

  /** The OpenRouter wrapper: the attribution headers, under the caller's. */
  function WithOpenRouterHeaders(o: StreamOptions): (r: StreamOptions)
    ensures r.headers.Some? && r.apiKey == o.apiKey
  {
    o.(headers := Some(Spread(OPENROUTER_APP_HEADERS, o.headers.GetOr([]))))
  }

  function LayerOptions(l: Layer, o: StreamOptions): StreamOptions {
    match l
    case ParamsLayer(p) => WithParams(p, o)
    case AnthropicBetaLayer(b) => WithBetaHeader(b, o)
    case OpenRouterLayer => WithOpenRouterHeaders(o)
    case ZaiToolStreamLayer => o
    case ResponsesStoreLayer => o
  }

  /** The payload hooks: Z.AI always asks for tool streaming; the store wrapper forces `store` for the direct Responses API. */
  function LayerPatches(l: Layer, model: ModelInfo): set<PayloadPatch> {
    match l
    case ZaiToolStreamLayer => {ToolStreamTrue}
    case ResponsesStoreLayer => if ShouldForceResponsesStore(model) then {StoreTrue} else {}
    case _ => {}
  }

  /** Calling `f`: each wrapper adjusts the options and adds its payload hook, then calls the function it wraps. */
  function Invoke(f: StreamFn, model: ModelInfo, o: StreamOptions): (req: Request)
    ensures !req.target.Wrapped?
    ensures req.options.apiKey == o.apiKey
  {
    match f
    case Wrapped(l, inner) =>
      var req := Invoke(inner, model, LayerOptions(l, o));
      req.(patches := req.patches + LayerPatches(l, model))
    case _ => Request(f, o, {})
  }

  // ---------------------------------------------------------------------------
  // Properties of a call

  /**
   * In the params wrapper every option the caller gives wins, an option the
   * caller leaves unset takes the configured value, and every caller header
   * overrides the configured one.
   */
  lemma ParamsCallerWins(p: StreamParams, o: StreamOptions, k: string)
    requires WellFormed(o.headers.GetOr([]))
    ensures var r := WithParams(p, o);
      && (o.temperature.Some? ==> r.temperature == o.temperature)
      && (o.maxTokens.Some? ==> r.maxTokens == o.maxTokens)
      && (o.cacheRetention.Some? ==> r.cacheRetention == o.cacheRetention)
      && (o.temperature.None? ==> r.temperature == p.temperature)
      && (o.maxTokens.None? ==> r.maxTokens == p.maxTokens)
      && (o.cacheRetention.None? ==> r.cacheRetention == p.cacheRetention)
      && Get(r.headers.value, k) ==
         (if k in Keys(o.headers.GetOr([])) then Get(o.headers.GetOr([]), k) else Get(p.headers.GetOr([]), k))
  {
    SpreadGet(p.headers.GetOr([]), o.headers.GetOr([]), k);
  }

  /** OpenRouter attribution never hides a header the caller set, and is present otherwise. */
  lemma OpenRouterCallerWins(o: StreamOptions, k: string)
    requires WellFormed(o.headers.GetOr([]))
    ensures var h := WithOpenRouterHeaders(o).headers.value;
      && Get(h, k) == (if k in Keys(o.headers.GetOr([])) then Get(o.headers.GetOr([]), k) else Get(OPENROUTER_APP_HEADERS, k))
      && Get(h, "HTTP-Referer").Some? && Get(h, "X-Title").Some?
  {
    var oh := o.headers.GetOr([]);
    SpreadGet(OPENROUTER_APP_HEADERS, oh, k);
    SpreadGet(OPENROUTER_APP_HEADERS, oh, "HTTP-Referer");
    SpreadGet(OPENROUTER_APP_HEADERS, oh, "X-Title");
  }

  /**
   * A call through an Anthropic agent's chain reaches the underlying function
   * with a cache retention and with the caller's headers plus an
   * `anthropic-beta` header listing the caller's betas, pi-ai's betas and the
   * configured ones, first occurrences kept; no tool-stream hook applies.
   */
  lemma AnthropicCallCarriesBetas(merged: Record, modelId: string, base: Option<StreamFn>, model: ModelInfo, o: StreamOptions)
    requires base.None? || !base.value.Wrapped?
    requires WellFormed(o.headers.GetOr([]))
    requires AnthropicBetas(Some(merged), "anthropic", modelId).Some?
    requires forall b :: b in AnthropicBetas(Some(merged), "anthropic", modelId).value ==> ',' !in b
    ensures var betas := AnthropicBetas(Some(merged), "anthropic", modelId).value;
      var oh := o.headers.GetOr([]);
      var req := Invoke(WrapAll(base, WrapperPlan(merged, "anthropic", modelId)).GetOr(StreamSimple), model, o);
      var h := req.options.headers.GetOr([]);
      && req.target == base.GetOr(StreamSimple)
      && req.options.cacheRetention.Some?
      && req.options.headers.Some?
      && (forall k :: k != BetaHeaderKey(oh) ==> Get(h, k) == Get(oh, k))
      && ParseHeaderList(HeaderField(h, BetaHeaderKey(oh))) == KeepFirst(ExistingBetas(oh) + AllBetas(o.apiKey, betas))
      && (forall b :: b in betas ==> b in ParseHeaderList(HeaderField(h, BetaHeaderKey(oh))))
      && (StoreTrue in req.patches <==> ShouldForceResponsesStore(model))
      && ToolStreamTrue !in req.patches
  {
    AnthropicChain(merged, modelId, base);
    BetaCall(ResolveStreamParams(merged, "anthropic").value, AnthropicBetas(Some(merged), "anthropic", modelId).value,
             base.GetOr(StreamSimple), model, o);
  }

  /** A call through the params, beta and store wrappers over a plain function, for params without headers. */
  lemma BetaCall(p: StreamParams, betas: seq<string>, inner: StreamFn, model: ModelInfo, o: StreamOptions)
    requires !inner.Wrapped?
    requires p.headers.None? && p.cacheRetention.Some?
    requires WellFormed(o.headers.GetOr([]))
    requires forall b :: b in betas ==> BetaName(b) && ',' !in b
    ensures var oh := o.headers.GetOr([]);
      var req := Invoke(Wrapped(ResponsesStoreLayer, Wrapped(AnthropicBetaLayer(betas), Wrapped(ParamsLayer(p), inner))), model, o);
      var h := req.options.headers.GetOr([]);
      && req.target == inner
      && req.options.cacheRetention.Some?
      && req.options.headers.Some?
      && (forall k :: k != BetaHeaderKey(oh) ==> Get(h, k) == Get(oh, k))
      && ParseHeaderList(HeaderField(h, BetaHeaderKey(oh))) == KeepFirst(ExistingBetas(oh) + AllBetas(o.apiKey, betas))
      && (forall b :: b in betas ==> b in ParseHeaderList(HeaderField(h, BetaHeaderKey(oh))))
      && (StoreTrue in req.patches <==> ShouldForceResponsesStore(model))
      && ToolStreamTrue !in req.patches
  {
    InvokeThree(ParamsLayer(p), AnthropicBetaLayer(betas), ResponsesStoreLayer, inner, model, o);
    var req := Invoke(Wrapped(ResponsesStoreLayer, Wrapped(AnthropicBetaLayer(betas), Wrapped(ParamsLayer(p), inner))), model, o);
    assert req.options == WithParams(p, WithBetaHeader(betas, o));
    assert req.patches == LayerPatches(ResponsesStoreLayer, model);
    AnthropicHeaders(p, betas, o);
    assert req.options.headers == Some(MergeAnthropicBetaHeader(o.headers, AllBetas(o.apiKey, betas)));
    AllBetasClean(o.apiKey, betas);
    MergeKeepsEveryBeta(o.headers, AllBetas(o.apiKey, betas));
  }

  /** A call through three wrappers over a plain function. */
  lemma InvokeThree(l1: Layer, l2: Layer, l3: Layer, inner: StreamFn, model: ModelInfo, o: StreamOptions)
    requires !inner.Wrapped?
    ensures Invoke(Wrapped(l3, Wrapped(l2, Wrapped(l1, inner))), model, o) ==
      Request(inner, LayerOptions(l1, LayerOptions(l2, LayerOptions(l3, o))),
              LayerPatches(l1, model) + LayerPatches(l2, model) + LayerPatches(l3, model))
  {
    var o3 := LayerOptions(l3, o);
    var o2 := LayerOptions(l2, o3);
    var o1 := LayerOptions(l1, o2);
    var p1 := LayerPatches(l1, model);
    var p2 := LayerPatches(l2, model);
    var p3 := LayerPatches(l3, model);
    InvokeOne(l1, inner, model, o2);
    InvokeOne(l2, Wrapped(l1, inner), model, o3);
    InvokeOne(l3, Wrapped(l2, Wrapped(l1, inner)), model, o);
    var r0 := Invoke(inner, model, o1);
    assert r0 == Request(inner, o1, {});
    assert Invoke(Wrapped(l1, inner), model, o2) == Request(inner, o1, {} + p1);
    assert {} + p1 == p1;
  }

  /** One wrapper: the call beneath it gets the wrapper's options, and its payload hook joins the patches. */
  lemma InvokeOne(l: Layer, f: StreamFn, model: ModelInfo, o: StreamOptions)
    ensures var r := Invoke(f, model, LayerOptions(l, o));
      Invoke(Wrapped(l, f), model, o) == r.(patches := r.patches + LayerPatches(l, model))
  {
  }

  /** An Anthropic agent with betas gets exactly the params, beta and store wrappers, in that order. */
  lemma AnthropicChain(merged: Record, modelId: string, base: Option<StreamFn>)
    requires AnthropicBetas(Some(merged), "anthropic", modelId).Some?
    ensures ResolveStreamParams(merged, "anthropic").Some?
    ensures ResolveStreamParams(merged, "anthropic").value.headers.None?
    ensures ResolveStreamParams(merged, "anthropic").value.cacheRetention.Some?
    ensures WrapAll(base, WrapperPlan(merged, "anthropic", modelId)) ==
      Some(Wrapped(ResponsesStoreLayer,
           Wrapped(AnthropicBetaLayer(AnthropicBetas(Some(merged), "anthropic", modelId).value),
           Wrapped(ParamsLayer(ResolveStreamParams(merged, "anthropic").value), base.GetOr(StreamSimple)))))
  {
    var params := ResolveStreamParams(merged, "anthropic");
    var betas := AnthropicBetas(Some(merged), "anthropic", modelId);
    assert !ZaiToolStreamWanted(merged, "anthropic");
    assert WrapperPlan(merged, "anthropic", modelId) == Plan(params, betas, false, false);
    TwoLayerChain(base, params.value, betas.value);
  }

  /** Params and betas, and nothing else, wrap into params, then betas, then the store wrapper. */
  lemma TwoLayerChain(base: Option<StreamFn>, p: StreamParams, b: seq<string>)
    requires b != []
    ensures WrapAll(base, Plan(Some(p), Some(b), false, false)) ==
      Some(Wrapped(ResponsesStoreLayer, Wrapped(AnthropicBetaLayer(b), Wrapped(ParamsLayer(p), base.GetOr(StreamSimple)))))
  {
    var lp := ParamsLayer(p);
    var lb := AnthropicBetaLayer(b);
    PlanTwo(p, b);
    ThreeWraps(base, lp, lb, ResponsesStoreLayer);
  }

  /** The plan with params and betas and no flag is exactly those two layers, then the store layer. */
  lemma PlanTwo(p: StreamParams, b: seq<string>)
    requires b != []
    ensures Plan(Some(p), Some(b), false, false) == [ParamsLayer(p), AnthropicBetaLayer(b), ResponsesStoreLayer]
  {
    assert ParamsStep(Some(p)) == [ParamsLayer(p)];
    assert BetaStep(Some(b)) == [AnthropicBetaLayer(b)];
    assert FlagStep(false, OpenRouterLayer) == [] && FlagStep(false, ZaiToolStreamLayer) == [];
  }

  lemma ThreeWraps(base: Option<StreamFn>, l1: Layer, l2: Layer, l3: Layer)
    ensures WrapAll(base, [l1, l2, l3]) == Some(Wrapped(l3, Wrapped(l2, Wrapped(l1, base.GetOr(StreamSimple)))))
  {
    assert [] + [l1] == [l1] && [l1] + [l2] == [l1, l2] && [l1, l2] + [l3] == [l1, l2, l3];
    WrapStep(base, [], [l1]);
    WrapStep(base, [l1], [l2]);
    WrapStep(base, [l1, l2], [l3]);
  }

  /** Under the beta wrapper, Anthropic's params wrapper passes the merged headers on unchanged and always sets a retention. */
  lemma AnthropicHeaders(p: StreamParams, betas: seq<string>, o: StreamOptions)
    requires p.headers.None? && p.cacheRetention.Some?
    requires WellFormed(o.headers.GetOr([]))
    ensures WithParams(p, WithBetaHeader(betas, o)).headers == WithBetaHeader(betas, o).headers
    ensures WithParams(p, WithBetaHeader(betas, o)).cacheRetention.Some?
  {
    SpreadOntoEmpty(WithBetaHeader(betas, o).headers.value);
  }

  /** With comma-free configured betas, every beta the wrapper sends is a clean header-list item. */
  lemma AllBetasClean(apiKey: Value, betas: seq<string>)
    requires forall b :: b in betas ==> BetaName(b) && ',' !in b
    ensures forall k :: 0 <= k < |AllBetas(apiKey, betas)| ==> CleanItem(AllBetas(apiKey, betas)[k])
  {
    var all := AllBetas(apiKey, betas);
    var pi := PiAiBetas(apiKey);
    forall k | 0 <= k < |all|
      ensures CleanItem(all[k])
    {
      assert all[k] in all;
      if all[k] in pi {
        var i :| 0 <= i < |pi| && pi[i] == all[k];
      }
    }
  }
}
