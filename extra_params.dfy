/**
 * Provider stream-parameter resolution for the embedded agent runner: which
 * per-model params apply, which cache retention Anthropic gets, which stream
 * params a provider gets, which Anthropic beta features are requested and how
 * they are merged into the `anthropic-beta` header, and when the OpenAI
 * Responses API is made to store conversations.
 */
module ExtraParams {
  import opened Wrappers
  import opened JsValues
  import opened JsStrings
  import opened InsertionSets
  import opened HeaderRecords

  // ---------------------------------------------------------------------------
  // Per-model params

  /** The key of a model in `agents.defaults.models`. */
  function ModelKey(provider: string, modelId: string): string {
    provider + "/" + modelId
  }

  /** For providers without a slash, distinct provider/model pairs never share a configuration entry. */
  lemma ModelKeyInjective(p1: string, m1: string, p2: string, m2: string)
    requires '/' !in p1 && '/' !in p2
    requires ModelKey(p1, m1) == ModelKey(p2, m2)
    ensures p1 == p2 && m1 == m2
  {
    var key := ModelKey(p1, m1);
    FirstSlashOfKey(p1, m1);
    FirstSlashOfKey(p2, m2);
    assert p1 == key[..|p1|] == p2;
    assert m1 == key[|p1| + 1..] == m2;
  }

  /** The position of the first '/' in `s`, or its length when there is none. */
  function FirstSlash(s: string): (i: nat)
    ensures i <= |s|
    decreases |s|
  {
    if s == [] || s[0] == '/' then 0 else 1 + FirstSlash(s[1..])
  }

  lemma {:induction false} FirstSlashOfKey(p: string, m: string)
    requires '/' !in p
    ensures FirstSlash(ModelKey(p, m)) == |p|
    decreases |p|
  {
    if p != [] {
      assert ModelKey(p, m)[1..] == ModelKey(p[1..], m);
      FirstSlashOfKey(p[1..], m);
    }
  }

  /**
   * `resolveExtraParams`: a copy of the `params` of the model's entry in
   * `agents.defaults.models` (given here as a map from model keys to params,
   * empty when any link of the configuration path is missing).
   */
  function ResolveExtraParams(models: map<string, Option<Record>>, provider: string, modelId: string): (r: Option<Record>)
    ensures r.Some? <==> ModelKey(provider, modelId) in models && models[ModelKey(provider, modelId)].Some?
    ensures r.Some? ==> r == models[ModelKey(provider, modelId)]
  {
    var key := ModelKey(provider, modelId);
    if key in models then models[key] else None
  }

  // ---------------------------------------------------------------------------
  // Cache retention

  datatype CacheRetention = NoRetention | Short | Long

  /** The option's spelling: "none", "short" or "long". */
  function RetentionName(c: CacheRetention): string {
    match c
    case NoRetention => "none"
    case Short => "short"
    case Long => "long"
  }

  /** A valid `cacheRetention` setting, if the value is one. */
  function ParseCacheRetention(v: Value): (c: Option<CacheRetention>)
    ensures c.Some? ==> v == Str(RetentionName(c.value))
    ensures forall x :: v == Str(RetentionName(x)) ==> c == Some(x)
  {
    if v == Str("none") then Some(NoRetention)
    else if v == Str("short") then Some(Short)
    else if v == Str("long") then Some(Long)
    else None
  }

  /**
   * `resolveCacheRetention`: only Anthropic gets a retention. A valid
   * `cacheRetention` wins; otherwise the legacy `cacheControlTtl` maps "5m" to
   * short and "1h" to long; otherwise it is short.
   */
  function ResolveCacheRetention(extra: Option<Record>, provider: string): (r: Option<CacheRetention>)
    ensures r.None? <==> provider != "anthropic"
    ensures provider == "anthropic" && ParseCacheRetention(Field(extra, "cacheRetention")).Some? ==>
      r == ParseCacheRetention(Field(extra, "cacheRetention"))
    ensures provider == "anthropic" && ParseCacheRetention(Field(extra, "cacheRetention")).None? ==>
      && (Field(extra, "cacheControlTtl") == Str("5m") ==> r == Some(Short))
      && (Field(extra, "cacheControlTtl") == Str("1h") ==> r == Some(Long))
      && (Field(extra, "cacheControlTtl") != Str("5m") && Field(extra, "cacheControlTtl") != Str("1h") ==> r == Some(Short))
  {
    if provider != "anthropic" then None
    else
      var newVal := ParseCacheRetention(Field(extra, "cacheRetention"));
      if newVal.Some? then newVal
      else
        var legacy := Field(extra, "cacheControlTtl");
        if legacy == Str("5m") then Some(Short)
        else if legacy == Str("1h") then Some(Long)
        else Some(Short)
  }

  // ---------------------------------------------------------------------------
  // Stream params

  /** The options the params wrapper adds to every call; `None` is an absent key. */
  datatype StreamParams = StreamParams(
    temperature: Option<real>, maxTokens: Option<real>, cacheRetention: Option<CacheRetention>, headers: Option<Headers>)

  /** `Object.keys(streamParams).length === 0`. */
  predicate NoParams(p: StreamParams) {
    p.temperature.None? && p.maxTokens.None? && p.cacheRetention.None? && p.headers.None?
  }

  /** A param kept only when `typeof` says "number". */
  function NumberParam(extra: Record, k: string): (n: Option<real>)
    ensures n.Some? <==> Field(Some(extra), k).Num?
    ensures n.Some? ==> Field(Some(extra), k) == Num(n.value)
  {
    var v := Field(Some(extra), k);
    if v.Num? then Some(v.n) else None
  }

  const ANTIGRAVITY_CLIENT_METADATA :=
    "{\"ide\":\"antigravity\",\"ideVersion\":\"1.15.8\",\"appName\":\"codeium-extension\",\"devMode\":\"false\","
    + "\"extensionVersion\":\"\",\"language\":\"UNSPECIFIED\",\"os\":\"windows\",\"userTierId\":\"g1-pro-tier\"}"

  /** The client-version headers sent for google-antigravity. */
  const ANTIGRAVITY_HEADERS: Headers := [
    ("User-Agent", "antigravity/1.15.8 windows/amd64"),
    ("X-Goog-Api-Client", "google-cloud-sdk vscode_cloudshelleditor/0.1"),
    ("Client-Metadata", ANTIGRAVITY_CLIENT_METADATA)
  ]

  /**
   * The param selection of `createStreamFnWithExtraParams`: numeric
   * temperature and maxTokens, Anthropic's cache retention, and the
   * antigravity headers; no wrapper (`None`) when nothing is selected.
   */
  function ResolveStreamParams(extra: Record, provider: string): (p: Option<StreamParams>)
    ensures p.None? <==>
      && !Field(Some(extra), "temperature").Num? && !Field(Some(extra), "maxTokens").Num?
      && provider != "anthropic" && provider != "google-antigravity"
    ensures p.Some? ==> !NoParams(p.value)
    ensures p.Some? ==>
      && p.value.temperature == NumberParam(extra, "temperature")
      && p.value.maxTokens == NumberParam(extra, "maxTokens")
      && p.value.cacheRetention == ResolveCacheRetention(Some(extra), provider)
      && p.value.headers == if provider == "google-antigravity" then Some(ANTIGRAVITY_HEADERS) else None
    ensures provider == "anthropic" ==> p.Some? && p.value.cacheRetention.Some?
  {
    var params := StreamParams(
      NumberParam(extra, "temperature"),
      NumberParam(extra, "maxTokens"),
      ResolveCacheRetention(Some(extra), provider),
      if provider == "google-antigravity" then Some(ANTIGRAVITY_HEADERS) else None);
    if NoParams(params) then None else Some(params)
  }

  // ---------------------------------------------------------------------------
  // Responses store

  /**
   * The model as the Responses-store wrapper sees it. Whether a non-blank
   * `baseUrl` names the host api.openai.com or chatgpt.com is given as
   * `baseUrlIsDirect`: URL parsing is not part of this model.
   */
  datatype ModelInfo = ModelInfo(api: Value, provider: Value, baseUrl: Value, baseUrlIsDirect: bool)

  /** `isDirectOpenAIBaseUrl`: a missing, non-string or blank base URL counts as direct. */
  function IsDirectOpenAIBaseUrl(model: ModelInfo): (direct: bool)
    ensures !model.baseUrl.Str? ==> direct
    ensures model.baseUrl.Str? && Trim(model.baseUrl.s) == "" ==> direct
    ensures model.baseUrl.Str? && Trim(model.baseUrl.s) != "" ==> (direct <==> model.baseUrlIsDirect)
  {
    !model.baseUrl.Str? || Trim(model.baseUrl.s) == "" || model.baseUrlIsDirect
  }

  /** `shouldForceResponsesStore`: only the direct OpenAI Responses API. */
  function ShouldForceResponsesStore(model: ModelInfo): (force: bool)
    ensures force ==> model.api == Str("openai-responses") && model.provider == Str("openai")
    ensures model.api == Str("openai-responses") && model.provider == Str("openai") && !model.baseUrl.Str? ==> force
    ensures (model.api == Str("openai-responses") && model.provider == Str("openai") && model.baseUrl.Str?
      && (Trim(model.baseUrl.s) == "" || model.baseUrlIsDirect)) ==> force
    ensures model.baseUrl.Str? && Trim(model.baseUrl.s) != "" && !model.baseUrlIsDirect ==> !force
  {
    if !model.api.Str? || !model.provider.Str? then false
    else if model.api.s != "openai-responses" then false
    else if model.provider.s != "openai" then false
    else IsDirectOpenAIBaseUrl(model)
  }

  // ---------------------------------------------------------------------------
  // Header lists

  /** An item of a comma-separated header value as `parseHeaderList` returns it. */
  predicate CleanItem(s: string) {
    s != "" && IsTrimmed(s) && ',' !in s
  }

  /** `.map((item) => item.trim()).filter(Boolean)`. */
  function TrimmedNonEmpty(parts: seq<string>): (r: seq<string>)
    ensures |r| <= |parts|
    ensures forall x :: x in r ==> x != "" && IsTrimmed(x)
    ensures forall p :: p in parts && Trim(p) != "" ==> Trim(p) in r
    decreases |parts|
  {
    if parts == [] then []
    else
      var item := Trim(parts[0]);
      var rest := TrimmedNonEmpty(parts[1..]);
      assert forall p :: p in parts ==> p == parts[0] || p in parts[1..];
      if item == "" then rest else [item] + rest
  }

  /** Trimming and filtering invents nothing: every item is some part, trimmed. */
  lemma TrimmedNonEmptyFromParts(parts: seq<string>)
    ensures forall x :: x in TrimmedNonEmpty(parts) ==> exists i :: 0 <= i < |parts| && Trim(parts[i]) == x
  {
    forall x | x in TrimmedNonEmpty(parts)
      ensures exists i :: 0 <= i < |parts| && Trim(parts[i]) == x
    {
      TrimmedNonEmptyFrom(parts, x);
    }
  }

  lemma {:induction false} TrimmedNonEmptyFrom(parts: seq<string>, x: string)
    requires x in TrimmedNonEmpty(parts)
    ensures exists i :: 0 <= i < |parts| && Trim(parts[i]) == x
    decreases |parts|
  {
    var rest := parts[1..];
    if x in TrimmedNonEmpty(rest) {
      TrimmedNonEmptyFrom(rest, x);
      var i :| 0 <= i < |rest| && Trim(rest[i]) == x;
      assert parts[i + 1] == rest[i];
    } else {
      TrimmedNonEmptyHead(parts, x);
    }
  }

  lemma TrimmedNonEmptyHead(parts: seq<string>, x: string)
    requires parts != [] && x in TrimmedNonEmpty(parts) && x !in TrimmedNonEmpty(parts[1..])
    ensures Trim(parts[0]) == x
  {
    var rest := TrimmedNonEmpty(parts[1..]);
    assert TrimmedNonEmpty(parts) == if Trim(parts[0]) == "" then rest else [Trim(parts[0])] + rest;
  }

  /** Trimming and filtering item by item: the items of a concatenation are the items of each part. */
  lemma {:induction false} TrimmedNonEmptyAppend(a: seq<string>, b: seq<string>)
    ensures TrimmedNonEmpty(a + b) == TrimmedNonEmpty(a) + TrimmedNonEmpty(b)
    decreases |a|
  {
    if a == [] {
      assert a + b == b;
    } else {
      assert (a + b)[0] == a[0];
      assert (a + b)[1..] == a[1..] + b;
      TrimmedNonEmptyAppend(a[1..], b);
    }
  }

  /** One part gives its trimmed self, or nothing when it is blank. */
  lemma TrimmedNonEmptySingle(p: string)
    ensures TrimmedNonEmpty([p]) == if Trim(p) == "" then [] else [Trim(p)]
  {
    assert [p][1..] == [];
  }

  /** Trimming adds no character, so comma-free parts give comma-free items. */
  lemma {:induction false} TrimmedNonEmptyNoComma(parts: seq<string>)
    requires forall p :: p in parts ==> ',' !in p
    ensures forall x :: x in TrimmedNonEmpty(parts) ==> ',' !in x
    decreases |parts|
  {
    if parts != [] {
      TrimKeepsChars(parts[0]);
      assert forall p :: p in parts[1..] ==> p in parts;
      TrimmedNonEmptyNoComma(parts[1..]);
    }
  }

  /** `parseHeaderList`: the trimmed non-empty comma-separated items of a string, in order. */
  function ParseHeaderList(v: Value): (items: seq<string>)
    ensures !v.Str? ==> items == []
    ensures forall k :: 0 <= k < |items| ==> CleanItem(items[k])
  {
    if !v.Str? then []
    else
      var parts := Split(v.s, ',');
      assert forall p :: p in parts ==> ',' !in p;
      TrimmedNonEmptyNoComma(parts);
      var items := TrimmedNonEmpty(parts);
      assert forall k :: 0 <= k < |items| ==> items[k] in items;
      items
  }

  /** A comma splits the list: the items of `a,b` are the items of `a` followed by those of `b`. */
  lemma ParseHeaderListConcat(a: string, b: string)
    ensures ParseHeaderList(Str(a + "," + b)) == ParseHeaderList(Str(a)) + ParseHeaderList(Str(b))
  {
    assert a + "," + b == a + [','] + b;
    SplitConcat(a, b, ',');
    TrimmedNonEmptyAppend(Split(a, ','), Split(b, ','));
  }

  /** A comma-free value is one item: itself trimmed, or none when it is blank. */
  lemma ParseHeaderListPiece(a: string)
    requires ',' !in a
    ensures ParseHeaderList(Str(a)) == if Trim(a) == "" then [] else [Trim(a)]
  {
    SplitNoSep(a, ',');
    TrimmedNonEmptySingle(a);
  }

  /** For instance, "x, y, " lists exactly x and y: the padding goes and the blank last piece is dropped. */
  lemma ParseHeaderListPadded(x: string, y: string)
    requires CleanItem(x) && CleanItem(y)
    ensures ParseHeaderList(Str(x + ", " + y + ", ")) == [x, y]
  {
    var tail := [' '] + y + "," + [' '];
    PaddedShape(x, y);
    ParseHeaderListConcat(x, tail);
    ParseClean(x);
    ParsePaddedTail(y);
  }

  lemma PaddedShape(x: string, y: string)
    ensures x + ", " + y + ", " == x + "," + ([' '] + y + "," + [' '])
  {
  }

  lemma ParseClean(x: string)
    requires CleanItem(x)
    ensures ParseHeaderList(Str(x)) == [x]
  {
    ParseHeaderListPiece(x);
    TrimOfTrimmed(x);
  }

  lemma ParsePaddedTail(y: string)
    requires CleanItem(y)
    ensures ParseHeaderList(Str([' '] + y + "," + [' '])) == [y]
  {
    ParseHeaderListConcat([' '] + y, [' ']);
    ParseHeaderListPiece([' '] + y);
    ParseHeaderListPiece([' ']);
    TrimLeadingSpace(y);
    TrimLeadingSpace("");
    assert [' '] + "" == [' '];
  }

  lemma {:induction false} TrimmedNonEmptyOfClean(items: seq<string>)
    requires forall k :: 0 <= k < |items| ==> CleanItem(items[k])
    ensures TrimmedNonEmpty(items) == items
    decreases |items|
  {
    if items != [] {
      var rest := items[1..];
      forall k | 0 <= k < |rest| ensures CleanItem(rest[k]) {
        assert rest[k] == items[k + 1];
      }
      TrimmedNonEmptyOfClean(rest);
      TrimmedNonEmptyCleanHead(items);
    }
  }

  lemma {:induction false} TrimmedNonEmptyCleanHead(parts: seq<string>)
    requires parts != [] && CleanItem(parts[0])
    ensures TrimmedNonEmpty(parts) == [parts[0]] + TrimmedNonEmpty(parts[1..])
  {
    TrimOfTrimmed(parts[0]);
  }

  /** Parsing a comma-join of clean items gives the items back. */
  lemma ParseJoin(items: seq<string>)
    requires forall k :: 0 <= k < |items| ==> CleanItem(items[k])
    ensures ParseHeaderList(Str(Join(items, ','))) == items
  {
    if items == [] {
      assert Split("", ',') == [""];
      TrimOfTrimmed("");
    } else {
      SplitJoin(items, ',');
      TrimmedNonEmptyOfClean(items);
    }
  }

  // ---------------------------------------------------------------------------
  // Anthropic betas

  const ANTHROPIC_CONTEXT_1M_BETA := "context-1m-2025-08-07"

  /** The first `|p|` characters of `s`, each lower-cased, are `p`. */
  predicate PrefixIgnoringCase(s: string, p: string) {
    |p| <= |s| && forall i :: 0 <= i < |p| ==> LowerChar(s[i]) == p[i]
  }

  /** `isAnthropic1MModel`: the trimmed, lower-cased id starts with "claude-opus-4" or "claude-sonnet-4". */
  function IsAnthropic1MModel(modelId: string): (oneM: bool)
    ensures oneM <==>
      PrefixIgnoringCase(Trim(modelId), "claude-opus-4") || PrefixIgnoringCase(Trim(modelId), "claude-sonnet-4")
    ensures oneM ==> |Trim(modelId)| >= |"claude-opus-4"|
    ensures StartsWith(modelId, "claude-opus-4") || StartsWith(modelId, "claude-sonnet-4") ==> oneM
  {
    PlainPrefixKept(modelId, "claude-opus-4");
    PlainPrefixKept(modelId, "claude-sonnet-4");
    LowerPrefix(Trim(modelId), "claude-opus-4");
    LowerPrefix(Trim(modelId), "claude-sonnet-4");
    var normalized := ToLower(Trim(modelId));
    StartsWith(normalized, "claude-opus-4") || StartsWith(normalized, "claude-sonnet-4")
  }

  /** The lower-cased string starts with `p` exactly when `s` starts with `p` up to letter case. */
  lemma LowerPrefix(s: string, p: string)
    ensures StartsWith(ToLower(s), p) <==> PrefixIgnoringCase(s, p)
  {
    if PrefixIgnoringCase(s, p) {
      assert ToLower(s)[..|p|] == p;
    }
    if StartsWith(ToLower(s), p) {
      forall i | 0 <= i < |p| ensures LowerChar(s[i]) == p[i] {
        assert ToLower(s)[..|p|][i] == p[i];
      }
    }
  }

  /** Haiku and Claude 3 models are not 1M-context models, whatever their version. */
  lemma OtherModelsNotOneM(modelId: string)
    ensures StartsWith(modelId, "claude-haiku-") ==> !IsAnthropic1MModel(modelId)
    ensures StartsWith(modelId, "claude-3-") ==> !IsAnthropic1MModel(modelId)
  {
    if StartsWith(modelId, "claude-haiku-") {
      OtherFamilyNotOneM(modelId, "claude-haiku-", 7);
    }
    if StartsWith(modelId, "claude-3-") {
      OtherFamilyNotOneM(modelId, "claude-3-", 7);
    }
  }

  /** An id with a plain prefix that differs from both 1M prefixes at position `i` is not a 1M model. */
  lemma OtherFamilyNotOneM(modelId: string, p: string, i: nat)
    requires p != [] && forall k :: 0 <= k < |p| ==> !IsWhitespace(p[k]) && !('A' <= p[k] <= 'Z')
    requires StartsWith(modelId, p)
    requires i < |p| && i < |"claude-opus-4"| && p[i] != "claude-opus-4"[i] && p[i] != "claude-sonnet-4"[i]
    ensures !IsAnthropic1MModel(modelId)
  {
    var normalized := ToLower(Trim(modelId));
    PlainPrefixKept(modelId, p);
    assert normalized[i] == p[i];
  }

  /** A lower-case, whitespace-free prefix survives trimming and lower-casing. */
  lemma PlainPrefixKept(s: string, p: string)
    requires p != [] && forall i :: 0 <= i < |p| ==> !IsWhitespace(p[i]) && !('A' <= p[i] <= 'Z')
    ensures StartsWith(s, p) ==> StartsWith(ToLower(Trim(s)), p)
  {
    if StartsWith(s, p) {
      assert s[0] == p[0];
      assert TrimStart(s) == s;
      var r := TrimEnd(s);
      assert !IsWhitespace(s[|p| - 1]);
      assert |r| >= |p|;
      assert r[..|p|] == p;
      assert ToLower(r)[..|p|] == p;
    }
  }

  /** The 1M-context check ignores letter case and surrounding whitespace. */
  lemma OneMModelIgnoresCaseAndPadding(modelId: string)
    ensures IsAnthropic1MModel(ToLower(modelId)) <==> IsAnthropic1MModel(modelId)
    ensures IsAnthropic1MModel(Trim(modelId)) <==> IsAnthropic1MModel(modelId)
  {
    TrimLower(modelId);
    ToLowerTwice(Trim(modelId));
    TrimOfTrimmed(Trim(modelId));
  }

  /** What a beta name looks like once read from the configuration: non-empty and trimmed. */
  predicate BetaName(b: string) {
    b != "" && IsTrimmed(b)
  }

  /** One configured array entry: kept, trimmed, when it is a non-blank string. */
  function BetaItem(v: Value): (b: seq<string>)
    ensures |b| <= 1
    ensures forall x :: x in b ==> BetaName(x)
  {
    if v.Str? && Trim(v.s) != "" then [Trim(v.s)] else []
  }

  /** The kept entries of a configured array, in order, duplicates included. */
  function ArrayBetas(items: seq<Value>): (bs: seq<string>)
    ensures forall x :: x in bs ==> BetaName(x)
    decreases |items|
  {
    if items == [] then [] else ArrayBetas(items[..|items| - 1]) + BetaItem(items[|items| - 1])
  }

  /** Entry `i` of a configured array is a string that trims to the non-blank beta `b`. */
  predicate KeptEntry(items: seq<Value>, i: int, b: string) {
    0 <= i < |items| && items[i].Str? && b != "" && Trim(items[i].s) == b
  }

  /** A beta comes out of a configured array exactly when some entry trims to it. */
  lemma ArrayBetasMembers(items: seq<Value>)
    ensures forall b :: b in ArrayBetas(items) <==> exists i :: KeptEntry(items, i, b)
  {
    forall b ensures b in ArrayBetas(items) <==> exists i :: KeptEntry(items, i, b) {
      ArrayBetasMember(items, b);
    }
  }

  lemma ArrayBetasMember(items: seq<Value>, b: string)
    ensures b in ArrayBetas(items) <==> exists i :: KeptEntry(items, i, b)
  {
    if b in ArrayBetas(items) {
      ArrayBetasSound(items, b);
    }
    if i :| KeptEntry(items, i, b) {
      ArrayBetasComplete(items, i, b);
    }
  }

  lemma {:induction false} ArrayBetasSound(items: seq<Value>, b: string)
    requires b in ArrayBetas(items)
    ensures exists i :: KeptEntry(items, i, b)
    decreases |items|
  {
    var n := |items| - 1;
    var prev := items[..n];
    assert ArrayBetas(items) == ArrayBetas(prev) + BetaItem(items[n]);
    if b in ArrayBetas(prev) {
      ArrayBetasSound(prev, b);
      var i :| KeptEntry(prev, i, b);
      assert prev[i] == items[i];
      assert KeptEntry(items, i, b);
    } else {
      assert KeptEntry(items, n, b);
    }
  }

  lemma {:induction false} ArrayBetasComplete(items: seq<Value>, i: int, b: string)
    requires KeptEntry(items, i, b)
    ensures b in ArrayBetas(items)
    decreases |items|
  {
    var n := |items| - 1;
    var prev := items[..n];
    ArrayBetasSnoc(items);
    if i < n {
      assert prev[i] == items[i];
      ArrayBetasComplete(prev, i, b);
    } else {
      BetaItemKept(items[i], b);
      assert i == n;
      SnocMember(ArrayBetas(prev), b);
    }
  }

  lemma SnocMember(a: seq<string>, b: string)
    ensures b in a + [b]
  {
    assert (a + [b])[|a|] == b;
  }

  lemma ArrayBetasSnoc(items: seq<Value>)
    requires items != []
    ensures ArrayBetas(items) == ArrayBetas(items[..|items| - 1]) + BetaItem(items[|items| - 1])
  {
  }

  lemma BetaItemKept(v: Value, b: string)
    requires v.Str? && b != "" && Trim(v.s) == b
    ensures BetaItem(v) == [b]
  {
  }

  /** The betas `anthropicBeta` asks for: one non-blank string, or the non-blank strings of an array. */
  function ConfiguredBetas(configured: Value): (bs: seq<string>)
    ensures Distinct(bs)
    ensures forall x :: x in bs ==> BetaName(x)
    ensures forall b :: b in bs <==>
      || (configured.Str? && Trim(configured.s) != "" && b == Trim(configured.s))
      || (configured.Arr? && exists i :: KeptEntry(configured.items, i, b))
    ensures configured.Arr? ==> bs == KeepFirst(ArrayBetas(configured.items))
  {
    if configured.Str? && Trim(configured.s) != "" then [Trim(configured.s)]
    else if configured.Arr? then
      ArrayBetasMembers(configured.items);
      DedupeKeepsFirst(ArrayBetas(configured.items));
      Dedupe(ArrayBetas(configured.items))
    else []
  }

  /** The 1M-context beta is requested with `context1m === true`, and granted only to a 1M model. */
  predicate WantsContext1M(extra: Option<Record>, modelId: string) {
    Field(extra, "context1m") == Bool(true) && IsAnthropic1MModel(modelId)
  }

  /**
   * The betas `resolveAnthropicBetas` returns: for Anthropic only, the
   * configured betas in insertion order without duplicates, then the
   * 1M-context beta when it applies; `None` when there are none.
   */
  function AnthropicBetas(extra: Option<Record>, provider: string, modelId: string): (r: Option<seq<string>>)
    ensures provider != "anthropic" ==> r.None?
    ensures r.Some? ==> r.value != [] && Distinct(r.value)
    ensures r.Some? ==> forall b :: b in r.value ==> BetaName(b)
    ensures provider == "anthropic" ==> forall b ::
      (r.Some? && b in r.value) <==>
      (b in ConfiguredBetas(Field(extra, "anthropicBeta")) || (b == ANTHROPIC_CONTEXT_1M_BETA && WantsContext1M(extra, modelId)))
    ensures provider == "anthropic" ==>
      var c := ConfiguredBetas(Field(extra, "anthropicBeta"));
      var tail := if WantsContext1M(extra, modelId) && ANTHROPIC_CONTEXT_1M_BETA !in c then [ANTHROPIC_CONTEXT_1M_BETA] else [];
      (r.None? <==> c + tail == []) && (r.Some? ==> r.value == c + tail)
  {
    if provider != "anthropic" then None
    else
      var betas := AddContext1M(ConfiguredBetas(Field(extra, "anthropicBeta")), WantsContext1M(extra, modelId));
      if betas == [] then None else Some(betas)
  }

  /** The configured betas, with the 1M-context beta added last when wanted. */
  function AddContext1M(configured: seq<string>, wanted: bool): (bs: seq<string>)
    requires Distinct(configured) && forall b :: b in configured ==> BetaName(b)
    ensures Distinct(bs) && forall b :: b in bs ==> BetaName(b)
    ensures forall b :: b in bs <==> b in configured || (wanted && b == ANTHROPIC_CONTEXT_1M_BETA)
    ensures bs == configured + (if wanted && ANTHROPIC_CONTEXT_1M_BETA !in configured then [ANTHROPIC_CONTEXT_1M_BETA] else [])
  {
    assert BetaName(ANTHROPIC_CONTEXT_1M_BETA);
    if wanted then Add(configured, ANTHROPIC_CONTEXT_1M_BETA) else configured
  }

  /** One more array entry adds its kept beta, if any, to the betas collected so far. */
  lemma ArrayBetasNext(items: seq<Value>, i: nat)
    requires i < |items|
    ensures var d := Dedupe(ArrayBetas(items[..i]));
      Dedupe(ArrayBetas(items[..i + 1])) ==
        if items[i].Str? && Trim(items[i].s) != "" then Add(d, Trim(items[i].s)) else d
  {
    var seen := ArrayBetas(items[..i]);
    assert items[..i + 1][..i] == items[..i];
    assert ArrayBetas(items[..i + 1]) == seen + BetaItem(items[i]);
    if items[i].Str? && Trim(items[i].s) != "" {
      DedupeSnoc(seen, Trim(items[i].s));
    } else {
      assert seen + BetaItem(items[i]) == seen;
    }
  }

  /** The loop over a configured array: each non-blank string entry, trimmed, joins the set. */
  method CollectArrayBetas(items: seq<Value>) returns (betas: seq<string>)
    ensures betas == Dedupe(ArrayBetas(items))
  {
    betas := [];
    var i := 0;
    assert items[..0] == [];
    while i < |items|
      invariant 0 <= i <= |items|
      invariant betas == Dedupe(ArrayBetas(items[..i]))
    {
      var beta := items[i];
      ArrayBetasNext(items, i);
      ghost var next := Dedupe(ArrayBetas(items[..i + 1]));
      if beta.Str? && Trim(beta.s) != "" {
        betas := Add(betas, Trim(beta.s));
      }
      assert betas == next;
      i := i + 1;
    }
    assert items[..i] == items;
  }

  /** `resolveAnthropicBetas`, collecting into an insertion-ordered set. */
  method ResolveAnthropicBetas(extra: Option<Record>, provider: string, modelId: string) returns (r: Option<seq<string>>)
    ensures r == AnthropicBetas(extra, provider, modelId)
  {
    if provider != "anthropic" {
      return None;
    }
    var betas: seq<string> := [];
    var configured := Field(extra, "anthropicBeta");
    if configured.Str? && Trim(configured.s) != "" {
      betas := Add(betas, Trim(configured.s));
      assert betas == [Trim(configured.s)];
    } else if configured.Arr? {
      betas := CollectArrayBetas(configured.items);
    }
    ghost var collected := betas;
    assert collected == ConfiguredBetas(configured);
    if Field(extra, "context1m") == Bool(true) && IsAnthropic1MModel(modelId) {
      betas := Add(betas, ANTHROPIC_CONTEXT_1M_BETA);
    }
    assert betas == AddContext1M(collected, WantsContext1M(extra, modelId));
    r := if |betas| > 0 then Some(betas) else None;
  }

  // ---------------------------------------------------------------------------
  // The anthropic-beta header

  const ANTHROPIC_BETA_HEADER := "anthropic-beta"

  /** `Object.keys(h).find((key) => key.toLowerCase() === "anthropic-beta")`. */
  function FindBetaKey(keys: seq<string>): (k: Option<string>)
    ensures k.None? <==> forall i :: 0 <= i < |keys| ==> ToLower(keys[i]) != ANTHROPIC_BETA_HEADER
    ensures k.Some? ==> exists i :: 0 <= i < |keys| && keys[i] == k.value && FirstBetaKeyAt(keys, i)
    decreases |keys|
  {
    if keys == [] then None
    else if ToLower(keys[0]) == ANTHROPIC_BETA_HEADER then Some(keys[0])
    else
      var k := FindBetaKey(keys[1..]);
      if k.Some? then
        var i :| 0 <= i < |keys[1..]| && keys[1..][i] == k.value && FirstBetaKeyAt(keys[1..], i);
        assert FirstBetaKeyAt(keys, i + 1);
        k
      else k
  }

  /** `keys[i]` is the first key that spells "anthropic-beta" in any case. */
  predicate FirstBetaKeyAt(keys: seq<string>, i: int) {
    && 0 <= i < |keys|
    && ToLower(keys[i]) == ANTHROPIC_BETA_HEADER
    && forall j :: 0 <= j < i ==> ToLower(keys[j]) != ANTHROPIC_BETA_HEADER
  }

  /** The key the merged betas are written under: the existing one whatever its case, else "anthropic-beta". */
  function BetaHeaderKey(h: Headers): (key: string)
    ensures ToLower(key) == ANTHROPIC_BETA_HEADER
    ensures FindBetaKey(Keys(h)).Some? ==> key == FindBetaKey(Keys(h)).value && key in Keys(h)
    ensures FindBetaKey(Keys(h)).None? ==> key == ANTHROPIC_BETA_HEADER && key !in Keys(h)
  {
    match FindBetaKey(Keys(h))
    case Some(k) => k
    case None => ANTHROPIC_BETA_HEADER
  }

  /** `h[k]` as a JavaScript value: the header's string, or `undefined`. */
  function HeaderField(h: Headers, k: string): (v: Value)
    ensures v.Str? <==> k in Keys(h)
    ensures v.Str? ==> Get(h, k) == Some(v.s)
  {
    match Get(h, k)
    case Some(s) => Str(s)
    case None => Undefined
  }

  /** The betas the existing header already lists. */
  function ExistingBetas(h: Headers): (bs: seq<string>)
    ensures forall k :: 0 <= k < |bs| ==> CleanItem(bs[k])
  {
    match FindBetaKey(Keys(h))
    case Some(k) => ParseHeaderList(HeaderField(h, k))
    case None => []
  }

  /**
   * `mergeAnthropicBetaHeader`: a copy of the headers whose beta header lists
   * the existing betas, then the new ones, without duplicates; every other
   * header is unchanged.
   */
  function MergeAnthropicBetaHeader(headers: Option<Headers>, betas: seq<string>): (r: Headers)
    ensures Get(r, BetaHeaderKey(headers.GetOr([]))) ==
      Some(Join(Dedupe(ExistingBetas(headers.GetOr([])) + betas), ','))
    ensures forall k :: k != BetaHeaderKey(headers.GetOr([])) ==> Get(r, k) == Get(headers.GetOr([]), k)
    ensures Keys(r) == Add(Keys(headers.GetOr([])), BetaHeaderKey(headers.GetOr([])))
  {
    var h := headers.GetOr([]);
    Assign(h, BetaHeaderKey(h), Join(Dedupe(ExistingBetas(h) + betas), ','))
  }

  /**
   * The merged header parses back to the existing betas followed by the new
   * ones, first occurrences kept: every supplied beta is in it.
   */
  lemma MergeKeepsEveryBeta(headers: Option<Headers>, betas: seq<string>)
    requires forall k :: 0 <= k < |betas| ==> CleanItem(betas[k])
    ensures var h := headers.GetOr([]);
      var parsed := ParseHeaderList(HeaderField(MergeAnthropicBetaHeader(headers, betas), BetaHeaderKey(h)));
      && parsed == KeepFirst(ExistingBetas(h) + betas)
      && (forall b :: b in betas ==> b in parsed)
      && (forall b :: b in ExistingBetas(h) ==> b in parsed)
  {
    var h := headers.GetOr([]);
    var all := ExistingBetas(h) + betas;
    ParsedBetaHeader(headers, betas);
    DedupeKeepsFirst(all);
  }

  /** The merged header's value is the comma-join of the deduplicated betas, and parses back to them. */
  lemma ParsedBetaHeader(headers: Option<Headers>, betas: seq<string>)
    requires forall k :: 0 <= k < |betas| ==> CleanItem(betas[k])
    ensures var h := headers.GetOr([]);
      ParseHeaderList(HeaderField(MergeAnthropicBetaHeader(headers, betas), BetaHeaderKey(h))) ==
        Dedupe(ExistingBetas(h) + betas)
  {
    var h := headers.GetOr([]);
    var all := ExistingBetas(h) + betas;
    var d := Dedupe(all);
    forall k | 0 <= k < |d|
      ensures CleanItem(d[k])
    {
      assert d[k] in all;
    }
    ParseJoin(d);
    var r := MergeAnthropicBetaHeader(headers, betas);
    assert HeaderField(r, BetaHeaderKey(h)) == Str(Join(d, ','));
  }

  lemma FindBetaKeyPresent(keys: seq<string>)
    requires FindBetaKey(keys).Some?
    ensures FindBetaKey(keys).value in keys
  {
  }

  lemma {:induction false} FindBetaKeyAppend(keys: seq<string>, k: string)
    requires FindBetaKey(keys).None? && ToLower(k) == ANTHROPIC_BETA_HEADER
    ensures FindBetaKey(keys + [k]) == Some(k)
    decreases |keys|
  {
    if keys != [] {
      assert (keys + [k])[1..] == keys[1..] + [k];
      FindBetaKeyAppend(keys[1..], k);
    }
  }

  /** The same key is found again after the merge. */
  lemma BetaHeaderKeyStable(headers: Option<Headers>, betas: seq<string>)
    ensures BetaHeaderKey(MergeAnthropicBetaHeader(headers, betas)) == BetaHeaderKey(headers.GetOr([]))
  {
    var h := headers.GetOr([]);
    var key := BetaHeaderKey(h);
    var r := MergeAnthropicBetaHeader(headers, betas);
    match FindBetaKey(Keys(h))
    case Some(k) =>
      FindBetaKeyPresent(Keys(h));
      assert Keys(r) == Keys(h);
    case None =>
      assert ToLower(ANTHROPIC_BETA_HEADER) == ANTHROPIC_BETA_HEADER;
      assert Keys(r) == Keys(h) + [key];
      FindBetaKeyAppend(Keys(h), key);
  }

  /** Merging the same betas a second time changes nothing. */
  lemma MergeIdempotent(headers: Option<Headers>, betas: seq<string>)
    requires forall k :: 0 <= k < |betas| ==> CleanItem(betas[k])
    ensures MergeAnthropicBetaHeader(Some(MergeAnthropicBetaHeader(headers, betas)), betas) ==
            MergeAnthropicBetaHeader(headers, betas)
  {
    var h := headers.GetOr([]);
    var key := BetaHeaderKey(h);
    var r := MergeAnthropicBetaHeader(headers, betas);
    var d := Dedupe(ExistingBetas(h) + betas);
    BetaHeaderKeyStable(headers, betas);
    MergeKeepsEveryBeta(headers, betas);
    DedupeKeepsFirst(ExistingBetas(h) + betas);
    assert ExistingBetas(r) == d;
    AddAllAppend([], d, betas);
    DedupeDistinct(d);
    AddAllPresent(d, betas);
    assert Dedupe(d + betas) == d;
    AssignSame(r, key, Join(d, ','));
  }

  /** Assigning a key the value it already has changes nothing. */
  lemma {:induction false} AssignSame(h: Headers, k: string, v: string)
    requires Get(h, k) == Some(v)
    ensures Assign(h, k, v) == h
    decreases |h|
  {
    if h[0].0 != k {
      AssignSame(h[1..], k, v);
    }
  }

  // ---------------------------------------------------------------------------
  // Betas pi-ai injects itself

  const PI_AI_DEFAULT_ANTHROPIC_BETAS := ["fine-grained-tool-streaming-2025-05-14", "interleaved-thinking-2025-05-14"]
  const PI_AI_OAUTH_ANTHROPIC_BETAS := ["claude-code-20250219", "oauth-2025-04-20"] + PI_AI_DEFAULT_ANTHROPIC_BETAS

  /** An OAuth token is a string API key containing "sk-ant-oat". */
  function IsAnthropicOAuthApiKey(apiKey: Value): (oauth: bool)
    ensures oauth <==> apiKey.Str? && exists i :: OccursAt(apiKey.s, "sk-ant-oat", i)
  {
    if apiKey.Str? then IncludesIff(apiKey.s, "sk-ant-oat"); Includes(apiKey.s, "sk-ant-oat") else false
  }

  /** The betas pi-ai would have sent for this kind of key. */
  function PiAiBetas(apiKey: Value): (bs: seq<string>)
    ensures Distinct(bs)
    ensures forall k :: 0 <= k < |bs| ==> CleanItem(bs[k])
  {
    PiAiBetasClean();
    if IsAnthropicOAuthApiKey(apiKey) then PI_AI_OAUTH_ANTHROPIC_BETAS else PI_AI_DEFAULT_ANTHROPIC_BETAS
  }


  lemma FineGrainedClean() ensures CleanItem("fine-grained-tool-streaming-2025-05-14") {}
  lemma InterleavedClean() ensures CleanItem("interleaved-thinking-2025-05-14") {}
  lemma ClaudeCodeClean() ensures CleanItem("claude-code-20250219") {}
  lemma OAuthClean() ensures CleanItem("oauth-2025-04-20") {}

  lemma PiAiBetasClean()
    ensures forall k :: 0 <= k < |PI_AI_OAUTH_ANTHROPIC_BETAS| ==> CleanItem(PI_AI_OAUTH_ANTHROPIC_BETAS[k])
    ensures forall k :: 0 <= k < |PI_AI_DEFAULT_ANTHROPIC_BETAS| ==> CleanItem(PI_AI_DEFAULT_ANTHROPIC_BETAS[k])
    ensures Distinct(PI_AI_OAUTH_ANTHROPIC_BETAS) && Distinct(PI_AI_DEFAULT_ANTHROPIC_BETAS)
  {
    FineGrainedClean();
    InterleavedClean();
    ClaudeCodeClean();
    OAuthClean();
    assert PI_AI_OAUTH_ANTHROPIC_BETAS ==
      ["claude-code-20250219", "oauth-2025-04-20", "fine-grained-tool-streaming-2025-05-14", "interleaved-thinking-2025-05-14"];
  }

  /** The betas the beta wrapper sends: pi-ai's own, then the configured ones, without duplicates. */
  function AllBetas(apiKey: Value, betas: seq<string>): (r: seq<string>)
    ensures Distinct(r)
    ensures forall b :: b in r <==> b in PiAiBetas(apiKey) || b in betas
    ensures forall b :: b in PI_AI_DEFAULT_ANTHROPIC_BETAS ==> b in r
    ensures IsAnthropicOAuthApiKey(apiKey) ==> "oauth-2025-04-20" in r && "claude-code-20250219" in r
  {
    Dedupe(PiAiBetas(apiKey) + betas)
  }

  /** pi-ai's betas come first, then the configured betas pi-ai did not already send, first occurrences kept. */
  lemma PiAiBetasFirst(apiKey: Value, betas: seq<string>)
    ensures AllBetas(apiKey, betas) == PiAiBetas(apiKey) + KeepFirst(Exclude(betas, PiAiBetas(apiKey)))
  {
    var pi := PiAiBetas(apiKey);
    AddAllAppend([], pi, betas);
    DedupeDistinct(pi);
    AddAllKeepsFirst(pi, betas);
  }

  // ---------------------------------------------------------------------------
  // The per-call override

  /** The override is used only when it has keys, and loses its `undefined`-valued entries. */
  function FilterOverride(o: Option<Record>): (r: Option<Record>)
    ensures r.Some? <==> o.Some? && |o.value| > 0
    ensures r.Some? ==> forall k :: k in r.value <==> k in o.value && o.value[k] != Undefined
    ensures r.Some? ==> forall k :: k in r.value ==> r.value[k] == o.value[k]
  {
    if o.None? || |o.value| == 0 then None
    else Some(map k | k in o.value && o.value[k] != Undefined :: o.value[k])
  }

  /** `Object.assign({}, extraParams, override)`: the override's defined entries win, other config params stay. */
  function MergeParams(extra: Option<Record>, override: Option<Record>): (m: Record)
    ensures forall k :: k in m <==>
      (extra.Some? && k in extra.value) || (override.Some? && k in override.value && override.value[k] != Undefined)
    ensures forall k :: k in m && override.Some? && k in override.value && override.value[k] != Undefined ==>
      m[k] == override.value[k]
    ensures forall k :: k in m && !(override.Some? && k in override.value && override.value[k] != Undefined) ==>
      m[k] == extra.value[k]
    ensures override.None? ==> m == extra.GetOr(map[])
  {
    extra.GetOr(map[]) + FilterOverride(override).GetOr(map[])
  }
}
