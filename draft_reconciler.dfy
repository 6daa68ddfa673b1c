/**
 * The delta reconciler of the Telegram dispatcher, as a specification on
 * values: how one cumulative partial-text snapshot, one reasoning event or the
 * final flush changes the reconciler's state and what it pushes to the draft.
 * The dispatcher class in TelegramDispatch is proved to behave exactly so.
 */
module DraftReconciler {
  import opened Wrappers
  import opened JsStrings
  import opened BlockChunking

  /** The `streamMode` setting: "off", "partial" or "block". */
  datatype StreamMode = Off | Partial | Block

  /**
   * What is fixed for one dispatch: whether a draft stream exists, the stream
   * mode, and the chunker's boundary policy when a chunker exists.
   */
  datatype DraftConfig = DraftConfig(streaming: bool, mode: StreamMode, chunking: Option<BoundaryPolicy>)

  /** A draft stream exists only when streaming is on; a chunker only in block mode. */
  predicate ValidConfig(cfg: DraftConfig) {
    && (cfg.mode == Off ==> !cfg.streaming)
    && (cfg.chunking.Some? ==> cfg.streaming && cfg.mode == Block)
  }

  /**
   * The reconciler's state: the last snapshot seen, the text already pushed as
   * chunks, what the chunker still holds, and every text sent to the draft.
   */
  datatype DraftState = DraftState(lastPartialText: string, draftText: string, pending: string, updates: seq<string>)

  const Initial := DraftState("", "", "", [])

  /** `text` is a non-empty snapshot different from the last one. */
  predicate IsNew(s: DraftState, text: Option<string>) {
    text.Some? && text.value != "" && text.value != s.lastPartialText
  }

  /** The texts pushed to the draft when `chunks` are appended one by one to `base`. */
  function Accumulate(base: string, chunks: seq<string>): seq<string>
    decreases |chunks|
  {
    if chunks == [] then [] else [base + chunks[0]] + Accumulate(base + chunks[0], chunks[1..])
  }

  /** `updateDraftFromPartial(text)`. */
  function OnPartial(cfg: DraftConfig, s: DraftState, text: Option<string>): (r: DraftState)
    ensures !cfg.streaming || !IsNew(s, text) ==> r == s
    ensures cfg.streaming && IsNew(s, text) ==> r.lastPartialText == text.value
    ensures cfg.streaming && cfg.mode == Partial && IsNew(s, text) ==>
      r.updates == s.updates + [text.value] && r.draftText == s.draftText && r.pending == s.pending
  {
    if !cfg.streaming || !IsNew(s, text) then s
    else
      var t := text.value;
      if cfg.mode == Partial then s.(lastPartialText := t, updates := s.updates + [t])
      else
        var reset := !StartsWith(t, s.lastPartialText);
        var delta := if reset then t else t[|s.lastPartialText|..];
        var draft := if reset then "" else s.draftText;
        var pending := if reset then "" else s.pending;
        if delta == "" then DraftState(t, draft, pending, s.updates)
        else
          match cfg.chunking
          case None => DraftState(t, t, pending, s.updates + [t])
          case Some(policy) =>
            var chunks := Segment(policy, pending + delta);
            DraftState(t, draft + Concat(chunks), Leftover(policy, pending + delta), s.updates + Accumulate(draft, chunks))
  }

  /** `onReasoningStream`: reasoning text goes straight to the draft; the reconciler's texts are untouched. */
  function OnReasoning(cfg: DraftConfig, s: DraftState, text: Option<string>): (r: DraftState)
    ensures r.lastPartialText == s.lastPartialText && r.draftText == s.draftText && r.pending == s.pending
    ensures |r.updates| == |s.updates| + (if cfg.streaming && text.Some? && text.value != "" then 1 else 0)
    ensures r.updates[..|s.updates|] == s.updates
    ensures cfg.streaming && text.Some? && text.value != "" ==> r.updates[|s.updates|] == text.value
  {
    if cfg.streaming && text.Some? && text.value != "" then s.(updates := s.updates + [text.value]) else s
  }

  /**
   * `flushDraft()`, up to the `flush()` call: what the chunker still holds is
   * force-drained into the draft text, which is then pushed once if non-empty.
   */
  function OnFlush(cfg: DraftConfig, s: DraftState): (r: DraftState)
    ensures r.lastPartialText == s.lastPartialText
    ensures cfg.streaming && cfg.chunking.Some? ==> r.pending == "" && r.draftText == s.draftText + s.pending
    ensures r.updates == s.updates + if cfg.streaming && cfg.chunking.Some? && s.pending != "" then [s.draftText + s.pending] else []
    ensures !cfg.streaming || cfg.chunking.None? ==> r == s
  {
    if cfg.streaming && cfg.chunking.Some? && s.pending != "" then
      var d := s.draftText + s.pending;
      DraftState(s.lastPartialText, d, "", s.updates + (if d != "" then [d] else []))
    else s
  }

  /**
   * The reconciler's invariant: in block mode the draft text and what the
   * chunker holds together spell the last snapshot; partial mode never touches
   * either; with no chunker nothing is ever pending.
   */
  predicate Coherent(cfg: DraftConfig, s: DraftState) {
    && (cfg.chunking.None? ==> s.pending == "")
    && (cfg.mode == Partial ==> s.draftText == "" && s.pending == "")
    && (cfg.mode != Partial ==> s.draftText + s.pending == s.lastPartialText)
  }

  /** `p` is a prefix of `s`. */
  predicate Extends(s: string, p: string) {
    StartsWith(s, p)
  }

  /** Every text is a prefix of each later one: the draft only ever grows. */
  predicate PrefixChain(u: seq<string>) {
    forall i, j :: 0 <= i < j < |u| ==> Extends(u[j], u[i])
  }

  function Last(u: seq<string>): string
    requires u != []
  {
    u[|u| - 1]
  }

  /** Feeding the snapshots in order to a fresh reconciler. */
  function Run(cfg: DraftConfig, snapshots: seq<string>): DraftState
    decreases |snapshots|
  {
    if snapshots == [] then Initial
    else OnPartial(cfg, Run(cfg, snapshots[..|snapshots| - 1]), Some(Last(snapshots)))
  }

  // ---------------------------------------------------------------------------
  // Accumulate

  /** The texts pushed for a run of chunks each extend the base and grow strictly; the last is base plus all chunks. */
  lemma {:induction false} AccumulateGrows(base: string, chunks: seq<string>)
    requires NoEmptyChunk(chunks)
    ensures |Accumulate(base, chunks)| == |chunks|
    ensures PrefixChain(Accumulate(base, chunks))
    ensures forall k :: 0 <= k < |chunks| ==> Extends(Accumulate(base, chunks)[k], base) && |Accumulate(base, chunks)[k]| > |base|
    ensures chunks != [] ==> Last(Accumulate(base, chunks)) == base + Concat(chunks)
    decreases |chunks|
  {
    if chunks != [] {
      var b' := base + chunks[0];
      var rest := Accumulate(b', chunks[1..]);
      AccumulateGrows(b', chunks[1..]);
      var u := Accumulate(base, chunks);
      assert u == [b'] + rest;
      forall k | 0 <= k < |chunks| ensures Extends(u[k], base) && |u[k]| > |base| {
        if k > 0 {
          assert u[k] == rest[k - 1];
          assert Extends(rest[k - 1], b');
          assert u[k][..|base|] == b'[..|base|];
        }
      }
      forall i, j | 0 <= i < j < |u| ensures Extends(u[j], u[i]) {
        if i == 0 {
          assert u[j] == rest[j - 1];
        } else {
          assert u[i] == rest[i - 1] && u[j] == rest[j - 1];
        }
      }
      if chunks[1..] != [] {
        assert Last(u) == Last(rest);
        assert base + Concat(chunks) == b' + Concat(chunks[1..]);
      } else {
        assert Concat(chunks[1..]) == "";
      }
    }
  }

  // ---------------------------------------------------------------------------
  // One snapshot

  /** Every step keeps the reconciler's invariant, for every boundary policy. */
  lemma {:induction false} OnPartialCoherent(cfg: DraftConfig, s: DraftState, text: Option<string>)
    requires ValidConfig(cfg) && Coherent(cfg, s)
    ensures Coherent(cfg, OnPartial(cfg, s, text))
  {
    if cfg.streaming && IsNew(s, text) && cfg.mode != Partial && cfg.chunking.Some? {
      BlockStepSpells(cfg.chunking.value, s.draftText, s.pending, s.lastPartialText, text.value);
    }
  }

  /** In block mode the new draft text and what the chunker keeps spell the new snapshot. */
  lemma BlockStepSpells(policy: BoundaryPolicy, draftText: string, held: string, last: string, t: string)
    requires draftText + held == last
    ensures var reset := !StartsWith(t, last);
      var delta := if reset then t else t[|last|..];
      var draft := if reset then "" else draftText;
      var pending := if reset then "" else held;
      draft + Concat(Segment(policy, pending + delta)) + Leftover(policy, pending + delta) == t
  {
    var reset := !StartsWith(t, last);
    var delta := if reset then t else t[|last|..];
    var draft := if reset then "" else draftText;
    var pending := if reset then "" else held;
    SegmentCovers(policy, pending + delta);
    ResumeSpells(draftText, held, last, t);
    SplitSpells(draft, Concat(Segment(policy, pending + delta)), Leftover(policy, pending + delta), pending + delta, t);
  }

  lemma SplitSpells(draft: string, c: string, l: string, x: string, t: string)
    requires c + l == x && draft + x == t
    ensures draft + c + l == t
  {
    assert draft + c + l == draft + (c + l);
  }

  /** After a snapshot, the kept draft text, the kept pending text and the delta spell the snapshot. */
  lemma ResumeSpells(draftText: string, held: string, last: string, t: string)
    requires draftText + held == last
    ensures var reset := !StartsWith(t, last);
      var delta := if reset then t else t[|last|..];
      var draft := if reset then "" else draftText;
      var pending := if reset then "" else held;
      draft + (pending + delta) == t
  {
    if StartsWith(t, last) {
      assert t == last + t[|last|..];
      assert draftText + (held + t[|last|..]) == draftText + held + t[|last|..];
    } else {
      assert "" + ("" + t) == t;
    }
  }

  /**
   * A snapshot that extends the last one only feeds the chunker the new
   * suffix; every text it pushes extends the draft text as it was, and each
   * pushed text strictly extends the one before.
   */
  lemma {:induction false} ExtensionFeedsSuffix(cfg: DraftConfig, s: DraftState, t: string)
    requires ValidConfig(cfg) && Coherent(cfg, s)
    requires cfg.streaming && cfg.mode == Block && cfg.chunking.Some?
    requires IsNew(s, Some(t)) && Extends(t, s.lastPartialText)
    ensures var r := OnPartial(cfg, s, Some(t));
      && r.draftText + r.pending == s.draftText + s.pending + t[|s.lastPartialText|..]
      && |r.updates| >= |s.updates| && r.updates[..|s.updates|] == s.updates
      && PrefixChain(r.updates[|s.updates|..])
      && (forall k :: |s.updates| <= k < |r.updates| ==> Extends(r.updates[k], s.draftText))
  {
    var policy := cfg.chunking.value;
    var delta := t[|s.lastPartialText|..];
    var chunks := Segment(policy, s.pending + delta);
    var rest := Leftover(policy, s.pending + delta);
    var acc := Accumulate(s.draftText, chunks);
    var r := OnPartial(cfg, s, Some(t));
    assert r == DraftState(t, s.draftText + Concat(chunks), rest, s.updates + acc);
    assert r.draftText + r.pending == s.draftText + s.pending + delta by {
      SegmentCovers(policy, s.pending + delta);
      AppendAssoc3(s.draftText, Concat(chunks), rest);
      AppendAssoc3(s.draftText, s.pending, delta);
    }
    assert PrefixChain(acc) && forall k :: 0 <= k < |acc| ==> Extends(acc[k], s.draftText) by {
      SegmentCovers(policy, s.pending + delta);
      AccumulateGrows(s.draftText, chunks);
    }
    assert r.updates[|s.updates|..] == acc;
    assert r.updates[..|s.updates|] == s.updates;
  }

  lemma AppendAssoc3(a: string, b: string, c: string)
    ensures (a + b) + c == a + (b + c)
  {
  }

  /**
   * A snapshot that does not extend the last one is a reset: the draft text
   * starts over from the new snapshot alone, and every text pushed is a prefix
   * of the new snapshot, so no pushed text mixes content from before the reset.
   */
  lemma {:induction false} ResetStartsOver(cfg: DraftConfig, s: DraftState, t: string)
    requires ValidConfig(cfg) && Coherent(cfg, s)
    requires cfg.streaming && cfg.mode == Block
    requires IsNew(s, Some(t)) && !Extends(t, s.lastPartialText)
    ensures var r := OnPartial(cfg, s, Some(t));
      && r.draftText + r.pending == t
      && |r.updates| >= |s.updates| && r.updates[..|s.updates|] == s.updates
      && (forall k :: |s.updates| <= k < |r.updates| ==> Extends(t, r.updates[k]))
  {
    var r := OnPartial(cfg, s, Some(t));
    OnPartialCoherent(cfg, s, Some(t));
    if cfg.chunking.Some? {
      var policy := cfg.chunking.value;
      var chunks := Segment(policy, "" + t);
      SegmentCovers(policy, "" + t);
      AccumulateGrows("", chunks);
      var acc := Accumulate("", chunks);
      assert r.updates == s.updates + acc;
      forall k | |s.updates| <= k < |r.updates| ensures Extends(t, r.updates[k]) {
        var i := k - |s.updates|;
        assert r.updates[k] == acc[i];
        if i < |acc| - 1 {
          assert Extends(acc[|acc| - 1], acc[i]);
        }
        assert Last(acc) == Concat(chunks);
        assert t == Concat(chunks) + Leftover(policy, "" + t);
      }
    }
  }

  // ---------------------------------------------------------------------------
  // Flushing

  /**
   * After the flush nothing is pending, the draft text is the last snapshot,
   * and the last text pushed is the draft text whenever the flush had
   * something to drain.
   */
  lemma {:induction false} FlushDrainsAll(cfg: DraftConfig, s: DraftState)
    requires ValidConfig(cfg) && Coherent(cfg, s) && cfg.streaming
    ensures var r := OnFlush(cfg, s);
      && r.pending == ""
      && r.lastPartialText == s.lastPartialText
      && (cfg.mode != Partial ==> r.draftText == s.lastPartialText)
      && Coherent(cfg, r)
      && (s.pending != "" ==> r.updates == s.updates + [r.draftText])
      && (s.pending == "" ==> r == s)
  {
  }

  // ---------------------------------------------------------------------------
  // Whole runs of snapshots

  /** The answer text the reconciler means the draft to show: the snapshot in partial mode, the drained chunks otherwise. */
  function Answer(cfg: DraftConfig, s: DraftState): string {
    if cfg.mode == Partial then s.lastPartialText else s.draftText
  }

  /** The draft shows the reconciler's current answer text whenever it has one. */
  predicate Shows(cfg: DraftConfig, s: DraftState) {
    Answer(cfg, s) != "" ==> s.updates != [] && Last(s.updates) == Answer(cfg, s)
  }

  lemma {:induction false} OnPartialShows(cfg: DraftConfig, s: DraftState, text: Option<string>)
    requires ValidConfig(cfg) && Coherent(cfg, s) && Shows(cfg, s)
    ensures Shows(cfg, OnPartial(cfg, s, text))
  {
    if cfg.streaming && IsNew(s, text) && cfg.mode != Partial && cfg.chunking.Some? {
      var t := text.value;
      var policy := cfg.chunking.value;
      var reset := !StartsWith(t, s.lastPartialText);
      var delta := if reset then t else t[|s.lastPartialText|..];
      var draft := if reset then "" else s.draftText;
      var pending := if reset then "" else s.pending;
      SegmentCovers(policy, pending + delta);
      ChunkedShows(s.updates, draft, Segment(policy, pending + delta));
    }
  }

  /** Pushing the accumulated chunks keeps the last text pushed equal to the draft text. */
  lemma ChunkedShows(u: seq<string>, draft: string, chunks: seq<string>)
    requires NoEmptyChunk(chunks)
    requires draft != "" ==> u != [] && Last(u) == draft
    ensures var w := u + Accumulate(draft, chunks);
      draft + Concat(chunks) != "" ==> w != [] && Last(w) == draft + Concat(chunks)
  {
    AccumulateGrows(draft, chunks);
    if chunks != [] {
      var acc := Accumulate(draft, chunks);
      assert Last(u + acc) == Last(acc);
    } else {
      assert Concat(chunks) == "";
      assert u + Accumulate(draft, chunks) == u;
    }
  }

  lemma {:induction false} RunInvariant(cfg: DraftConfig, snapshots: seq<string>)
    requires ValidConfig(cfg)
    ensures Coherent(cfg, Run(cfg, snapshots)) && Shows(cfg, Run(cfg, snapshots))
    decreases |snapshots|
  {
    if snapshots != [] {
      var prev := snapshots[..|snapshots| - 1];
      RunInvariant(cfg, prev);
      OnPartialCoherent(cfg, Run(cfg, prev), Some(Last(snapshots)));
      OnPartialShows(cfg, Run(cfg, prev), Some(Last(snapshots)));
    }
  }

  /**
   * Whatever the boundary policy and whatever resets occur, once the final
   * flush is done the draft's last text is the last snapshot.
   */
  lemma {:induction false} FinalDraftIsLastSnapshot(cfg: DraftConfig, snapshots: seq<string>)
    requires ValidConfig(cfg) && cfg.streaming
    requires snapshots != [] && Last(snapshots) != ""
    ensures var f := OnFlush(cfg, Run(cfg, snapshots));
      && f.updates != [] && Last(f.updates) == Last(snapshots)
      && (cfg.mode == Block ==> f.draftText == Last(snapshots) && f.pending == "")
  {
    var prev := snapshots[..|snapshots| - 1];
    var s := Run(cfg, snapshots);
    RunInvariant(cfg, snapshots);
    assert s.lastPartialText == Last(snapshots);
    FlushDrainsAll(cfg, s);
  }

  /**
   * When every snapshot extends the one before, everything pushed to the
   * draft forms a prefix chain: the draft never shows a text that a later
   * text drops.
   */
  lemma {:induction false} GrowingSnapshotsGrowDraft(cfg: DraftConfig, snapshots: seq<string>)
    requires ValidConfig(cfg)
    requires PrefixChain(snapshots)
    ensures PrefixChain(Run(cfg, snapshots).updates)
    ensures Run(cfg, snapshots).updates != [] ==>
      Extends(Answer(cfg, Run(cfg, snapshots)), Last(Run(cfg, snapshots).updates))
    ensures snapshots != [] ==> Extends(Last(snapshots), Run(cfg, snapshots).lastPartialText)
    decreases |snapshots|
  {
    if snapshots != [] {
      var prev := snapshots[..|snapshots| - 1];
      assert PrefixChain(prev) by {
        forall i, j | 0 <= i < j < |prev| ensures Extends(prev[j], prev[i]) {
          assert prev[i] == snapshots[i] && prev[j] == snapshots[j];
        }
      }
      GrowingSnapshotsGrowDraft(cfg, prev);
      RunInvariant(cfg, prev);
      var s := Run(cfg, prev);
      var t := Last(snapshots);
      assert Extends(t, s.lastPartialText) by {
        if prev != [] {
          assert Extends(t, Last(prev));
          assert Extends(Last(prev), s.lastPartialText);
        }
      }
      GrowStep(cfg, s, t);
    }
  }

  lemma {:induction false} GrowStep(cfg: DraftConfig, s: DraftState, t: string)
    requires ValidConfig(cfg) && Coherent(cfg, s)
    requires PrefixChain(s.updates)
    requires s.updates != [] ==> Extends(Answer(cfg, s), Last(s.updates))
    requires Extends(t, s.lastPartialText)
    ensures var r := OnPartial(cfg, s, Some(t));
      && PrefixChain(r.updates)
      && (r.updates != [] ==> Extends(Answer(cfg, r), Last(r.updates)))
      && Extends(t, r.lastPartialText)
  {
    var r := OnPartial(cfg, s, Some(t));
    if cfg.streaming && IsNew(s, Some(t)) {
      if cfg.mode == Partial || cfg.chunking.None? {
        if s.updates != [] {
          ExtendsTrans(t, s.lastPartialText, Last(s.updates));
        }
        AppendExtends(s.updates, t);
      } else {
        var policy := cfg.chunking.value;
        var delta := t[|s.lastPartialText|..];
        var chunks := Segment(policy, s.pending + delta);
        var rest := Leftover(policy, s.pending + delta);
        assert r == DraftState(t, s.draftText + Concat(chunks), rest, s.updates + Accumulate(s.draftText, chunks));
        SegmentCovers(policy, s.pending + delta);
        ChunkedGrow(s.updates, s.draftText, chunks);
      }
    }
  }

  /** Pushing the accumulated chunks after a prefix chain that the draft text extends keeps a prefix chain. */
  lemma ChunkedGrow(u: seq<string>, draft: string, chunks: seq<string>)
    requires NoEmptyChunk(chunks) && PrefixChain(u)
    requires u != [] ==> Extends(draft, Last(u))
    ensures var w := u + Accumulate(draft, chunks);
      PrefixChain(w) && (w != [] ==> Extends(draft + Concat(chunks), Last(w)))
  {
    var acc := Accumulate(draft, chunks);
    AccumulateGrows(draft, chunks);
    ChainJoin(u, acc, draft);
    if acc != [] {
      assert Last(u + acc) == Last(acc) == draft + Concat(chunks);
    } else if u != [] {
      assert Last(u + acc) == Last(u);
      assert Extends(draft + Concat(chunks), draft) by {
        AppendAssoc3(draft, Concat(chunks), "");
      }
      ExtendsTrans(draft + Concat(chunks), draft, Last(u));
    }
  }

  /** Appending a text that extends everything before keeps a prefix chain. */
  lemma {:induction false} AppendExtends(u: seq<string>, t: string)
    requires PrefixChain(u)
    requires u != [] ==> Extends(t, Last(u))
    ensures PrefixChain(u + [t])
  {
    var v := u + [t];
    forall i, j | 0 <= i < j < |v| ensures Extends(v[j], v[i]) {
      if j == |u| && i < |u| - 1 {
        ExtendsTrans(t, Last(u), u[i]);
      }
    }
  }

  /** Two prefix chains joined, where the second starts past the end of the first, form one chain. */
  lemma {:induction false} ChainJoin(u: seq<string>, v: seq<string>, base: string)
    requires PrefixChain(u) && PrefixChain(v)
    requires u != [] ==> Extends(base, Last(u))
    requires forall k :: 0 <= k < |v| ==> Extends(v[k], base)
    ensures PrefixChain(u + v)
  {
    var w := u + v;
    forall i, j | 0 <= i < j < |w| ensures Extends(w[j], w[i]) {
      if i < |u| && j >= |u| {
        assert w[j] == v[j - |u|];
        ExtendsTrans(base, Last(u), u[i]);
        ExtendsTrans(v[j - |u|], base, u[i]);
      }
    }
  }

  lemma {:induction false} ExtendsTrans(a: string, b: string, c: string)
    requires Extends(a, b) && Extends(b, c)
    ensures Extends(a, c)
  {
    assert a[..|c|] == a[..|b|][..|c|];
  }

  // ---------------------------------------------------------------------------
  // Runs that interleave reasoning with the answer

  /** What the dispatcher's callbacks feed the draft: an answer snapshot, or reasoning text. */
  datatype DraftEvent = PartialReply(text: Option<string>) | ReasoningText(text: Option<string>)

  /** One callback: `onPartialReply` or `onReasoningStream`. */
  function Step(cfg: DraftConfig, s: DraftState, e: DraftEvent): (r: DraftState)
    ensures e.ReasoningText? ==> r.lastPartialText == s.lastPartialText && r.draftText == s.draftText && r.pending == s.pending
  {
    match e
    case PartialReply(t) => OnPartial(cfg, s, t)
    case ReasoningText(t) => OnReasoning(cfg, s, t)
  }

  /** Feeding the events in order to a fresh reconciler. */
  function Replay(cfg: DraftConfig, events: seq<DraftEvent>): DraftState
    decreases |events|
  {
    if events == [] then Initial
    else Step(cfg, Replay(cfg, events[..|events| - 1]), events[|events| - 1])
  }

  /** The events of a run of answer snapshots alone. */
  function Snapshots(snapshots: seq<string>): (events: seq<DraftEvent>)
    ensures |events| == |snapshots|
    ensures forall k :: 0 <= k < |events| ==> events[k] == PartialReply(Some(snapshots[k]))
  {
    seq(|snapshots|, k requires 0 <= k < |snapshots| => PartialReply(Some(snapshots[k])))
  }

  /** Replaying answer snapshots alone is the snapshot run. */
  lemma {:induction false} ReplaySnapshots(cfg: DraftConfig, snapshots: seq<string>)
    ensures Replay(cfg, Snapshots(snapshots)) == Run(cfg, snapshots)
    decreases |snapshots|
  {
    if snapshots != [] {
      var prev := snapshots[..|snapshots| - 1];
      var events := Snapshots(snapshots);
      assert events[..|events| - 1] == Snapshots(prev);
      ReplaySnapshots(cfg, prev);
    }
  }

  /**
   * Reasoning text never disturbs the reconciler's invariant: whatever the
   * interleaving, the draft text and what the chunker holds spell the last
   * answer snapshot.
   */
  lemma {:induction false} ReplayCoherent(cfg: DraftConfig, events: seq<DraftEvent>)
    requires ValidConfig(cfg)
    ensures Coherent(cfg, Replay(cfg, events))
    decreases |events|
  {
    if events != [] {
      var s := Replay(cfg, events[..|events| - 1]);
      ReplayCoherent(cfg, events[..|events| - 1]);
      match events[|events| - 1]
      case PartialReply(t) => OnPartialCoherent(cfg, s, t);
      case ReasoningText(_) =>
    }
  }

  /**
   * A new answer snapshot followed by the final flush leaves that snapshot as
   * the draft's last text, whatever reasoning was shown before it.
   */
  lemma {:induction false} NewSnapshotThenFlush(cfg: DraftConfig, s: DraftState, t: string)
    requires ValidConfig(cfg) && Coherent(cfg, s) && cfg.streaming && IsNew(s, Some(t))
    ensures var f := OnFlush(cfg, OnPartial(cfg, s, Some(t)));
      f.updates != [] && Last(f.updates) == t
  {
    if cfg.mode == Block && cfg.chunking.Some? {
      ChunkedSnapshotThenFlush(cfg, s, t);
    }
  }

  lemma {:induction false} ChunkedSnapshotThenFlush(cfg: DraftConfig, s: DraftState, t: string)
    requires ValidConfig(cfg) && Coherent(cfg, s) && cfg.streaming && IsNew(s, Some(t))
    requires cfg.mode == Block && cfg.chunking.Some?
    ensures var f := OnFlush(cfg, OnPartial(cfg, s, Some(t)));
      f.updates != [] && Last(f.updates) == t
  {
    var r := OnPartial(cfg, s, Some(t));
    OnPartialCoherent(cfg, s, Some(t));
    var policy := cfg.chunking.value;
    var reset := !StartsWith(t, s.lastPartialText);
    var delta := if reset then t else t[|s.lastPartialText|..];
    var draft := if reset then "" else s.draftText;
    var pending := if reset then "" else s.pending;
    var chunks := Segment(policy, pending + delta);
    NewDeltaNonEmpty(s.lastPartialText, t);
    SegmentCovers(policy, pending + delta);
    assert r == DraftState(t, draft + Concat(chunks), Leftover(policy, pending + delta), s.updates + Accumulate(draft, chunks));
    FlushDrainsAll(cfg, r);
    if r.pending == "" {
      assert chunks != [];
      AccumulateGrows(draft, chunks);
      assert Last(r.updates) == Last(Accumulate(draft, chunks));
    }
  }

  /** A new snapshot always brings text: its delta over the last snapshot, or itself after a reset, is non-empty. */
  lemma NewDeltaNonEmpty(last: string, t: string)
    requires t != "" && t != last
    ensures (if !StartsWith(t, last) then t else t[|last|..]) != ""
  {
    if StartsWith(t, last) {
      assert t[..|last|] == last;
    }
  }

  /**
   * After any interleaving of reasoning and answer snapshots, a final new
   * snapshot and the flush leave the draft showing that snapshot.
   */
  lemma MixedFinalDraft(cfg: DraftConfig, events: seq<DraftEvent>, t: string)
    requires ValidConfig(cfg) && cfg.streaming && IsNew(Replay(cfg, events), Some(t))
    ensures var f := OnFlush(cfg, Replay(cfg, events + [PartialReply(Some(t))]));
      f.updates != [] && Last(f.updates) == t
  {
    var all := events + [PartialReply(Some(t))];
    assert all[..|all| - 1] == events;
    ReplayCoherent(cfg, events);
    NewSnapshotThenFlush(cfg, Replay(cfg, events), t);
  }

  /**
   * Reasoning goes to the same draft as the answer, so the draft's last text
   * need not be the answer: in partial mode, reasoning after the answer, or an
   * answer snapshot that repeats the previous one, leaves the reasoning shown
   * after the flush, and the texts pushed do not form a prefix chain.
   */
  lemma ReasoningCanOutlastAnswer(t: string, reasoning: string)
    requires t != "" && reasoning != "" && !Extends(reasoning, t)
    ensures var cfg := DraftConfig(true, Partial, None);
      var f := OnFlush(cfg, Replay(cfg, [PartialReply(Some(t)), ReasoningText(Some(reasoning)), PartialReply(Some(t))]));
      && f.updates == [t, reasoning]
      && Last(f.updates) != t
      && !PrefixChain(f.updates)
  {
    var cfg := DraftConfig(true, Partial, None);
    var e := [PartialReply(Some(t)), ReasoningText(Some(reasoning)), PartialReply(Some(t))];
    var e1 := [PartialReply(Some(t))];
    var e2 := e1 + [ReasoningText(Some(reasoning))];
    assert e1[..0] == [] && e2[..1] == e1 && e[..2] == e2;
    assert Replay(cfg, e1) == OnPartial(cfg, Initial, Some(t));
    var s2 := Replay(cfg, e2);
    assert s2 == DraftState(t, "", "", [t, reasoning]);
    assert Replay(cfg, e) == s2;
    assert !Extends(s2.updates[1], s2.updates[0]);
  }
}
