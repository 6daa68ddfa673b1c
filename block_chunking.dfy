/**
 * The block chunker that the draft stream is fed through. Its boundary policy
 * (paragraph and sentence rules, size thresholds) is configuration and is kept
 * abstract: a policy looks at the pending text and says how long the next chunk
 * that is ready to go out is, 0 meaning no boundary yet.
 */
module BlockChunking {

  type BoundaryPolicy = string -> nat

  /** The length of the next chunk, never longer than what is pending. */
  function NextCut(policy: BoundaryPolicy, pending: string): (n: nat)
    ensures n <= |pending|
  {
    if policy(pending) <= |pending| then policy(pending) else |pending|
  }

  /** The chunks a non-forced drain emits, in order. */
  function Segment(policy: BoundaryPolicy, pending: string): seq<string>
    decreases |pending|
  {
    var n := NextCut(policy, pending);
    if n == 0 then [] else [pending[..n]] + Segment(policy, pending[n..])
  }

  /** What a non-forced drain leaves pending. */
  function Leftover(policy: BoundaryPolicy, pending: string): string
    decreases |pending|
  {
    var n := NextCut(policy, pending);
    if n == 0 then pending else Leftover(policy, pending[n..])
  }

  /** The chunks a forced drain emits: the boundary chunks, then everything left as one last chunk. */
  function ForcedChunks(policy: BoundaryPolicy, pending: string): seq<string> {
    var rest := Leftover(policy, pending);
    Segment(policy, pending) + (if rest == "" then [] else [rest])
  }

  /** The chunks glued back together. */
  function Concat(chunks: seq<string>): string
    decreases |chunks|
  {
    if chunks == [] then "" else chunks[0] + Concat(chunks[1..])
  }

  predicate NoEmptyChunk(chunks: seq<string>) {
    forall k :: 0 <= k < |chunks| ==> chunks[k] != ""
  }

  lemma {:induction false} ConcatAppend(a: seq<string>, b: seq<string>)
    ensures Concat(a + b) == Concat(a) + Concat(b)
    decreases |a|
  {
    if a != [] {
      assert (a + b)[1..] == a[1..] + b;
      ConcatAppend(a[1..], b);
    } else {
      assert a + b == b;
    }
  }

  /**
   * A non-forced drain loses and invents nothing: its chunks, none of them
   * empty, followed by what it leaves pending, spell out what was pending.
   */
  lemma {:induction false} SegmentCovers(policy: BoundaryPolicy, pending: string)
    ensures Concat(Segment(policy, pending)) + Leftover(policy, pending) == pending
    ensures NoEmptyChunk(Segment(policy, pending))
    decreases |pending|
  {
    var n := NextCut(policy, pending);
    if n != 0 {
      SegmentCovers(policy, pending[n..]);
      var rest := Segment(policy, pending[n..]);
      assert Segment(policy, pending) == [pending[..n]] + rest;
      assert ([pending[..n]] + rest)[1..] == rest;
      assert pending == pending[..n] + pending[n..];
    }
  }

  /** A forced drain emits all that was pending, in non-empty chunks. */
  lemma ForcedCovers(policy: BoundaryPolicy, pending: string)
    ensures Concat(ForcedChunks(policy, pending)) == pending
    ensures NoEmptyChunk(ForcedChunks(policy, pending))
  {
    var rest := Leftover(policy, pending);
    var tail := if rest == "" then [] else [rest];
    SegmentCovers(policy, pending);
    ConcatAppend(Segment(policy, pending), tail);
    assert Concat(tail) == rest by {
      if rest != "" {
        assert tail[1..] == [];
      }
    }
  }

  /** The `EmbeddedBlockChunker` contract: append, drain, reset, hasBuffered. */
  class BlockChunker {
    const policy: BoundaryPolicy
    var buffer: string

    constructor (policy: BoundaryPolicy)
      ensures this.policy == policy && buffer == ""
    {
      this.policy := policy;
      buffer := "";
    }

    /** `append(delta)`: buffers the text, emitting nothing. */
    method Append(delta: string)
      modifies this
      ensures buffer == old(buffer) + delta
    {
      buffer := buffer + delta;
    }

    /** `hasBuffered()`. */
    method HasBuffered() returns (b: bool)
      ensures b <==> buffer != ""
    {
      b := buffer != "";
    }

    /** `reset()`: discards what is pending without emitting it. */
    method Reset()
      modifies this
      ensures buffer == ""
    {
      buffer := "";
    }

    /**
     * `drain({force, emit})`: the chunks, in the order `emit` receives them.
     * A forced drain empties the buffer.
     */
    method Drain(force: bool) returns (chunks: seq<string>)
      modifies this
      ensures chunks == if force then ForcedChunks(policy, old(buffer)) else Segment(policy, old(buffer))
      ensures buffer == if force then "" else Leftover(policy, old(buffer))
      ensures Concat(chunks) + buffer == old(buffer)
      ensures NoEmptyChunk(chunks)
    {
      chunks := [];
      while NextCut(policy, buffer) > 0
        invariant Segment(policy, old(buffer)) == chunks + Segment(policy, buffer)
        invariant Leftover(policy, old(buffer)) == Leftover(policy, buffer)
        decreases |buffer|
      {
        var n := NextCut(policy, buffer);
        chunks := chunks + [buffer[..n]];
        buffer := buffer[n..];
      }
      if force && buffer != "" {
        chunks := chunks + [buffer];
        buffer := "";
      }
      if force {
        ForcedCovers(policy, old(buffer));
      } else {
        SegmentCovers(policy, old(buffer));
      }
    }
  }
}
