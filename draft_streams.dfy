/**
 * The Telegram draft stream as the dispatcher sees it. Its rendering,
 * coalescing and rate limiting are not part of this model; what is kept is the
 * sequence of texts it was asked to show and its flush/stop lifecycle.
 */
module DraftStreams {

  class DraftStream {
    const maxChars: int
    /** Every `update(text)` call, oldest first. */
    var updates: seq<string>
    var flushes: nat
    var stopped: bool

    constructor (maxChars: int)
      ensures this.maxChars == maxChars
      ensures updates == [] && flushes == 0 && !stopped
    {
      this.maxChars := maxChars;
      updates, flushes, stopped := [], 0, false;
    }

    /** `update(text)`: the full text the draft should now show. */
    method Update(text: string)
      modifies this
      ensures updates == old(updates) + [text]
      ensures flushes == old(flushes) && stopped == old(stopped)
    {
      updates := updates + [text];
    }

    /** `flush()`: commits the latest text. */
    method Flush()
      modifies this
      ensures flushes == old(flushes) + 1
      ensures updates == old(updates) && stopped == old(stopped)
    {
      flushes := flushes + 1;
    }

    /** `stop()`: idempotent; no further rendering. */
    method Stop()
      modifies this
      ensures stopped
      ensures updates == old(updates) && flushes == old(flushes)
    {
      stopped := true;
    }
  }
}
