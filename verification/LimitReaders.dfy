/**
 The readers that enforce byte budgets: one on every archive entry (page limit and shared total),
 one on the compressed input, and the bounded copy of a download.
 */
module LimitReaders {
  import opened Bytes

  datatype Status = More | Eof | DecodeFailed | PageTooLarge | TotalBytesExceeded | ArchiveTooLarge | Cancelled

  /**
   A decoder or network stream. It delivers `content` in pieces of any size, then ends with
   `ending`; it may report the ending together with the last piece. It never answers (0, nil).
   */
  class Source {
    const content: Text
    const ending: Status
    var pos: nat

    ghost predicate Valid()
      reads this
    {
      pos <= |content| && (ending == Eof || ending == DecodeFailed)
    }

    constructor (content: Text, ending: Status)
      requires ending == Eof || ending == DecodeFailed
      ensures Valid() && this.content == content && this.ending == ending && pos == 0
    {
      this.content, this.ending, pos := content, ending, 0;
    }

    method Read(max: nat) returns (chunk: Text, status: Status)
      requires Valid() && max > 0
      modifies this
      ensures Valid() && old(pos) <= pos && chunk == content[old(pos)..pos] && |chunk| <= max
      ensures chunk == [] ==> status == ending
      ensures status != More ==> pos == |content| && status == ending
    {
      if pos == |content| {
        return [], ending;
      }
      var most := if |content| - pos < max then |content| - pos else max;
      var n :| 1 <= n <= most;
      chunk := content[pos..pos + n];
      pos := pos + n;
      var early: bool := *;
      status := if early && pos == |content| then ending else More;
    }
  }

  /**
   What may interrupt an operation from outside: its context is done, or an operation on a file
   fails, at an arbitrary moment. `interrupted` records that one of the two was reported.
   */
  class Context {
    ghost var interrupted: bool

    constructor ()
      ensures !interrupted
    {
      interrupted := false;
    }

    /** `ctx.Err() != nil`. */
    method Done() returns (done: bool)
      modifies this
      ensures interrupted == (old(interrupted) || done)
    {
      done := *;
      interrupted := interrupted || done;
    }

    method FileOperation() returns (ok: bool)
      modifies this
      ensures interrupted == (old(interrupted) || !ok)
    {
      ok := *;
      interrupted := interrupted || !ok;
    }
  }

  /** The total that all entries of one archive share. */
  class Budget {
    var remaining: nat

    constructor (total: nat)
      ensures remaining == total
    {
      remaining := total;
    }
  }

  function Min(a: int, b: int): (m: int)
    ensures m <= a && m <= b && (m == a || m == b)
  {
    if a < b then a else b
  }

  class EntryLimitReader {
    const source: Source
    const total: Budget
    const ctx: Context
    var pageRemaining: nat

    constructor (ctx: Context, source: Source, pageLimit: nat, total: Budget)
      ensures this.ctx == ctx && this.source == source && this.total == total && pageRemaining == pageLimit
    {
      this.ctx, this.source, this.total, pageRemaining := ctx, source, total, pageLimit;
    }

    /**
     Delivers the next piece within both limits and charges it to both. At a limit it probes one
     byte: a stream that goes on is refused, for the page limit first.
     */
    method Read(max: nat) returns (chunk: Text, status: Status)
      requires source.Valid()
      modifies this, source, total, ctx
      ensures ctx.interrupted == (old(ctx.interrupted) || status.Cancelled?)
      ensures source.Valid() && old(source.pos) <= source.pos
      ensures chunk == [] || chunk == source.content[old(source.pos)..source.pos]
      ensures |chunk| <= Min(max, Min(old(pageRemaining), old(total.remaining)))
      ensures pageRemaining == old(pageRemaining) - |chunk|
      ensures total.remaining == old(total.remaining) - |chunk|
      ensures status.Cancelled? ==> chunk == [] && source.pos == old(source.pos)
      ensures status.Eof? || status.DecodeFailed? ==>
                status == source.ending && source.pos == old(source.pos) + |chunk| == |source.content|
      ensures status.More? ==> max == 0 || (chunk != [] && source.pos == old(source.pos) + |chunk|)
      ensures status.PageTooLarge? || status.TotalBytesExceeded? ==>
                chunk == [] && old(source.pos) < |source.content|
                && status == if old(pageRemaining) == 0 then PageTooLarge else TotalBytesExceeded
      ensures status.TotalBytesExceeded? ==> old(total.remaining) == 0
      ensures !status.ArchiveTooLarge?
    {
      var done := ctx.Done();
      if done {
        return [], Cancelled;
      }
      if max == 0 {
        return [], More;
      }
      var limit := max;
      if pageRemaining < limit {
        limit := pageRemaining;
      }
      if total.remaining < limit {
        limit := total.remaining;
      }
      if limit == 0 {
        var probe, probeStatus := source.Read(1);
        if probe != [] || probeStatus == More {
          return [], if pageRemaining == 0 then PageTooLarge else TotalBytesExceeded;
        }
        return [], probeStatus;
      }
      chunk, status := source.Read(limit);
      pageRemaining := pageRemaining - |chunk|;
      total.remaining := total.remaining - |chunk|;
    }
  }

  /** The bound on the compressed bytes that the RAR reader may consume. */
  class ArchiveLimitReader {
    const source: Source
    const ctx: Context
    var remaining: nat

    constructor (ctx: Context, source: Source, limit: nat)
      ensures this.ctx == ctx && this.source == source && remaining == limit
    {
      this.ctx, this.source, remaining := ctx, source, limit;
    }

    method Read(max: nat) returns (chunk: Text, status: Status)
      requires source.Valid()
      modifies this, source, ctx
      ensures ctx.interrupted == (old(ctx.interrupted) || status.Cancelled?)
      ensures source.Valid() && old(source.pos) <= source.pos
      ensures chunk == [] || chunk == source.content[old(source.pos)..source.pos]
      ensures |chunk| <= max && remaining == old(remaining) - |chunk|
      ensures status.ArchiveTooLarge? ==>
                chunk == [] && old(remaining) == 0 && old(source.pos) < |source.content|
      ensures status.Eof? || status.DecodeFailed? ==>
                status == source.ending && source.pos == old(source.pos) + |chunk| == |source.content|
      ensures status.More? ==> max == 0 || (chunk != [] && source.pos == old(source.pos) + |chunk|)
      ensures status.Cancelled? ==> chunk == [] && source.pos == old(source.pos)
      ensures !status.PageTooLarge? && !status.TotalBytesExceeded?
    {
      var done := ctx.Done();
      if done {
        return [], Cancelled;
      }
      if max == 0 {
        return [], More;
      }
      if remaining == 0 {
        var probe, probeStatus := source.Read(1);
        if probe != [] || probeStatus == More {
          return [], ArchiveTooLarge;
        }
        return [], probeStatus;
      }
      var limit := if max > remaining then remaining else max;
      chunk, status := source.Read(limit);
      remaining := remaining - |chunk|;
    }
  }

  /** How the download copy ends; IoFailed: the file could not be created, written or synchronised. */
  datatype Stored = Complete | TooLong | StreamFailed | IoFailed

  /**
   The download copy: at most max + 1 bytes reach the file, all of the stream when it succeeds. A
   stream that does not fit is refused after exactly max + 1 bytes.
   */
  method WriteBounded(ctx: Context, source: Source, max: nat) returns (file: Text, written: nat, r: Stored)
    requires source.Valid() && source.pos == 0
    modifies source, ctx
    ensures ctx.interrupted == (old(ctx.interrupted) || r == IoFailed)
    ensures written == |file| <= max + 1 && file <= source.content
    ensures match r
            case Complete => file == source.content && |file| <= max && source.ending == Eof
            case TooLong => |source.content| > max && written == max + 1
            case StreamFailed => source.ending == DecodeFailed && file == source.content
            case IoFailed => ctx.interrupted
    ensures |source.content| <= max ==>
              r == IoFailed || r == if source.ending == Eof then Complete else StreamFailed
    ensures |source.content| > max + 1 ==> r == IoFailed || r == TooLong
  {
    file, written := [], 0;
    var created := ctx.FileOperation();
    if !created {
      return file, written, IoFailed;
    }
    var status := More;
    while status == More && |file| < max + 1
      invariant source.Valid() && |file| <= max + 1 && ctx.interrupted == old(ctx.interrupted)
      invariant file == source.content[..source.pos]
      invariant status != More ==> status == source.ending && source.pos == |source.content|
      decreases max + 1 - |file|, status == More
    {
      var chunk;
      chunk, status := source.Read(max + 1 - |file|);
      if chunk != [] {
        var whole := ctx.FileOperation();
        if !whole {
          var n: nat :| n <= |chunk|;
          file := file + chunk[..n];
          return file, |file|, IoFailed;
        }
      }
      file := file + chunk;
    }
    written := |file|;
    if status == DecodeFailed {
      return file, written, StreamFailed;
    }
    // io.LimitReader reports the end of its own limit as EOF
    if written > max {
      return file, written, TooLong;
    }
    var synced := ctx.FileOperation();
    r := if synced then Complete else IoFailed;
  }
}
