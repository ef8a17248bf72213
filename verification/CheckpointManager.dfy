/** The checkpoint manager as an object: saving and enqueueing, and the flush of one job. */
module CheckpointManagerModel {
  import opened Basics
  import opened CheckpointFlush

  /** What happens to the worker before a chunk: nothing, a new chunk size, or an interruption, be it
      a stop while waiting for the gate or a failing file operation. */
  datatype Pace = Go | Resize(target: int) | Interrupt

  datatype Outcome = Missing | Interrupted | Done

  /** A flush of a file of the given bytes: what ends up under the final name. */
  function FlushedBytes(data: Data, chunk: int): Data {
    if chunk == 0 then [] else data
  }

  lemma Append(data: Data, pos: nat, n: nat)
    requires pos + n <= |data|
    ensures data[..pos] + data[pos..pos + n] == data[..pos + n]
  {
  }

  lemma OneMore(n: nat, size: int)
    ensures (n + 1) * size == n * size + size
  {
  }

  /** How far n turns of one size get: -1 turns everything at once. */
  function FixedCopy(size: int, n: nat, length: nat): nat {
    if size < 0 then if n == 0 then 0 else length
    else if n * size < length then n * size else length
  }

  /** At turn n of a copy the chunk size is the one of the last resize after turn 0, if any. */
  ghost predicate LastResize(first: int, adaptive: bool, pace: nat -> Pace, n: nat, last: nat, chunk: int) {
    && last <= n
    && (forall j | last < j <= n :: adaptive ==> !pace(j).Resize?)
    && if last == 0 then chunk == first else adaptive && pace(last).Resize? && chunk == Clamp(pace(last).target)
  }

  class CheckpointManager {
    const lustre: bool
    const maxPending: int
    const adaptive: bool
    var chunk: int
    var files: Files
    var queue: seq<nat>

    constructor (lustre: bool, maxPending: int, adaptive: bool, chunk: int, files: Files)
      ensures this.lustre == lustre && this.maxPending == maxPending && this.adaptive == adaptive
      ensures this.chunk == chunk && this.files == files && queue == []
    {
      this.lustre, this.maxPending, this.adaptive := lustre, maxPending, adaptive;
      this.chunk, this.files, queue := chunk, files, [];
    }

    /** Write the local file; queue its flush unless the queue is full. */
    method SaveAsync(step: nat, data: Data)
      modifies this
      ensures files == old(files)[Local(step) := data] && chunk == old(chunk)
      ensures queue == if lustre && !(0 < maxPending <= |old(queue)|) then old(queue) + [step] else old(queue)
    {
      files := files[Local(step) := data];
      if lustre && !(0 < maxPending <= |queue|) {
        queue := queue + [step];
      }
    }

    /** The copy loop: fill the temporary file until a read comes back empty; `turns` counts the chunks
        copied, and `last` is the turn that last changed the chunk size, 0 if none did. */
    method CopyChunks(step: nat, data: Data, pace: nat -> Pace)
      returns (finished: bool, ghost off: nat, ghost turns: nat, ghost last: nat)
      requires Temp(step) in files && files[Temp(step)] == []
      modifies this`chunk, this`files
      ensures off <= |data| && files == old(files)[Temp(step) := data[..off]]
      ensures finished ==> old(chunk) >= -1 && off == if old(chunk) == 0 then 0 else |data|
      ensures !finished ==> pace(turns).Interrupt? || old(chunk) < -1
      ensures old(chunk) == 0 || old(chunk) < -1 ==> off == 0 && turns == 0
      ensures !adaptive ==> off == FixedCopy(old(chunk), turns, |data|)
      ensures LastResize(old(chunk), adaptive, pace, turns, last, chunk)
    {
      finished := false;
      off, turns, last := 0, 0, 0;
      var turn, pos := 0, 0;
      while true
        invariant turn == turns && off == pos <= |data| && files == old(files)[Temp(step) := data[..pos]]
        invariant (pos > 0 <==> turn > 0) && (old(chunk) == 0 || old(chunk) < -1 ==> turn == 0)
        invariant turn == 0 ==> chunk == old(chunk) && last == 0
        invariant turn > 0 ==> LastResize(old(chunk), adaptive, pace, turn - 1, last, chunk)
        invariant !adaptive ==> pos == FixedCopy(old(chunk), turn, |data|)
        decreases |data| - pos
      {
        match pace(turn) {
          case Go =>
          case Resize(target) => if adaptive && pos > 0 { chunk := Clamp(target); last := turn; }
          case Interrupt => return;
        }
        if chunk < -1 { return; }
        var n := ReadSize(chunk, pos, |data|);
        if n == 0 { finished := true; return; }
        Append(data, pos, n);
        OneMore(turn, old(chunk));
        files := files[Temp(step) := files[Temp(step)] + data[pos..pos + n]];
        pos := pos + n;
        off := pos;
        turn := turn + 1;
        turns := turn;
      }
    }

    /**
     Copy chunk by chunk into the temporary file, rename it, remove the source.  When it gets to the
     rename, the final name has every byte unless chunks are empty; otherwise only the temporary file
     has changed, and it is a part of the source.  Nothing but an interruption or a chunk size that
     cannot be read keeps it from getting there.
     */
    method DoFlush(step: nat, pace: nat -> Pace) returns (outcome: Outcome, ghost turns: nat, ghost last: nat)
      modifies this`chunk, this`files
      ensures outcome == Missing <==> Local(step) !in old(files)
      ensures outcome == Missing ==> files == old(files) && chunk == old(chunk)
      ensures outcome == Interrupted ==> pace(turns).Interrupt? || old(chunk) < -1
      ensures outcome == Interrupted ==>
                exists n: nat :: n <= |old(files)[Local(step)]|
                  && files == old(files)[Temp(step) := old(files)[Local(step)][..n]]
      ensures outcome == Done ==>
                old(chunk) >= -1
                && files == old(files)[Remote(step) := FlushedBytes(old(files)[Local(step)], old(chunk))]
                            - {Temp(step), Local(step)}
      ensures outcome != Missing ==> LastResize(old(chunk), adaptive, pace, turns, last, chunk)
      ensures old(chunk) == 0 ==> chunk == 0
    {
      if Local(step) !in files { return Missing, 0, 0; }
      ghost var before := files;
      var data := files[Local(step)];
      files := files[Temp(step) := []];
      var finished;
      ghost var off;
      finished, off, turns, last := CopyChunks(step, data, pace);
      assert files == before[Temp(step) := data[..off]];
      if !finished { return Interrupted, turns, last; }
      assert data[..off] == FlushedBytes(data, old(chunk));
      files := files[Remote(step) := files[Temp(step)]] - {Temp(step)};
      files := files - {Local(step)};
      outcome := Done;
    }

    /** One turn of the worker: flush the oldest job; a failed one is not queued again. */
    method FlushNext(pace: nat -> Pace) returns (outcome: Outcome, ghost turns: nat, ghost last: nat)
      requires queue != []
      modifies this
      ensures queue == old(queue[1..])
      ensures outcome == Missing <==> Local(old(queue[0])) !in old(files)
      ensures outcome == Interrupted ==> pace(turns).Interrupt? || old(chunk) < -1
      ensures outcome == Done ==>
                files == old(files)[Remote(old(queue[0])) := FlushedBytes(old(files)[Local(old(queue[0]))], old(chunk))]
                           - {Temp(old(queue[0])), Local(old(queue[0]))}
      ensures outcome != Done ==>
                forall p: Path | !p.Temp? ::
                  (p in files <==> p in old(files)) && (p in files ==> files[p] == old(files)[p])
      ensures if outcome == Missing then chunk == old(chunk)
              else LastResize(old(chunk), adaptive, pace, turns, last, chunk)
    {
      var step := queue[0];
      queue := queue[1..];
      outcome, turns, last := DoFlush(step, pace);
    }
  }
}
