/**
 * Jitter buffer and playback scheduler of the audio translator hook, as
 * functions: `scheduleAudioPlayback` drains the queue onto the output clock
 * (`Drain`), and the prefill logic of `playAudioChunk` decides when to call
 * it (`Receive`). The imperative versions live in the `Translator` module.
 *
 * `createBuffer` rejects a buffer of length zero, so an empty chunk (a
 * zero-byte frame) aborts the drain: it has already been shifted out of the
 * queue and is lost, the chunks behind it stay queued, the cursor stays at
 * the end of the last chunk started, and `isPlayingRef` stays set. The
 * exception is swallowed by the `catch` of `playAudioChunk`.
 */
module Playback {
  /** `OUTPUT_SAMPLE_RATE`: the rate of every received chunk, in Hz. */
  const OutputSampleRate: int := 24000
  /** `INITIAL_BUFFER_COUNT`: chunks buffered before playback starts. */
  const InitialBufferCount: nat := 3

  /** One `AudioBufferSourceNode` started at `start` with these samples. */
  datatype Slot = Slot(start: real, samples: seq<real>)

  /** Playing time of a chunk, in seconds. */
  function Duration(samples: seq<real>): real
  {
    |samples| as real / OutputSampleRate as real
  }

  /** The output-clock time at which a slot finishes. */
  function End(s: Slot): real
  {
    s.start + Duration(s.samples)
  }

  /** No slot starts before the previous one has finished. */
  ghost predicate NoOverlap(plan: seq<Slot>)
  {
    forall i :: 0 <= i < |plan| - 1 ==> End(plan[i]) <= plan[i + 1].start
  }

  /** Each slot starts exactly when the previous one ends. */
  ghost predicate BackToBack(plan: seq<Slot>)
  {
    forall i :: 0 <= i < |plan| - 1 ==> plan[i + 1].start == End(plan[i])
  }

  /** Every slot holds at least one sample: no zero-length buffer is ever started. */
  ghost predicate NonEmptySlots(plan: seq<Slot>)
  {
    forall i :: 0 <= i < |plan| ==> plan[i].samples != []
  }

  /** No chunk of the queue is empty. */
  ghost predicate NoEmptyChunk(queue: seq<seq<real>>)
  {
    forall i :: 0 <= i < |queue| ==> queue[i] != []
  }

  /** The samples of a plan, slot by slot. */
  function Chunks(plan: seq<Slot>): (chunks: seq<seq<real>>)
    ensures |chunks| == |plan|
    ensures forall i :: 0 <= i < |plan| ==> chunks[i] == plan[i].samples
  {
    if plan == [] then [] else [plan[0].samples] + Chunks(plan[1..])
  }

  /** The chunks of a queue that hold audio, in order. */
  function Audible(queue: seq<seq<real>>): (chunks: seq<seq<real>>)
    ensures |chunks| <= |queue|
    ensures NoEmptyChunk(chunks)
  {
    if queue == [] then []
    else (if queue[0] == [] then [] else [queue[0]]) + Audible(queue[1..])
  }

  lemma {:induction false} AudibleAppend(a: seq<seq<real>>, b: seq<seq<real>>)
    ensures Audible(a + b) == Audible(a) + Audible(b)
  {
    if a != [] {
      assert (a + b)[1..] == a[1..] + b;
      AudibleAppend(a[1..], b);
    } else {
      assert a + b == b;
    }
  }

  lemma {:induction false} AudibleOfNoEmpty(queue: seq<seq<real>>)
    requires NoEmptyChunk(queue)
    ensures Audible(queue) == queue
  {
    if queue != [] {
      AudibleOfNoEmpty(queue[1..]);
      assert queue == [queue[0]] + queue[1..];
    }
  }

  lemma ChunksCons(s: Slot, plan: seq<Slot>)
    ensures Chunks([s] + plan) == [s.samples] + Chunks(plan)
  {
    assert ([s] + plan)[1..] == plan;
  }

  lemma ChunksAppend(a: seq<Slot>, b: seq<Slot>)
    ensures Chunks(a + b) == Chunks(a) + Chunks(b)
  {
    var l, r := Chunks(a + b), Chunks(a) + Chunks(b);
    assert |l| == |r|;
    forall i | 0 <= i < |l|
      ensures l[i] == r[i]
    {
      if i < |a| {
        assert (a + b)[i] == a[i];
      } else {
        assert (a + b)[i] == b[i - |a|];
      }
    }
  }

  lemma NoEmptyChunkAppend(a: seq<seq<real>>, b: seq<seq<real>>)
    ensures NoEmptyChunk(a + b) <==> NoEmptyChunk(a) && NoEmptyChunk(b)
  {
    if NoEmptyChunk(a + b) {
      forall i | 0 <= i < |b|
        ensures b[i] != []
      {
        assert (a + b)[|a| + i] == b[i];
      }
      forall i | 0 <= i < |a|
        ensures a[i] != []
      {
        assert (a + b)[i] == a[i];
      }
    } else if NoEmptyChunk(a) && NoEmptyChunk(b) {
      forall i | 0 <= i < |a + b|
        ensures (a + b)[i] != []
      {
        if i < |a| {
          assert (a + b)[i] == a[i];
        } else {
          assert (a + b)[i] == b[i - |a|];
        }
      }
    }
  }

  lemma NonEmptySlotsAppend(a: seq<Slot>, b: seq<Slot>)
    requires NonEmptySlots(a) && NonEmptySlots(b)
    ensures NonEmptySlots(a + b)
  {
  }

  /**
   * What a drain leaves: the slots started, the cursor after them, the
   * chunks still queued, and whether an empty chunk cut the loop short.
   */
  datatype Drained = Drained(plan: seq<Slot>, cursor: real, rest: seq<seq<real>>, threw: bool)

  /**
   * The `while` loop of `scheduleAudioPlayback`: each queued chunk starts at
   * `max(now, cursor)` and moves the cursor to the end of that chunk; an
   * empty chunk is dropped and ends the loop.
   */
  function Drain(queue: seq<seq<real>>, cursor: real, now: real): (d: Drained)
    ensures !d.threw ==> d.rest == []
  {
    if queue == [] then Drained([], cursor, [], false)
    else if queue[0] == [] then Drained([], cursor, queue[1..], true)
    else
      var start := if now >= cursor then now else cursor;
      var after := Drain(queue[1..], start + Duration(queue[0]), now);
      Drained([Slot(start, queue[0])] + after.plan, after.cursor, after.rest, after.threw)
  }

  /** A drain is cut short exactly when the queue holds an empty chunk. */
  lemma {:induction false} DrainThrowsOnEmpty(queue: seq<seq<real>>, cursor: real, now: real)
    ensures Drain(queue, cursor, now).threw <==> !NoEmptyChunk(queue)
  {
    if queue != [] && queue[0] != [] {
      var start := if now >= cursor then now else cursor;
      DrainThrowsOnEmpty(queue[1..], start + Duration(queue[0]), now);
      assert queue == [queue[0]] + queue[1..];
      NoEmptyChunkAppend([queue[0]], queue[1..]);
    }
  }

  /** A drain never starts a zero-length buffer. */
  lemma {:induction false} DrainStartsOnlyAudio(queue: seq<seq<real>>, cursor: real, now: real)
    ensures NonEmptySlots(Drain(queue, cursor, now).plan)
  {
    if queue != [] && queue[0] != [] {
      var start := if now >= cursor then now else cursor;
      DrainStartsOnlyAudio(queue[1..], start + Duration(queue[0]), now);
      var after := Drain(queue[1..], start + Duration(queue[0]), now);
      assert Drain(queue, cursor, now).plan == [Slot(start, queue[0])] + after.plan;
    }
  }

  /**
   * `d`, the outcome of a whole drain, is what remains once `done` has
   * been started and `queue` is still to be drained from `cursor`.
   */
  ghost predicate DrainsInto(d: Drained, done: seq<Slot>, queue: seq<seq<real>>, cursor: real, now: real)
  {
    var r := Drain(queue, cursor, now);
    d.plan == done + r.plan && d.cursor == r.cursor && d.rest == r.rest && d.threw == r.threw
  }

  /** One turn of the drain loop on a chunk with samples. */
  lemma DrainPastChunk(d: Drained, done: seq<Slot>, queue: seq<seq<real>>, cursor: real, now: real, start: real)
    requires queue != [] && queue[0] != []
    requires start == if now >= cursor then now else cursor
    requires DrainsInto(d, done, queue, cursor, now)
    ensures DrainsInto(d, done + [Slot(start, queue[0])], queue[1..], start + Duration(queue[0]), now)
  {
    var r := Drain(queue[1..], start + Duration(queue[0]), now);
    assert done + ([Slot(start, queue[0])] + r.plan) == (done + [Slot(start, queue[0])]) + r.plan;
  }

  /** The drain loop reaching an empty chunk. */
  lemma DrainAtEmpty(d: Drained, done: seq<Slot>, queue: seq<seq<real>>, cursor: real, now: real)
    requires queue != [] && queue[0] == []
    requires DrainsInto(d, done, queue, cursor, now)
    ensures d == Drained(done, cursor, queue[1..], true)
  {
    assert done + [] == done;
  }

  /**
   * Draining starts the queued chunks in FIFO order up to the first empty
   * one, which is lost; the chunks behind it stay queued. Without an empty
   * chunk every queued chunk is started, once each.
   */
  lemma DrainKeepsOrder(queue: seq<seq<real>>, cursor: real, now: real)
    ensures var d := Drain(queue, cursor, now);
      && (!d.threw ==> Chunks(d.plan) == queue)
      && (d.threw ==> Chunks(d.plan) + [[]] + d.rest == queue)
  {
    DrainStartsAll(queue, cursor, now);
    DrainStopsAtEmpty(queue, cursor, now);
  }

  lemma {:induction false} DrainStartsAll(queue: seq<seq<real>>, cursor: real, now: real)
    ensures var d := Drain(queue, cursor, now); !d.threw ==> Chunks(d.plan) == queue
  {
    if queue != [] && queue[0] != [] {
      var start := if now >= cursor then now else cursor;
      var after := Drain(queue[1..], start + Duration(queue[0]), now);
      DrainStartsAll(queue[1..], start + Duration(queue[0]), now);
      ChunksCons(Slot(start, queue[0]), after.plan);
      assert queue == [queue[0]] + queue[1..];
    }
  }

  lemma {:induction false} DrainStopsAtEmpty(queue: seq<seq<real>>, cursor: real, now: real)
    ensures var d := Drain(queue, cursor, now); d.threw ==> Chunks(d.plan) + [[]] + d.rest == queue
  {
    if queue == [] {
    } else if queue[0] == [] {
      assert [] + [[]] + queue[1..] == queue;
    } else {
      var start := if now >= cursor then now else cursor;
      var after := Drain(queue[1..], start + Duration(queue[0]), now);
      DrainStopsAtEmpty(queue[1..], start + Duration(queue[0]), now);
      ChunksCons(Slot(start, queue[0]), after.plan);
      if after.threw {
        assert Chunks(after.plan) + [[]] + after.rest == queue[1..];
        assert [queue[0]] + Chunks(after.plan) + [[]] + after.rest == queue;
      }
    }
  }

  /** A drain loses exactly the empty chunk it stops at: no audio is dropped or reordered. */
  lemma DrainDropsOnlyEmpty(queue: seq<seq<real>>, cursor: real, now: real)
    ensures var d := Drain(queue, cursor, now);
      Chunks(d.plan) + Audible(d.rest) == Audible(queue)
  {
    var d := Drain(queue, cursor, now);
    DrainKeepsOrder(queue, cursor, now);
    DrainStartsOnlyAudio(queue, cursor, now);
    assert NoEmptyChunk(Chunks(d.plan));
    AudibleOfNoEmpty(Chunks(d.plan));
    if d.threw {
      AudibleAppend(Chunks(d.plan) + [[]], d.rest);
      AudibleAppend(Chunks(d.plan), [[]]);
      assert Audible([[]]) == [];
    }
  }

  /**
   * The first chunk started begins at `max(now, cursor)`, the others back to
   * back, none before `now` or the cursor; the cursor ends where the last
   * started slot ends, and does not move if nothing was started.
   */
  lemma {:induction false} DrainTiming(queue: seq<seq<real>>, cursor: real, now: real)
    ensures var d := Drain(queue, cursor, now);
      && (d.plan == [] ==> d.cursor == cursor)
      && (d.plan != [] ==>
            d.plan[0].start == (if now >= cursor then now else cursor) &&
            d.cursor == End(d.plan[|d.plan| - 1]))
      && BackToBack(d.plan)
      && (forall i :: 0 <= i < |d.plan| ==> d.plan[i].start >= now && d.plan[i].start >= cursor)
  {
    if queue != [] && queue[0] != [] {
      var start := if now >= cursor then now else cursor;
      var next := start + Duration(queue[0]);
      DrainTiming(queue[1..], next, now);
      var after := Drain(queue[1..], next, now);
      assert next >= start;
      SlotBeforePlan(Slot(start, queue[0]), after.plan);
    }
  }

  /** A slot followed by a back-to-back plan that starts when it ends. */
  lemma SlotBeforePlan(first: Slot, plan: seq<Slot>)
    requires BackToBack(plan)
    requires plan != [] ==> plan[0].start == End(first)
    ensures BackToBack([first] + plan)
    ensures ([first] + plan)[0] == first
    ensures plan != [] ==> ([first] + plan)[|plan|] == plan[|plan| - 1]
    ensures forall i :: 1 <= i < |plan| + 1 ==> ([first] + plan)[i] == plan[i - 1]
  {
  }

  /** Back-to-back slots never overlap. */
  lemma BackToBackNoOverlap(plan: seq<Slot>)
    requires BackToBack(plan)
    ensures NoOverlap(plan)
  {
  }

  /** A non-overlapping history followed by a non-overlapping plan starting after it does not overlap. */
  lemma NoOverlapAppend(history: seq<Slot>, plan: seq<Slot>)
    requires NoOverlap(history) && NoOverlap(plan)
    requires history != [] && plan != [] ==> End(history[|history| - 1]) <= plan[0].start
    ensures NoOverlap(history + plan)
  {
    var all := history + plan;
    forall i | 0 <= i < |all| - 1
      ensures End(all[i]) <= all[i + 1].start
    {
      if i + 1 < |history| {
        assert all[i] == history[i] && all[i + 1] == history[i + 1];
      } else if i + 1 == |history| {
        assert all[i] == history[|history| - 1] && all[i + 1] == plan[0];
      } else {
        assert all[i] == plan[i - |history|] && all[i + 1] == plan[i - |history| + 1];
      }
    }
  }

  /**
   * `audioQueueRef`, `nextPlayTimeRef`, `playbackStartedRef` and
   * `isPlayingRef`: chunks waiting, the cursor, whether the prefill has
   * completed, and whether a drain was left unfinished.
   */
  datatype Jitter = Jitter(queue: seq<seq<real>>, cursor: real, started: bool, playing: bool)

  /** The state after the reset in `startTranslation` and `stopTranslation`. */
  function Reset(): Jitter
  {
    Jitter([], 0.0, false, false)
  }

  /**
   * Before the prefill completes fewer than `InitialBufferCount` chunks wait
   * and no drain has run; once it has, every arrival is drained at once, so
   * chunks wait only behind a drain that an empty chunk cut short, which
   * also left `isPlayingRef` set.
   */
  ghost predicate JitterInv(j: Jitter)
  {
    if j.started then j.queue != [] ==> j.playing
    else |j.queue| < InitialBufferCount && !j.playing
  }

  datatype Received = Received(next: Jitter, plan: seq<Slot>)

  /**
   * The buffering half of `playAudioChunk` for one decoded chunk arriving at
   * output-clock time `now`. The prefill gate opens on the arrival that
   * brings the queue to `InitialBufferCount` chunks and stays open, and the
   * buffer invariant is kept.
   */
  function Receive(j: Jitter, chunk: seq<real>, now: real): (r: Received)
    ensures r.next.started <==> j.started || |j.queue| + 1 >= InitialBufferCount
    ensures JitterInv(j) ==> JitterInv(r.next)
  {
    var queue := j.queue + [chunk];
    if !j.started then
      if |queue| >= InitialBufferCount then
        var d := Drain(queue, now, now);
        Received(Jitter(d.rest, d.cursor, true, d.threw), d.plan)
      else
        Received(j.(queue := queue), [])
    else
      var d := Drain(queue, j.cursor, now);
      Received(Jitter(d.rest, d.cursor, true, d.threw), d.plan)
  }

  /** Before playback has started, a chunk that does not complete the prefill is only queued. */
  lemma ReceiveBuffers(j: Jitter, chunk: seq<real>, now: real)
    requires !j.started && |j.queue| + 1 < InitialBufferCount
    ensures Receive(j, chunk, now) == Received(j.(queue := j.queue + [chunk]), [])
  {
  }

  /**
   * The chunk that completes the prefill starts playback with the cursor
   * reset to `now`: the buffered chunks are started in arrival order, the
   * first at `now` and the rest back to back. Without an empty chunk all of
   * them are started and nothing waits; otherwise those before the first
   * empty one are started, it is lost and the rest stay queued.
   */
  lemma ReceiveStartsPlayback(j: Jitter, chunk: seq<real>, now: real)
    requires !j.started && |j.queue| + 1 == InitialBufferCount
    ensures var r := Receive(j, chunk, now); var queue := j.queue + [chunk];
      && r.next.started
      && NonEmptySlots(r.plan)
      && (NoEmptyChunk(queue) ==> !r.next.playing && r.next.queue == [] && Chunks(r.plan) == queue)
      && (!NoEmptyChunk(queue) ==> r.next.playing && Chunks(r.plan) + [[]] + r.next.queue == queue)
      && (r.plan != [] ==> r.plan[0].start == now && r.next.cursor == End(r.plan[|r.plan| - 1]))
      && (r.plan == [] ==> r.next.cursor == now)
      && BackToBack(r.plan)
  {
    var queue := j.queue + [chunk];
    DrainKeepsOrder(queue, now, now);
    DrainThrowsOnEmpty(queue, now, now);
    DrainStartsOnlyAudio(queue, now, now);
    DrainTiming(queue, now, now);
  }

  /**
   * Once playback has started, each arrival drains the queue from
   * `max(now, cursor)`: the chunks left behind by an earlier cut-short drain
   * first, then the new one, with the same treatment of an empty chunk.
   */
  lemma ReceiveWhilePlaying(j: Jitter, chunk: seq<real>, now: real)
    requires j.started
    ensures var r := Receive(j, chunk, now); var queue := j.queue + [chunk];
      && r.next.started
      && NonEmptySlots(r.plan)
      && (NoEmptyChunk(queue) ==> !r.next.playing && r.next.queue == [] && Chunks(r.plan) == queue)
      && (!NoEmptyChunk(queue) ==> r.next.playing && Chunks(r.plan) + [[]] + r.next.queue == queue)
      && (r.plan != [] ==>
            r.plan[0].start == (if now >= j.cursor then now else j.cursor) &&
            r.next.cursor == End(r.plan[|r.plan| - 1]))
      && (r.plan == [] ==> r.next.cursor == j.cursor)
      && BackToBack(r.plan)
  {
    var queue := j.queue + [chunk];
    DrainKeepsOrder(queue, j.cursor, now);
    DrainThrowsOnEmpty(queue, j.cursor, now);
    DrainStartsOnlyAudio(queue, j.cursor, now);
    DrainTiming(queue, j.cursor, now);
  }

  /** An arrival that drains the queue leaves nothing waiting unless the queue held an empty chunk. */
  lemma ReceiveFlushes(j: Jitter, chunk: seq<real>, now: real)
    requires j.started || |j.queue| + 1 >= InitialBufferCount
    ensures var r := Receive(j, chunk, now);
      NoEmptyChunk(j.queue + [chunk]) ==> r.next.queue == [] && !r.next.playing
  {
    DrainThrowsOnEmpty(j.queue + [chunk], if j.started then j.cursor else now, now);
  }

  /**
   * In steady playback a chunk is started at once at `max(now, cursor)`; an
   * empty chunk starts nothing, leaves the cursor alone and leaves
   * `isPlayingRef` set.
   */
  lemma ReceiveSteadyState(j: Jitter, chunk: seq<real>, now: real)
    requires j.started && j.queue == []
    ensures var r := Receive(j, chunk, now); var start := if now >= j.cursor then now else j.cursor;
      && (chunk != [] ==> r == Received(Jitter([], start + Duration(chunk), true, false), [Slot(start, chunk)]))
      && (chunk == [] ==> r == Received(Jitter([], j.cursor, true, true), []))
  {
    var start := if now >= j.cursor then now else j.cursor;
    assert j.queue + [chunk] == [chunk];
    assert [chunk][1..] == [];
    if chunk != [] {
      assert Drain([], start + Duration(chunk), now) == Drained([], start + Duration(chunk), [], false);
      assert Drain([chunk], j.cursor, now) == Drained([Slot(start, chunk)], start + Duration(chunk), [], false);
    }
  }

  /**
   * No slot is ever started before `now` or, once playing, before the
   * cursor; the slots of one arrival are back to back, and the cursor
   * follows the last slot started.
   */
  lemma ReceiveTiming(j: Jitter, chunk: seq<real>, now: real)
    ensures var r := Receive(j, chunk, now);
      && BackToBack(r.plan)
      && (r.plan != [] ==> r.next.cursor == End(r.plan[|r.plan| - 1]))
      && (forall i :: 0 <= i < |r.plan| ==> r.plan[i].start >= now)
      && (j.started ==>
            (forall i :: 0 <= i < |r.plan| ==> r.plan[i].start >= j.cursor) &&
            (r.plan == [] ==> r.next.cursor == j.cursor))
  {
    if j.started {
      DrainTiming(j.queue + [chunk], j.cursor, now);
    } else {
      DrainTiming(j.queue + [chunk], now, now);
    }
  }

  /**
   * Each arrival loses at most empty chunks: the audio started plus the
   * audio still queued is the audio queued before plus the new chunk.
   */
  lemma ReceiveKeepsAudio(j: Jitter, chunk: seq<real>, now: real)
    ensures var r := Receive(j, chunk, now);
      && NonEmptySlots(r.plan)
      && Chunks(r.plan) + Audible(r.next.queue) == Audible(j.queue + [chunk])
  {
    var queue := j.queue + [chunk];
    if !j.started && |queue| < InitialBufferCount {
    } else if j.started {
      DrainStartsOnlyAudio(queue, j.cursor, now);
      DrainDropsOnlyEmpty(queue, j.cursor, now);
    } else {
      DrainStartsOnlyAudio(queue, now, now);
      DrainDropsOnlyEmpty(queue, now, now);
    }
  }

  /** One arrival on the network: the chunk and the output clock reading. */
  datatype Arrival = Arrival(chunk: seq<real>, now: real)

  /** The chunks of a run of arrivals. */
  function ArrivalChunks(arrivals: seq<Arrival>): (chunks: seq<seq<real>>)
    ensures |chunks| == |arrivals|
    ensures forall i :: 0 <= i < |arrivals| ==> chunks[i] == arrivals[i].chunk
  {
    if arrivals == [] then [] else [arrivals[0].chunk] + ArrivalChunks(arrivals[1..])
  }

  lemma ArrivalChunksCons(queue: seq<seq<real>>, arrivals: seq<Arrival>)
    requires arrivals != []
    ensures queue + ArrivalChunks(arrivals) == (queue + [arrivals[0].chunk]) + ArrivalChunks(arrivals[1..])
  {
    assert ArrivalChunks(arrivals) == [arrivals[0].chunk] + ArrivalChunks(arrivals[1..]);
  }

  /** Feeding a run of arrivals, collecting every slot started. */
  function ReceiveAll(j: Jitter, arrivals: seq<Arrival>): Received
    decreases |arrivals|
  {
    if arrivals == [] then Received(j, [])
    else
      var first := Receive(j, arrivals[0].chunk, arrivals[0].now);
      var rest := ReceiveAll(first.next, arrivals[1..]);
      Received(rest.next, first.plan + rest.plan)
  }

  /**
   * Over any run of arrivals the audio started, followed by the audio still
   * queued, is the audio that arrived, in arrival order: only empty chunks
   * are lost, and no started buffer is empty.
   */
  lemma {:induction false} ReceiveAllKeepsAudio(j: Jitter, arrivals: seq<Arrival>)
    ensures var r := ReceiveAll(j, arrivals);
      && NonEmptySlots(r.plan)
      && Chunks(r.plan) + Audible(r.next.queue) == Audible(j.queue + ArrivalChunks(arrivals))
    decreases |arrivals|
  {
    if arrivals == [] {
      assert j.queue + ArrivalChunks(arrivals) == j.queue;
    } else {
      var a := arrivals[0];
      var first := Receive(j, a.chunk, a.now);
      var rest := ReceiveAll(first.next, arrivals[1..]);
      ReceiveAllKeepsAudio(first.next, arrivals[1..]);
      KeepsAudioStep(j, a, ArrivalChunks(arrivals[1..]), rest);
      ArrivalChunksCons(j.queue, arrivals);
    }
  }

  /** The induction step of `ReceiveAllKeepsAudio`: one arrival followed by the rest of the run. */
  lemma KeepsAudioStep(j: Jitter, a: Arrival, later: seq<seq<real>>, rest: Received)
    requires var first := Receive(j, a.chunk, a.now);
      NonEmptySlots(rest.plan) && Chunks(rest.plan) + Audible(rest.next.queue) == Audible(first.next.queue + later)
    ensures var first := Receive(j, a.chunk, a.now);
      && NonEmptySlots(first.plan + rest.plan)
      && Chunks(first.plan + rest.plan) + Audible(rest.next.queue) == Audible((j.queue + [a.chunk]) + later)
  {
    var first := Receive(j, a.chunk, a.now);
    ReceiveKeepsAudio(j, a.chunk, a.now);
    ChunksAppend(first.plan, rest.plan);
    NonEmptySlotsAppend(first.plan, rest.plan);
    AudibleAppend(first.next.queue, later);
    AudibleAppend(j.queue + [a.chunk], later);
    Regroup(Chunks(first.plan), Chunks(rest.plan), Audible(first.next.queue), Audible(rest.next.queue),
            Audible(j.queue + [a.chunk]), Audible(later));
  }

  /** Regrouping the two halves of `ReceiveAllKeepsAudio`'s induction step. */
  lemma Regroup<T>(started1: seq<T>, started2: seq<T>, waiting1: seq<T>, waiting2: seq<T>, before: seq<T>, later: seq<T>)
    requires started1 + waiting1 == before
    requires started2 + waiting2 == waiting1 + later
    ensures (started1 + started2) + waiting2 == before + later
  {
    calc {
      (started1 + started2) + waiting2;
      started1 + (started2 + waiting2);
      started1 + (waiting1 + later);
      (started1 + waiting1) + later;
    }
  }

  /**
   * The prefill gate over a run of arrivals: while fewer than
   * `InitialBufferCount` chunks have arrived they are only queued; once that
   * many have, playback has started, and if no chunk was empty nothing is
   * left waiting.
   */
  lemma {:induction false} PrefillFrom(j: Jitter, arrivals: seq<Arrival>)
    requires JitterInv(j)
    ensures var r := ReceiveAll(j, arrivals); var chunks := ArrivalChunks(arrivals);
      && JitterInv(r.next)
      && (!j.started && |j.queue| + |arrivals| < InitialBufferCount ==>
            r.plan == [] && r.next == j.(queue := j.queue + chunks))
      && (j.started || |j.queue| + |arrivals| >= InitialBufferCount ==> r.next.started)
      && ((arrivals != [] && (j.started || |j.queue| + |arrivals| >= InitialBufferCount) &&
           NoEmptyChunk(j.queue + chunks)) ==> r.next.queue == [] && !r.next.playing)
    decreases |arrivals|
  {
    if arrivals == [] {
      assert j.queue + ArrivalChunks(arrivals) == j.queue;
    } else {
      var a := arrivals[0];
      var first := Receive(j, a.chunk, a.now);
      var later := ArrivalChunks(arrivals[1..]);
      ArrivalChunksCons(j.queue, arrivals);
      PrefillFrom(first.next, arrivals[1..]);
      NoEmptyChunkAppend(j.queue + [a.chunk], later);
      if !j.started && |j.queue| + 1 < InitialBufferCount {
        ReceiveBuffers(j, a.chunk, a.now);
      } else {
        ReceiveFlushes(j, a.chunk, a.now);
      }
      if first.next.queue == [] {
        assert first.next.queue + later == later;
      }
    }
  }

  /**
   * From a reset buffer nothing is started until `InitialBufferCount`
   * chunks have arrived; from then on playback has started, the audio
   * started followed by the audio waiting is all the audio that arrived, and
   * if no chunk was empty every chunk has been started, in arrival order.
   */
  lemma PrefillFromReset(arrivals: seq<Arrival>)
    ensures var r := ReceiveAll(Reset(), arrivals); var chunks := ArrivalChunks(arrivals);
      && (|arrivals| < InitialBufferCount ==> r.plan == [] && r.next == Jitter(chunks, 0.0, false, false))
      && (|arrivals| >= InitialBufferCount ==> r.next.started)
      && (|arrivals| >= InitialBufferCount && NoEmptyChunk(chunks) ==>
            Chunks(r.plan) == chunks && r.next.queue == [] && !r.next.playing)
      && Chunks(r.plan) + Audible(r.next.queue) == Audible(chunks)
  {
    var r := ReceiveAll(Reset(), arrivals);
    var chunks := ArrivalChunks(arrivals);
    PrefillFrom(Reset(), arrivals);
    ReceiveAllKeepsAudio(Reset(), arrivals);
    assert [] + chunks == chunks;
    if |arrivals| >= InitialBufferCount && NoEmptyChunk(chunks) {
      AudibleOfNoEmpty(chunks);
      assert Chunks(r.plan) + [] == Chunks(r.plan);
    }
  }

  /**
   * An empty frame inside the prefill: of `a`, an empty chunk and `c`, only
   * `a` is started when the third arrives; `c` is left waiting for the next
   * arrival, and `isPlayingRef` stays set.
   */
  lemma EmptyChunkInPrefill(a: seq<real>, c: seq<real>, t1: real, t2: real, t3: real)
    requires a != [] && c != []
    ensures ReceiveAll(Reset(), [Arrival(a, t1), Arrival([], t2), Arrival(c, t3)])
      == Received(Jitter([c], t3 + Duration(a), true, true), [Slot(t3, a)])
  {
    var arrivals := [Arrival(a, t1), Arrival([], t2), Arrival(c, t3)];
    var j1 := Jitter([a], 0.0, false, false);
    var j2 := Jitter([a, []], 0.0, false, false);
    assert Receive(Reset(), a, t1) == Received(j1, []);
    assert Receive(j1, [], t2) == Received(j2, []);
    assert j2.queue + [c] == [a, [], c];
    assert [a, [], c][1..] == [[], c];
    assert [[], c][1..] == [c];
    assert Drain([[], c], t3 + Duration(a), t3) == Drained([], t3 + Duration(a), [c], true);
    assert Drain([a, [], c], t3, t3) == Drained([Slot(t3, a)], t3 + Duration(a), [c], true);
    var j3 := Jitter([c], t3 + Duration(a), true, true);
    assert Receive(j2, c, t3) == Received(j3, [Slot(t3, a)]);
    assert arrivals[1..] == [Arrival([], t2), Arrival(c, t3)];
    assert arrivals[1..][1..] == [Arrival(c, t3)];
    assert arrivals[1..][1..][1..] == [];
    assert ReceiveAll(j3, []) == Received(j3, []);
    assert ReceiveAll(j2, [Arrival(c, t3)]) == Received(j3, [Slot(t3, a)]);
    assert ReceiveAll(j1, arrivals[1..]) == Received(j3, [Slot(t3, a)]);
  }

  /**
   * An empty first frame opens the prefill gate without starting anything:
   * after it and two more chunks playback counts as started, yet both
   * chunks still wait and nothing has been started.
   */
  lemma EmptyChunkOpensPrefill(b: seq<real>, c: seq<real>, t1: real, t2: real, t3: real)
    ensures ReceiveAll(Reset(), [Arrival([], t1), Arrival(b, t2), Arrival(c, t3)])
      == Received(Jitter([b, c], t3, true, true), [])
  {
    var arrivals := [Arrival([], t1), Arrival(b, t2), Arrival(c, t3)];
    var j1 := Jitter([[]], 0.0, false, false);
    var j2 := Jitter([[], b], 0.0, false, false);
    assert Receive(Reset(), [], t1) == Received(j1, []);
    assert Receive(j1, b, t2) == Received(j2, []);
    assert j2.queue + [c] == [[], b, c];
    assert [[], b, c][1..] == [b, c];
    assert Drain([[], b, c], t3, t3) == Drained([], t3, [b, c], true);
    var j3 := Jitter([b, c], t3, true, true);
    assert Receive(j2, c, t3) == Received(j3, []);
    assert arrivals[1..] == [Arrival(b, t2), Arrival(c, t3)];
    assert arrivals[1..][1..] == [Arrival(c, t3)];
    assert arrivals[1..][1..][1..] == [];
    assert ReceiveAll(j3, []) == Received(j3, []);
    assert ReceiveAll(j2, [Arrival(c, t3)]) == Received(j3, []);
    assert ReceiveAll(j1, arrivals[1..]) == Received(j3, []);
  }

  /**
   * Over any run of arrivals after playback has started, including clock
   * stalls, a buffer that runs dry and empty chunks, no slot starts before
   * the previous one has ended, and none before the cursor the run began
   * with.
   */
  lemma {:induction false} ReceiveAllNoOverlap(j: Jitter, arrivals: seq<Arrival>)
    requires j.started
    ensures var r := ReceiveAll(j, arrivals);
      && NoOverlap(r.plan)
      && (r.plan != [] ==> r.plan[0].start >= j.cursor && r.next.cursor == End(r.plan[|r.plan| - 1]))
      && (r.plan == [] ==> r.next.cursor == j.cursor)
      && r.next.started
    decreases |arrivals|
  {
    if arrivals != [] {
      var a := arrivals[0];
      var first := Receive(j, a.chunk, a.now);
      ReceiveTiming(j, a.chunk, a.now);
      BackToBackNoOverlap(first.plan);
      ReceiveAllNoOverlap(first.next, arrivals[1..]);
      var rest := ReceiveAll(first.next, arrivals[1..]);
      if first.plan != [] && rest.plan != [] {
        assert End(first.plan[|first.plan| - 1]) == first.next.cursor <= rest.plan[0].start;
      }
      NoOverlapAppend(first.plan, rest.plan);
      var all := first.plan + rest.plan;
      if first.plan != [] {
        assert all[0] == first.plan[0];
      } else {
        assert all == rest.plan;
      }
      if rest.plan != [] {
        assert all[|all| - 1] == rest.plan[|rest.plan| - 1];
      } else {
        assert all == first.plan;
      }
    }
  }
}
