/**
 * The connection lifecycle of the audio translator hook as a state machine
 * over values: one transition function per callback (`startTranslation`,
 * the socket's `onopen`, `onmessage`, `onerror`, `onclose`, the capture
 * processor's `onaudioprocess`, and `stopTranslation`). The `Translator`
 * module implements each transition imperatively and is proved against
 * these functions.
 *
 * Browser objects are reduced to what the hook observes of them: the
 * socket's ready state, whether the capture graph and the output
 * `AudioContext` exist, and logs of what was sent and what was scheduled.
 */
module Connection {
  import opened Wrappers
  import opened Pcm16
  import opened Resampler
  import opened Playback

  /** `ConnectionStatus`. */
  datatype Status = Disconnected | Connecting | Connected | Error

  /** `WebSocket.readyState` of the socket the handlers belong to. */
  datatype SocketState = SocketConnecting | SocketOpen | SocketClosing | SocketClosed

  /** A text frame from the server, reduced to the two fields the hook reads. */
  datatype ControlMessage = ControlMessage(status: Option<string>, error: Option<string>)

  /** What `onmessage` receives: a text frame or an `ArrayBuffer`. */
  datatype Inbound = Text(message: ControlMessage) | Binary(bytes: seq<Byte>)

  /** What the hook hands to `ws.send`: a PCM16 frame or `{"type":"stop"}`. */
  datatype Outbound = Audio(pcm: seq<Byte>) | StopMessage

  /**
   * Outcome of the awaited part of `startTranslation`: the microphone stream
   * and the input context's actual sample rate, or the message of the error
   * that was thrown.
   */
  datatype MicAccess = Granted(rate: Rate) | Denied(message: string)

  /** `SAMPLE_RATE`: the rate of every frame sent to the server. */
  const SampleRate: Rate := 16000
  const SessionReady: string := "session_ready"
  const SocketErrorMessage: string := "WebSocket connection error"

  /**
   * Everything the callbacks read or write.
   * `closeGuard` is the `status` value the callbacks closed over when
   * `startTranslation` ran; `hasSocket` is `wsRef.current !== null`;
   * `capturing` stands for the media stream, input context and processor;
   * `outputOpen` for `outputAudioContextRef.current`; `scheduled` logs the
   * buffer sources started on the current output context and `sent` every
   * `ws.send`.
   */
  datatype State = State(
    status: Status,
    error: Option<string>,
    recording: bool,
    closeGuard: Status,
    socket: SocketState,
    hasSocket: bool,
    capturing: bool,
    outputOpen: bool,
    captureRate: Rate,
    jitter: Jitter,
    scheduled: seq<Slot>,
    sent: seq<Outbound>)

  /** The hook's state at mount. */
  function Initial(): State
  {
    State(Disconnected, None, false, Disconnected, SocketClosed, false, false, false,
          SampleRate, Reset(), [], [])
  }

  /**
   * What every reachable state satisfies: the capture graph and the output
   * context are held together, and capture implies the socket ref; without an output context
   * the jitter buffer is reset; nothing is scheduled before the prefill gate
   * opens; no zero-length buffer is ever started; scheduled slots never
   * overlap and the cursor sits at the end of the last one.
   */
  ghost predicate Inv(s: State)
  {
    && JitterInv(s.jitter)
    && (s.capturing <==> s.outputOpen)
    && (s.capturing ==> s.hasSocket)
    && (!s.outputOpen ==> s.jitter == Reset() && s.scheduled == [])
    && (!s.jitter.started ==> s.scheduled == [])
    && NonEmptySlots(s.scheduled)
    && NoOverlap(s.scheduled)
    && (s.scheduled != [] ==> s.jitter.cursor == End(s.scheduled[|s.scheduled| - 1]))
  }

  /**
   * `startTranslation` up to the `await` of `getUserMedia`: the error is
   * cleared and the status is `Connecting`. Any callback, `stopTranslation`
   * included, may run before the rest of it. The invariant is kept.
   */
  function StartBegin(s: State): (t: State)
    ensures t.status == Connecting && t.error == None
    ensures t.sent == s.sent && t.jitter == s.jitter && t.socket == s.socket
    ensures Inv(s) ==> Inv(t)
  {
    s.(status := Connecting, error := None)
  }

  /**
   * The rest of `startTranslation`, once the microphone request has
   * settled: on success the capture graph, the output context and a new
   * connecting socket whose callbacks closed over `guard`, the `status` the
   * call began with; on failure the `catch`. It neither sends nor changes
   * the status on success, and keeps the invariant.
   */
  function StartResume(s: State, guard: Status, mic: MicAccess): (t: State)
    ensures t.sent == s.sent && t.recording == s.recording
    ensures mic.Granted? ==> t.status == s.status && t.error == s.error
    ensures Inv(s) ==> Inv(t)
  {
    match mic
    case Denied(message) => s.(status := Error, error := Some(message))
    case Granted(rate) =>
      s.(closeGuard := guard,
         socket := SocketConnecting, hasSocket := true, capturing := true, outputOpen := true,
         captureRate := rate, jitter := Reset(), scheduled := [])
  }

  /**
   * `startTranslation` when no callback runs while it waits for the
   * microphone. It sends nothing and does not start recording, and keeps
   * the invariant.
   */
  function Start(s: State, mic: MicAccess): (t: State)
    ensures t.sent == s.sent && t.recording == s.recording
    ensures Inv(s) ==> Inv(t)
  {
    StartResume(StartBegin(s), s.status, mic)
  }

  /** The socket opens; its `onopen` handler only logs. The invariant is kept. */
  function Open(s: State): (t: State)
    ensures Inv(s) ==> Inv(t)
  {
    if s.socket == SocketConnecting then s.(socket := SocketOpen) else s
  }

  /** `onmessage` for a text frame. An empty error string is falsy and ignored. The invariant is kept. */
  function OnText(s: State, m: ControlMessage): (t: State)
    ensures Inv(s) ==> Inv(t)
  {
    if m.status == Some(SessionReady) then s.(status := Connected, recording := true)
    else if m.error.Some? && m.error.value != "" then s.(error := m.error, status := Error)
    else s
  }

  /**
   * `onmessage` for a binary frame: `playAudioChunk`. Nothing happens
   * without an output context or when the frame has an odd length (the
   * `Int16Array` constructor throws and the error is swallowed). The
   * invariant is kept.
   */
  function OnBinary(s: State, bytes: seq<Byte>, now: real): (t: State)
    ensures Inv(s) ==> Inv(t)
  {
    if !s.outputOpen then s
    else
      match Decode(bytes)
      case None => s
      case Some(chunk) =>
        EnqueuedPreservesInv(s, chunk, now);
        Enqueued(s, chunk, now)
  }

  /** `onmessage`: text frames go to the state machine, binary frames only to playback. */
  function OnMessage(s: State, frame: Inbound, now: real): (t: State)
    ensures s.socket != SocketOpen ==> t == s
    ensures Inv(s) ==> Inv(t)
  {
    if s.socket != SocketOpen then s
    else
    match frame
    case Text(m) => OnText(s, m)
    case Binary(bytes) => OnBinary(s, bytes, now)
  }

  /** `onerror`, which the browser fires once the socket is closed. The invariant is kept. */
  function OnSocketError(s: State): (t: State)
    ensures Inv(s) ==> Inv(t)
  {
    s.(socket := SocketClosed, error := Some(SocketErrorMessage), status := Error)
  }

  /** `onclose`, whose guard reads the status captured at start, not the live one. The invariant is kept. */
  function OnClose(s: State): (t: State)
    ensures Inv(s) ==> Inv(t)
  {
    s.(socket := SocketClosed,
       status := if s.closeGuard != Error then Disconnected else s.status,
       recording := false)
  }

  /**
   * The frame `onaudioprocess` sends for one captured block: two bytes per
   * resampled sample, so the receiving side's `Int16Array` accepts it.
   */
  function CaptureFrame(block: seq<Sample>, captureRate: Rate): (frame: seq<Byte>)
    ensures |frame| == 2 * |Resample(block, captureRate, SampleRate)|
    ensures Decode(frame).Some?
  {
    Encode(Resample(block, captureRate, SampleRate))
  }

  /**
   * `onaudioprocess`: resample, encode and send, only while the socket is
   * open. Playback and the connection status are untouched, and the
   * invariant is kept.
   */
  function OnAudioProcess(s: State, block: seq<Sample>): (t: State)
    ensures t.status == s.status && t.jitter == s.jitter && t.scheduled == s.scheduled && t.socket == s.socket
    ensures Inv(s) ==> Inv(t)
  {
    if s.capturing && s.socket == SocketOpen then
      s.(sent := s.sent + [Audio(CaptureFrame(block, s.captureRate))])
    else s
  }

  /** `stopTranslation`. From any state, even one breaking the invariant, it restores the invariant. */
  function Stop(s: State): (t: State)
    ensures Inv(t)
  {
    var open := s.hasSocket && s.socket == SocketOpen;
    s.(sent := if open then s.sent + [StopMessage] else s.sent,
       socket := if open then SocketClosing else s.socket,
       hasSocket := false, capturing := false, outputOpen := false,
       jitter := Reset(), scheduled := [],
       recording := false, status := Disconnected)
  }

  /** Anything that can happen to the hook. */
  datatype Event =
    | StartEvent(mic: MicAccess)
    | StartBeginEvent
    | StartResumeEvent(guard: Status, mic: MicAccess)
    | OpenEvent
    | MessageEvent(frame: Inbound, now: real)
    | ErrorEvent
    | CloseEvent
    | AudioProcessEvent(block: seq<Sample>)
    | StopEvent

  /** One event: every callback keeps the invariant. */
  function Step(s: State, e: Event): (t: State)
    ensures Inv(s) ==> Inv(t)
  {
    match e
    case StartEvent(mic) => Start(s, mic)
    case StartBeginEvent => StartBegin(s)
    case StartResumeEvent(guard, mic) => StartResume(s, guard, mic)
    case OpenEvent => Open(s)
    case MessageEvent(frame, now) => OnMessage(s, frame, now)
    case ErrorEvent => OnSocketError(s)
    case CloseEvent => OnClose(s)
    case AudioProcessEvent(block) => OnAudioProcess(s, block)
    case StopEvent => Stop(s)
  }

  function Run(s: State, events: seq<Event>): State
    decreases |events|
  {
    if events == [] then s else Run(Step(s, events[0]), events[1..])
  }

  lemma InitialInv()
    ensures Inv(Initial())
  {
  }

  /**
   * The state after a decoded chunk has gone through the jitter buffer: only
   * the playback refs and the schedule change, the schedule only grows, and
   * the prefill gate is open once it was or the queue reaches
   * `InitialBufferCount` chunks.
   */
  function Enqueued(s: State, chunk: seq<real>, now: real): (t: State)
    ensures t == s.(jitter := t.jitter, scheduled := t.scheduled)
    ensures s.scheduled <= t.scheduled
    ensures t.jitter.started <==> s.jitter.started || |s.jitter.queue| + 1 >= InitialBufferCount
  {
    var r := Receive(s.jitter, chunk, now);
    s.(jitter := r.next, scheduled := s.scheduled + r.plan)
  }

  /**
   * A decoded chunk, empty or not, keeps the invariant: new slots start
   * after the last old one ends and hold audio.
   */
  lemma EnqueuedPreservesInv(s: State, chunk: seq<real>, now: real)
    ensures Inv(s) && s.outputOpen ==> Inv(Enqueued(s, chunk, now))
  {
    if !(Inv(s) && s.outputOpen) {
    } else if s.jitter.started {
      EnqueuedWhilePlaying(s, chunk, now);
    } else if |s.jitter.queue| + 1 < InitialBufferCount {
      ReceiveBuffers(s.jitter, chunk, now);
    } else {
      EnqueuedStartsPlayback(s, chunk, now);
    }
  }

  /**
   * Once playing, the slots of a chunk (none when the drain stops at an
   * empty chunk) start after the last slot already scheduled, and the
   * cursor stays at the end of the schedule.
   */
  lemma EnqueuedWhilePlaying(s: State, chunk: seq<real>, now: real)
    requires Inv(s) && s.outputOpen && s.jitter.started
    ensures Inv(Enqueued(s, chunk, now))
  {
    var r := Receive(s.jitter, chunk, now);
    ReceiveTiming(s.jitter, chunk, now);
    DrainStartsOnlyAudio(s.jitter.queue + [chunk], s.jitter.cursor, now);
    BackToBackNoOverlap(r.plan);
    var t := Enqueued(s, chunk, now);
    assert t.jitter == r.next && t.scheduled == s.scheduled + r.plan;
    NoOverlapAppend(s.scheduled, r.plan);
    NonEmptySlotsAppend(s.scheduled, r.plan);
    if r.plan != [] {
      assert t.scheduled[|t.scheduled| - 1] == r.plan[|r.plan| - 1];
    } else {
      assert t.scheduled == s.scheduled;
    }
  }

  /**
   * The chunk that completes the prefill leaves a schedule of audible,
   * non-overlapping slots ending at the cursor, whether or not an empty
   * chunk cut the drain short.
   */
  lemma EnqueuedStartsPlayback(s: State, chunk: seq<real>, now: real)
    requires Inv(s) && s.outputOpen && !s.jitter.started && |s.jitter.queue| + 1 >= InitialBufferCount
    ensures Inv(Enqueued(s, chunk, now))
  {
    var r := Receive(s.jitter, chunk, now);
    ReceiveTiming(s.jitter, chunk, now);
    DrainStartsOnlyAudio(s.jitter.queue + [chunk], now, now);
    BackToBackNoOverlap(r.plan);
    var t := Enqueued(s, chunk, now);
    assert s.scheduled + r.plan == r.plan;
    assert t.scheduled == r.plan && t.jitter == r.next && r.next.started;
    assert JitterInv(t.jitter) && NonEmptySlots(t.scheduled) && NoOverlap(t.scheduled);
  }

  /** Every state reachable from mount satisfies the invariant. */
  lemma {:induction false} RunPreservesInv(s: State, events: seq<Event>)
    requires Inv(s)
    ensures Inv(Run(s, events))
    decreases |events|
  {
    if events != [] {
      RunPreservesInv(Step(s, events[0]), events[1..]);
    }
  }

  /**
   * A successful start connects a fresh session: status connecting, error
   * cleared, a new connecting socket, capture and output acquired, playback
   * reset; the callbacks remember the status the hook had.
   */
  lemma StartResets(s: State, rate: Rate)
    ensures var t := Start(s, Granted(rate));
      && t.status == Connecting && t.error == None && t.closeGuard == s.status
      && t.socket == SocketConnecting && t.hasSocket && t.capturing && t.outputOpen
      && t.jitter == Jitter([], 0.0, false, false) && t.scheduled == [] && t.sent == s.sent
  {
  }

  /** A failed start reports the thrown message and acquires nothing. */
  lemma StartFails(s: State, message: string)
    ensures var t := Start(s, Denied(message));
      t.status == Error && t.error == Some(message) &&
      t == s.(status := Error, error := Some(message))
  {
  }

  /**
   * Text frames: `session_ready` connects and starts recording; otherwise a
   * non-empty `error` field reports it; anything else, such as the server's
   * `{"status":"connected"}`, changes nothing. No text frame touches the
   * playback state or the socket.
   */
  lemma TextTransitions(s: State, m: ControlMessage)
    ensures var t := OnText(s, m);
      && (m.status == Some(SessionReady) ==> t.status == Connected && t.recording && t.error == s.error)
      && (m.status != Some(SessionReady) && m.error.Some? && m.error.value != "" ==>
            t.status == Error && t.error == m.error && t.recording == s.recording)
      && (m.status != Some(SessionReady) && (m.error.None? || m.error == Some("")) ==> t == s)
      && t.jitter == s.jitter && t.scheduled == s.scheduled && t.sent == s.sent && t.socket == s.socket
  {
  }

  /** The server's greeting `{"status":"connected"}` is ignored. */
  lemma ServerGreetingIgnored(s: State)
    ensures OnText(s, ControlMessage(Some("connected"), None)) == s
  {
    assert "connected" != SessionReady;
  }

  /**
   * Binary frames only feed playback: status, error, recording, socket and
   * outbound traffic are untouched, and an odd-length frame changes nothing.
   */
  lemma BinaryOnlyFeedsPlayback(s: State, bytes: seq<Byte>, now: real)
    ensures var t := OnBinary(s, bytes, now);
      && t.status == s.status && t.error == s.error && t.recording == s.recording
      && t.socket == s.socket && t.sent == s.sent
      && (|bytes| % 2 == 1 || !s.outputOpen ==> t == s)
  {
  }

  /** Before playback starts, a frame that does not complete the prefill only queues its samples. */
  lemma BinaryPrefillGating(s: State, bytes: seq<Byte>, now: real)
    requires Inv(s) && s.outputOpen && |bytes| % 2 == 0 && !s.jitter.started
    requires |s.jitter.queue| + 1 < InitialBufferCount
    ensures var t := OnBinary(s, bytes, now);
      t.scheduled == [] && t.jitter.queue == s.jitter.queue + [DecodeSamples(bytes)] && !t.jitter.started
  {
    ReceiveBuffers(s.jitter, DecodeSamples(bytes), now);
  }

  /**
   * The frame that completes the prefill opens the gate: the audio scheduled
   * followed by the audio still waiting is the audio of the buffered frames.
   */
  lemma BinaryPrefillCompletes(s: State, bytes: seq<Byte>, now: real)
    requires Inv(s) && s.outputOpen && |bytes| % 2 == 0 && !s.jitter.started
    requires |s.jitter.queue| + 1 == InitialBufferCount
    ensures var t := OnBinary(s, bytes, now);
      && t.jitter.started
      && Chunks(t.scheduled) + Audible(t.jitter.queue) == Audible(s.jitter.queue + [DecodeSamples(bytes)])
  {
    var chunk := DecodeSamples(bytes);
    var r := Receive(s.jitter, chunk, now);
    ReceiveKeepsAudio(s.jitter, chunk, now);
    assert s.scheduled + r.plan == r.plan;
  }

  /**
   * When none of the buffered frames is empty, the frame that completes the
   * prefill schedules the whole buffer, in order, starting at `now`, back to
   * back, and leaves nothing queued.
   */
  lemma BinaryPrefillSchedulesAll(s: State, bytes: seq<Byte>, now: real)
    requires Inv(s) && s.outputOpen && |bytes| % 2 == 0 && !s.jitter.started
    requires |s.jitter.queue| + 1 == InitialBufferCount
    requires NoEmptyChunk(s.jitter.queue + [DecodeSamples(bytes)])
    ensures var t := OnBinary(s, bytes, now);
      && t.jitter.started && t.jitter.queue == []
      && Chunks(t.scheduled) == s.jitter.queue + [DecodeSamples(bytes)]
      && t.scheduled[0].start == now && BackToBack(t.scheduled)
  {
    var queue := s.jitter.queue + [DecodeSamples(bytes)];
    var d := Drain(queue, now, now);
    DrainThrowsOnEmpty(queue, now, now);
    DrainStartsAll(queue, now, now);
    DrainTiming(queue, now, now);
    assert Chunks(d.plan) == queue;
    assert s.scheduled + d.plan == d.plan;
  }

  /** From an empty prefill buffer, two frames are only queued. */
  lemma TwoFramesBuffer(s: State, bytes: seq<Byte>, now: real)
    requires Inv(s) && s.outputOpen && !s.jitter.started && s.jitter.queue == []
    requires |bytes| % 2 == 0
    ensures var s1 := OnBinary(s, bytes, now); var s2 := OnBinary(s1, bytes, now);
      && s1.scheduled == [] && s2.scheduled == [] && Inv(s2) && s2.outputOpen
      && !s2.jitter.started && s2.jitter.queue == [DecodeSamples(bytes), DecodeSamples(bytes)]
  {
    var s1 := OnBinary(s, bytes, now);
    BinaryPrefillGating(s, bytes, now);
    BinaryPrefillGating(s1, bytes, now);
  }

  /** With two equal non-empty chunks buffered, a third equal frame schedules all three from `now`. */
  lemma ThirdFrameStartsPlayback(s: State, bytes: seq<Byte>, now: real)
    requires Inv(s) && s.outputOpen && !s.jitter.started && |bytes| % 2 == 0 && bytes != []
    requires s.jitter.queue == [DecodeSamples(bytes), DecodeSamples(bytes)]
    ensures var t := OnBinary(s, bytes, now); var chunk := DecodeSamples(bytes);
      && t.jitter.started && t.jitter.queue == [] && Chunks(t.scheduled) == [chunk, chunk, chunk]
      && t.scheduled[0].start == now && BackToBack(t.scheduled)
  {
    var chunk := DecodeSamples(bytes);
    assert s.jitter.queue + [chunk] == [chunk, chunk, chunk];
    assert chunk != [];
    assert NoEmptyChunk([chunk, chunk, chunk]);
    BinaryPrefillSchedulesAll(s, bytes, now);
  }

  /**
   * From an empty prefill buffer, three equal non-empty frames schedule
   * nothing until the third, which schedules all three back to back from `now`.
   */
  lemma ThreeFramesStartPlayback(s: State, bytes: seq<Byte>, now: real)
    requires Inv(s) && s.outputOpen && !s.jitter.started && s.jitter.queue == []
    requires |bytes| % 2 == 0 && bytes != []
    ensures var s1 := OnBinary(s, bytes, now); var s2 := OnBinary(s1, bytes, now);
      var t := OnBinary(s2, bytes, now); var chunk := DecodeSamples(bytes);
      && s1.scheduled == [] && s2.scheduled == []
      && t.jitter.started && t.jitter.queue == [] && Chunks(t.scheduled) == [chunk, chunk, chunk]
      && t.scheduled[0].start == now && BackToBack(t.scheduled)
  {
    TwoFramesBuffer(s, bytes, now);
    ThirdFrameStartsPlayback(OnBinary(OnBinary(s, bytes, now), bytes, now), bytes, now);
  }

  /**
   * A zero-byte frame in steady playback schedules nothing and leaves the
   * cursor where it was; only `isPlayingRef` is left set by the aborted
   * drain.
   */
  lemma EmptyFrameWhilePlaying(s: State, now: real)
    requires Inv(s) && s.outputOpen && s.jitter.started && s.jitter.queue == []
    ensures OnBinary(s, [], now) == s.(jitter := s.jitter.(playing := true))
  {
    assert DecodeSamples([]) == [];
    ReceiveSteadyState(s.jitter, [], now);
    assert s.scheduled + [] == s.scheduled;
  }

  /** `onerror` always ends in `Error` with the fixed message. */
  lemma ErrorTransition(s: State)
    ensures var t := OnSocketError(s);
      t.status == Error && t.error == Some(SocketErrorMessage) && t.socket == SocketClosed
  {
  }

  /**
   * `onclose` stops recording and moves to `Disconnected` unless the status
   * captured at start was `Error`, in which case the live status is kept.
   */
  lemma CloseTransition(s: State)
    ensures var t := OnClose(s);
      && !t.recording && t.socket == SocketClosed && t.error == s.error
      && (s.closeGuard != Error ==> t.status == Disconnected)
      && (s.closeGuard == Error ==> t.status == s.status)
  {
  }

  /**
   * Because the guard is stale, a socket error followed by the close that
   * follows it ends `Disconnected` for a session started from
   * `Disconnected`: the error text stays but the error status is lost.
   */
  lemma ErrorThenCloseForgetsErrorStatus(rate: Rate)
    ensures var t := Run(Initial(), [StartEvent(Granted(rate)), OpenEvent, ErrorEvent, CloseEvent]);
      t.status == Disconnected && t.error == Some(SocketErrorMessage)
  {
    var s1 := Start(Initial(), Granted(rate));
    var s2 := Open(s1);
    var s3 := OnSocketError(s2);
    var s4 := OnClose(s3);
    assert s4.status == Disconnected;
    assert Run(Initial(), [StartEvent(Granted(rate)), OpenEvent, ErrorEvent, CloseEvent]) == s4 by {
      RunSteps4(Initial(), StartEvent(Granted(rate)), OpenEvent, ErrorEvent, CloseEvent);
    }
  }

  /** And a session started from `Error` keeps `Error` through any close, even after a successful connect. */
  lemma StartedFromErrorNeverDisconnectsOnClose(s: State, rate: Rate)
    requires s.status == Error
    ensures var t := OnClose(OnText(Open(Start(s, Granted(rate))), ControlMessage(Some(SessionReady), None)));
      t.status == Connected && !t.recording
  {
  }

  lemma RunSteps4(s: State, e1: Event, e2: Event, e3: Event, e4: Event)
    ensures Run(s, [e1, e2, e3, e4]) == Step(Step(Step(Step(s, e1), e2), e3), e4)
  {
    assert [e1, e2, e3, e4][1..] == [e2, e3, e4];
    assert [e2, e3, e4][1..] == [e3, e4];
    assert [e3, e4][1..] == [e4];
    assert [e4][1..] == [];
    var s1 := Step(s, e1);
    var s2 := Step(s1, e2);
    var s3 := Step(s2, e3);
    assert Run(s3, [e4]) == Run(Step(s3, e4), []);
    assert Run(s2, [e3, e4]) == Run(s3, [e4]);
    assert Run(s1, [e2, e3, e4]) == Run(s2, [e3, e4]);
    assert Run(s, [e1, e2, e3, e4]) == Run(s1, [e2, e3, e4]);
  }

  /** Audio is sent only while capturing on an open socket; otherwise it is dropped. */
  lemma CaptureSendsOnlyWhenOpen(s: State, block: seq<Sample>)
    ensures var t := OnAudioProcess(s, block);
      && (s.capturing && s.socket == SocketOpen ==> t.sent == s.sent + [Audio(CaptureFrame(block, s.captureRate))])
      && (!s.capturing || s.socket != SocketOpen ==> t == s)
  {
  }

  /** At the outbound rate a captured block is sent as-is, two bytes per sample. */
  lemma CaptureFrameAtSampleRate(block: seq<Sample>)
    ensures CaptureFrame(block, SampleRate) == Encode(block)
    ensures |CaptureFrame(block, SampleRate)| == 2 * |block|
  {
  }

  /** Silence encodes to zero bytes. */
  lemma SilenceEncodesToZeros(n: nat)
    ensures Encode(seq(n, _ => Num(0.0))) == seq(2 * n, _ => 0)
  {
    var block: seq<Sample> := seq(n, _ => Num(0.0));
    var bytes := Encode(block);
    forall j | 0 <= j < 2 * n
      ensures bytes[j] == 0
    {
      var k := j / 2;
      assert block[k] == Num(0.0);
      assert Quantize(block[k]) == 0;
    }
  }

  /**
   * `stopTranslation` sends `{"type":"stop"}` and closes the socket only when
   * the socket ref is open; in every state it drops the ref, releases
   * capture and output, resets playback and ends `Disconnected`, keeping
   * the error text.
   */
  lemma StopTransition(s: State)
    ensures var t := Stop(s);
      && t.status == Disconnected && !t.recording && t.error == s.error
      && !t.hasSocket && !t.capturing && !t.outputOpen
      && t.jitter == Jitter([], 0.0, false, false) && t.scheduled == []
      && (s.hasSocket && s.socket == SocketOpen ==> t.sent == s.sent + [StopMessage] && t.socket == SocketClosing)
      && (!(s.hasSocket && s.socket == SocketOpen) ==> t.sent == s.sent && t.socket == s.socket)
  {
  }

  /** Stopping twice is stopping once. */
  lemma StopIdempotent(s: State)
    ensures Stop(Stop(s)) == Stop(s)
  {
  }

  /**
   * `stopTranslation` leaves a socket that is still connecting alone: once
   * it opens, a `session_ready` reconnects the stopped hook, without capture.
   */
  lemma StopWhileConnectingLeavesSocketLive(rate: Rate)
    ensures var t := OnText(Open(Stop(Start(Initial(), Granted(rate)))), ControlMessage(Some(SessionReady), None));
      t.status == Connected && t.recording && t.socket == SocketOpen && !t.capturing && !t.hasSocket
  {
  }

  /**
   * `stopTranslation` run while `startTranslation` waits for the microphone
   * finds nothing to release; the start then acquires capture, output and a
   * connecting socket for a hook that reads `Disconnected`, and that
   * socket's `session_ready` later connects it.
   */
  lemma StopDuringStartLeavesSessionLive(rate: Rate)
    ensures var s := StartResume(Stop(StartBegin(Initial())), Disconnected, Granted(rate));
      && s.status == Disconnected && s.capturing && s.outputOpen && s.hasSocket && s.socket == SocketConnecting
      && OnMessage(Open(s), Text(ControlMessage(Some(SessionReady), None)), 0.0).status == Connected
  {
  }
}
