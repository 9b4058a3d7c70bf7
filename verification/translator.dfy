/**
 * `useAudioTranslator` as an object: the refs and React state of the hook
 * are fields, each callback is a method that updates them in place, and
 * each method is proved to perform the transition `Connection` defines.
 * Clock readings (`audioContext.currentTime`), the microphone outcome and
 * the socket's events are parameters and calls made by the environment.
 */
module Translator {
  import opened Wrappers
  import opened Pcm16
  import opened Resampler
  import opened Playback
  import opened Connection

  class AudioTranslator {
    var status: Status
    var error: Option<string>
    var isRecording: bool
    /** The `status` the socket's callbacks closed over. */
    var closeGuard: Status
    /** `readyState` of the socket whose callbacks are installed. */
    var socket: SocketState
    /** `wsRef.current !== null`. */
    var hasSocket: bool
    /** Media stream, input context and script processor are held. */
    var capturing: bool
    /** `outputAudioContextRef.current !== null`. */
    var outputOpen: bool
    /** `actualSampleRate` of the input context. */
    var captureRate: Rate
    /** `audioQueueRef`. */
    var audioQueue: seq<seq<real>>
    /** `nextPlayTimeRef`. */
    var nextPlayTime: real
    /** `playbackStartedRef`. */
    var playbackStarted: bool
    /** `isPlayingRef`. */
    var isPlaying: bool
    /** Buffer sources started on the current output context. */
    ghost var scheduled: seq<Slot>
    /** Everything passed to `ws.send`. */
    ghost var sent: seq<Outbound>

    ghost function Model(): State
      reads this
    {
      State(status, error, isRecording, closeGuard, socket, hasSocket, capturing, outputOpen,
            captureRate, Jitter(audioQueue, nextPlayTime, playbackStarted, isPlaying), scheduled, sent)
    }

    ghost predicate Valid()
      reads this
    {
      Inv(Model())
    }

    /** The hook at mount. */
    constructor ()
      ensures Valid() && Model() == Initial()
    {
      status, error, isRecording := Disconnected, None, false;
      closeGuard, socket, hasSocket := Disconnected, SocketClosed, false;
      capturing, outputOpen, captureRate := false, false, SampleRate;
      audioQueue, nextPlayTime, playbackStarted, isPlaying := [], 0.0, false, false;
      scheduled, sent := [], [];
      InitialInv();
    }

    /** Clears the playback refs, as `stopTranslation` does. */
    method ResetPlayback()
      modifies this
      ensures audioQueue == [] && nextPlayTime == 0.0 && !isPlaying && !playbackStarted
      ensures status == old(status) && error == old(error) && isRecording == old(isRecording)
      ensures closeGuard == old(closeGuard) && socket == old(socket) && hasSocket == old(hasSocket)
      ensures capturing == old(capturing) && outputOpen == old(outputOpen) && captureRate == old(captureRate)
      ensures scheduled == old(scheduled) && sent == old(sent)
    {
      audioQueue := [];
      nextPlayTime := 0.0;
      isPlaying := false;
      playbackStarted := false;
    }

    /** `startTranslation` up to the `await` of `getUserMedia`. */
    method BeginStart()
      requires Valid()
      modifies this`status, this`error
      ensures Valid() && Model() == StartBegin(old(Model()))
    {
      error := None;
      status := Connecting;
    }

    /**
     * The rest of `startTranslation` once the microphone request has
     * settled; `guard` is the `status` the call began with, which the new
     * socket's callbacks close over.
     */
    method ResumeStart(guard: Status, mic: MicAccess)
      requires Valid()
      modifies this
      ensures Valid() && Model() == StartResume(old(Model()), guard, mic)
    {
      ghost var s := Model();
      match mic {
        case Denied(message) =>
          error := Some(message);
          status := Error;
          assert Model() == s.(status := Error, error := Some(message));
        case Granted(rate) =>
          capturing, outputOpen := true, true;
          scheduled := [];
          captureRate := rate;
          audioQueue, nextPlayTime, isPlaying, playbackStarted := [], 0.0, false, false;
          socket, hasSocket := SocketConnecting, true;
          closeGuard := guard;
          assert Model() == s.(closeGuard := guard, socket := SocketConnecting, hasSocket := true,
            capturing := true, outputOpen := true, captureRate := rate, jitter := Reset(), scheduled := []);
      }
    }

    /** `startTranslation` when no callback runs while it waits for the microphone. */
    method StartTranslation(mic: MicAccess)
      requires Valid()
      modifies this
      ensures Valid() && Model() == Start(old(Model()), mic)
    {
      var before := status;
      BeginStart();
      ResumeStart(before, mic);
    }

    /** The browser opens the socket. */
    method Open()
      requires Valid()
      modifies this
      ensures Valid() && Model() == Connection.Open(old(Model()))
    {
      if socket == SocketConnecting {
        socket := SocketOpen;
      }
    }

    /**
     * `scheduleAudioPlayback`: starts every queued chunk at
     * `max(now, nextPlayTime)` and advances the cursor past it. A chunk of
     * length zero makes `createBuffer` throw after it has been shifted out:
     * the loop ends there with `isPlaying` still set, and the exception
     * reaches the `catch` of `playAudioChunk`, after which nothing else runs.
     */
    method ScheduleAudioPlayback(now: real)
      modifies this`audioQueue, this`nextPlayTime, this`isPlaying, this`scheduled
      ensures !old(outputOpen) || old(audioQueue) == [] ==>
        !isPlaying && audioQueue == old(audioQueue) && nextPlayTime == old(nextPlayTime) && scheduled == old(scheduled)
      ensures old(outputOpen) && old(audioQueue) != [] ==>
        var d := Drain(old(audioQueue), old(nextPlayTime), now);
        audioQueue == d.rest && nextPlayTime == d.cursor && scheduled == old(scheduled) + d.plan && isPlaying == d.threw
    {
      if !outputOpen || |audioQueue| == 0 {
        isPlaying := false;
        return;
      }
      isPlaying := true;
      ghost var d := Drain(audioQueue, nextPlayTime, now);
      ghost var done: seq<Slot> := [];
      assert done + d.plan == d.plan;
      var thrown := false;
      while |audioQueue| > 0 && !thrown
        invariant !thrown ==> DrainsInto(d, done, audioQueue, nextPlayTime, now)
        invariant thrown ==> d == Drained(done, nextPlayTime, audioQueue, true)
        invariant scheduled == old(scheduled) + done
        invariant isPlaying
        decreases |audioQueue|
      {
        var chunk := audioQueue[0];
        if |chunk| == 0 {
          DrainAtEmpty(d, done, audioQueue, nextPlayTime, now);
          audioQueue := audioQueue[1..];
          thrown := true;
        } else {
          var startTime := if now >= nextPlayTime then now else nextPlayTime;
          DrainPastChunk(d, done, audioQueue, nextPlayTime, now, startTime);
          audioQueue := audioQueue[1..];
          scheduled := scheduled + [Slot(startTime, chunk)];
          nextPlayTime := startTime + Duration(chunk);
          done := done + [Slot(startTime, chunk)];
        }
      }
      isPlaying := thrown;
    }

    /**
     * The part of `playAudioChunk` after decoding: queue the chunk, open the
     * prefill gate once enough chunks are buffered, and drain.
     */
    method EnqueueChunk(chunk: seq<real>, now: real)
      requires Valid() && outputOpen
      modifies this
      ensures Valid() && Model() == Enqueued(old(Model()), chunk, now)
    {
      ghost var s := Model();
      audioQueue := audioQueue + [chunk];
      if !playbackStarted {
        if |audioQueue| >= InitialBufferCount {
          ghost var d := Drain(audioQueue, now, now);
          playbackStarted := true;
          nextPlayTime := now;
          ScheduleAudioPlayback(now);
          assert Model() == s.(jitter := Jitter(d.rest, d.cursor, true, d.threw), scheduled := s.scheduled + d.plan);
        } else {
          assert Model() == s.(jitter := s.jitter.(queue := audioQueue), scheduled := s.scheduled + []);
        }
      } else {
        ghost var d := Drain(audioQueue, nextPlayTime, now);
        ScheduleAudioPlayback(now);
        assert Model() == s.(jitter := Jitter(d.rest, d.cursor, true, d.threw), scheduled := s.scheduled + d.plan);
      }
      EnqueuedPreservesInv(s, chunk, now);
    }

    /** `playAudioChunk`: decode, queue, and schedule once the prefill is complete. */
    method PlayAudioChunk(bytes: seq<Byte>, now: real)
      requires Valid()
      modifies this
      ensures Valid() && Model() == OnBinary(old(Model()), bytes, now)
    {
      if !outputOpen {
        return;
      }
      var decoded := DecodeChunk(bytes);
      if decoded.None? {
        return;
      }
      EnqueueChunk(decoded.value, now);
    }

    /** `ws.onmessage`. */
    method OnMessage(frame: Inbound, now: real)
      requires Valid()
      modifies this
      ensures Valid() && Model() == Connection.OnMessage(old(Model()), frame, now)
    {
      if socket != SocketOpen {
        return;
      }
      match frame {
        case Text(m) =>
          if m.status == Some(SessionReady) {
            status := Connected;
            isRecording := true;
          } else if m.error.Some? && m.error.value != "" {
            error := m.error;
            status := Error;
          }
        case Binary(bytes) =>
          PlayAudioChunk(bytes, now);
      }
    }

    /** `ws.onerror`. */
    method OnError()
      requires Valid()
      modifies this
      ensures Valid() && Model() == OnSocketError(old(Model()))
    {
      socket := SocketClosed;
      error := Some(SocketErrorMessage);
      status := Error;
    }

    /** `ws.onclose`. */
    method OnClose()
      requires Valid()
      modifies this
      ensures Valid() && Model() == Connection.OnClose(old(Model()))
    {
      socket := SocketClosed;
      if closeGuard != Error {
        status := Disconnected;
      }
      isRecording := false;
    }

    /** `processor.onaudioprocess` for one captured block. */
    method OnAudioProcess(block: seq<Sample>)
      requires Valid()
      modifies this
      ensures Valid() && Model() == Connection.OnAudioProcess(old(Model()), block)
    {
      // Once `stopTranslation` has disconnected the processor the callback no longer fires.
      if !capturing {
        return;
      }
      if socket == SocketOpen {
        var downsampled := Downsample(block, captureRate, SampleRate);
        var pcm := EncodeBlock(downsampled);
        sent := sent + [Audio(pcm)];
      }
    }

    /** `stopTranslation`. */
    method StopTranslation()
      requires Valid()
      modifies this
      ensures Valid() && Model() == Stop(old(Model()))
    {
      if hasSocket && socket == SocketOpen {
        sent := sent + [StopMessage];
        socket := SocketClosing;
      }
      hasSocket := false;
      capturing := false;
      outputOpen := false;
      scheduled := [];
      ResetPlayback();
      isRecording := false;
      status := Disconnected;
    }
  }

  /**
   * With capture at the outbound rate, three silent one-second blocks are
   * sent as three all-zero frames of 32000 bytes.
   */
  method CaptureScenario()
  {
    var hook := new AudioTranslator();
    hook.StartTranslation(Granted(SampleRate));
    hook.Open();
    StartResets(Initial(), SampleRate);
    assert hook.capturing && hook.socket == SocketOpen && hook.captureRate == SampleRate && hook.sent == [];
    var silence: seq<Sample> := seq(16000, _ => Num(0.0));
    var zeros: seq<Byte> := seq(32000, _ => 0);
    SilenceEncodesToZeros(16000);
    CaptureFrameAtSampleRate(silence);
    assert CaptureFrame(silence, hook.captureRate) == zeros;
    hook.OnAudioProcess(silence);
    hook.OnAudioProcess(silence);
    hook.OnAudioProcess(silence);
    assert hook.sent == [Audio(zeros), Audio(zeros), Audio(zeros)];
  }

  /**
   * After `session_ready`, three frames of 4000 bytes schedule nothing until
   * the third, which starts playback at `now`.
   */
  method PlaybackScenario(now: real)
  {
    var hook := new AudioTranslator();
    hook.StartTranslation(Granted(SampleRate));
    hook.Open();
    hook.OnMessage(Text(ControlMessage(Some(SessionReady), None)), now);
    assert hook.status == Connected && hook.isRecording;
    var frame: seq<Byte> := seq(4000, _ => 0);
    ghost var s0 := hook.Model();
    hook.OnMessage(Binary(frame), now);
    ghost var s1 := hook.Model();
    hook.OnMessage(Binary(frame), now);
    ghost var s2 := hook.Model();
    hook.OnMessage(Binary(frame), now);
    ThreeFramesStartPlayback(s0, frame, now);
    assert s1.scheduled == [] && s2.scheduled == [];
    assert |Chunks(hook.scheduled)| == 3 && hook.scheduled[0].start == now;
  }
}
