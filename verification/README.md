# Audio translator hook — verified Dafny model

This project models the browser client's audio relay hook
(`web/src/hooks/useAudioTranslator.ts`): the PCM16 codec that turns captured
float samples into little-endian 16-bit frames and received frames back into
floats, the nearest-neighbour resampler applied to every captured block, the
jitter buffer that waits for three received chunks before starting playback
and then starts each chunk at the later of the output clock and the end of
the previous one (back to back while the buffer does not run dry), except
that a zero-byte frame cuts the drain short, and the
connection state machine (`disconnected`, `connecting`, `connected`, `error`)
driven by `startTranslation`, the socket's callbacks, the capture callback and
`stopTranslation`.

Layout, one module per component:

- `wrappers.dfy` — `Option`, for the `error` state, the optional fields of a
  control message and operations that throw (the refs are flags in the state).
- `pcm16.dfy` (`Pcm16`) — `floatTo16BitPCM` and the `Int16Array` decode loop,
  as specification functions (`Encode`, `Decode`) and as the loops the hook
  runs (`EncodeBlock`, `DecodeChunk`), proved equal to them.
- `resampler.dfy` (`Resampler`) — `downsample` as `Resample` and as the loop
  `Downsample`.
- `playback.dfy` (`Playback`) — the scheduling loop (`Drain`) and the prefill
  gate (`Receive`) as functions, with ordering, contiguity and gating lemmas.
- `connection.dfy` (`Connection`) — the hook's whole state as a value and one
  transition function per callback, an invariant every callback keeps, and the
  lemmas about the lifecycle.
- `translator.dfy` (`Translator`) — the hook as a class `AudioTranslator`
  whose fields are the refs and the React state, with one method per callback
  updating them in place (including the `while` loop of
  `scheduleAudioPlayback`); each method is proved to perform the
  corresponding `Connection` transition and to keep the invariant. Two
  methods, `CaptureScenario` and `PlaybackScenario`, drive the object
  through end-to-end runs: three
  silent one-second blocks at 16 kHz are sent as three all-zero 32000-byte
  frames, and after `session_ready` three 4000-byte frames schedule nothing
  until the third, which starts playback at `now`.

Representation: samples and clock times are `real`; rates are positive
integers; `Math.round(n / d)` is `(2n + d) / (2d)` on integers; the int16
conversion truncates toward zero. Samples are `Num(x)` or `NaN`: a captured
block may hold NaN anywhere, the resampler stores NaN where it reads past the
end of its input (the read yields `undefined`, which the store into the
`Float32Array` result turns into NaN), and the encoder writes NaN as 0.
Received frames are read as little-endian int16 values. The platform is
reduced to inputs: the output clock reading `now`, the outcome of acquiring
the microphone (`Granted(rate)` or `Denied(message)`), the socket's open,
message, error and close events (messages are delivered only while the socket
is open, and an error closes it, as a browser does), and
two logs — every `ws.send` (`sent`) and every buffer source started on the
current output context (`scheduled`).

Where the code does something other than what a reader would expect of it,
the model follows the code:

- One would expect decode(encode(x)) to be within 1/32768 of the clamped
  sample. That holds only for negative samples: non-negative samples are
  scaled by 32767 but decoded by 32768 and come back up to (but less than)
  2/32768 low (`Pcm16.QuantizationError`, `Pcm16.PositiveErrorExceedsOneStep`).
- One would expect `downsample` to keep its indices inside the block. It does
  not clamp them: when the input rate is below the output rate it can read
  past the end and store NaN (e.g. one sample taken from 16 kHz to 48 kHz,
  `Resampler.UpsampleReadsPastEnd`); when the input rate is above the output
  rate every index is in bounds (`Resampler.DownsampleInBounds`). The hook
  creates its input context at 16 kHz (line 158), so whenever that succeeds
  the capture rate equals the outbound rate and only the equal-rate branch is
  reached from the hook as written; the model allows any capture rate.
- One would expect a socket error followed by its close to leave the hook in
  `error`. The `onclose` guard reads the `status` the callbacks closed over
  when `startTranslation` ran (line 205, dependency list at line 233), so in
  a session started from `disconnected` the close moves the hook to
  `disconnected` (`Connection.ErrorThenCloseForgetsErrorStatus`), and a
  session started from `error` never moves to `disconnected` on close.
- One would expect `stopTranslation` to end a connecting session. It sends
  `{"type":"stop"}` and closes the socket only when it is open; a socket
  still connecting is left alone, and its callbacks can later move the
  stopped hook to `connected` (`Connection.StopWhileConnectingLeavesSocketLive`).
- One would expect stopping during a start to cancel it. `startTranslation`
  clears the error and sets `connecting`, then waits for the microphone
  (line 146); a `stopTranslation` in that wait finds nothing to release and
  sets `disconnected`, after which the start acquires capture, output and a
  connecting socket anyway, whose `session_ready` later connects the hook
  (`Connection.StopDuringStartLeavesSessionLive`). The model splits the start
  at that wait (`Connection.StartBegin`, `Connection.StartResume`).
- A failed `startTranslation` ends in `error` with the thrown message, not in
  `disconnected` (`Connection.StartFails`).
- A session ended by `onclose` is `disconnected` but still holds the capture
  graph and the output context; stopping it then releases them and resets
  playback, so `disconnected` alone does not make stopping a no-op. Stopping
  is idempotent (`Connection.StopIdempotent`).
- One would expect every received frame to be played. A zero-byte frame
  decodes to an empty chunk, and `createBuffer` throws on a length of zero
  after the chunk has been shifted out of the queue: the drain ends there,
  the `catch` of `playAudioChunk` swallows the error, the chunks behind it
  wait for the next frame and `isPlayingRef` stays set. If it arrives during
  the prefill, the gate still opens on the third arrival
  (`Playback.EmptyChunkInPrefill`, `Playback.EmptyChunkOpensPrefill`,
  `Connection.EmptyFrameWhilePlaying`). No audio is lost or reordered by it
  (`Playback.ReceiveAllKeepsAudio`), and scheduled buffers still never
  overlap (`Playback.ReceiveAllNoOverlap`, `Connection.RunPreservesInv`).

## Model

| member | source | states |
|---|---|---|
| `Pcm16.Clamp` | web/src/hooks/useAudioTranslator.ts:115 | result lies in [-1, 1]; inputs inside it are kept, inputs above 1 give 1, below -1 give -1 |
| `Pcm16.Trunc` | web/src/hooks/useAudioTranslator.ts:116 | the integer conversion truncates toward zero: within 1 of the input, never farther from zero |
| `Pcm16.Quantize` | web/src/hooks/useAudioTranslator.ts:115-116 | every encoded value is an int16; 1.0 and above give 32767, -1.0 and below give -32768, NaN gives 0, the sign is kept |
| `Pcm16.Int16FromBytes` | web/src/hooks/useAudioTranslator.ts:83 | reading a low and a high byte as int16 (an `Int16Array` element on a little-endian host) gives a value in [-32768, 32767] congruent to `lo + 256 * hi` modulo 65536 |
| `Pcm16.Int16BytesRoundTrip` | web/src/hooks/useAudioTranslator.ts:116 | writing an int16 as its low and high byte and reading it back gives the same value |
| `Pcm16.Encode` | web/src/hooks/useAudioTranslator.ts:110-120 | n samples give exactly 2n bytes; sample i is in byte 2i (low) and byte 2i+1 (high) |
| `Pcm16.EncodeBlock` | web/src/hooks/useAudioTranslator.ts:110-120 | the `DataView` loop produces exactly `Encode` of its input |
| `Pcm16.Dequantize` | web/src/hooks/useAudioTranslator.ts:87 | a decoded value is negative exactly when the int16 is, and lies in [-1, 32767/32768] |
| `Pcm16.DecodeSamples` | web/src/hooks/useAudioTranslator.ts:83-88 | a 2n-byte frame gives n samples, sample i being the int16 with low byte 2i and high byte 2i+1, divided by 32768 |
| `Pcm16.Decode` | web/src/hooks/useAudioTranslator.ts:83-88 | decoding fails exactly when the byte length is odd |
| `Pcm16.DecodeChunk` | web/src/hooks/useAudioTranslator.ts:83-88 | the `Int16Array`/`Float32Array` loop produces exactly `Decode` of its input, failing on odd lengths |
| `Pcm16.DecodeRange` | web/src/hooks/useAudioTranslator.ts:86-88 | every decoded sample lies in [-1, 32767/32768] |
| `Pcm16.RoundTrip` | web/src/hooks/useAudioTranslator.ts:83-120 | decoding an encoded block succeeds, keeps its length, and gives each sample's int16 divided by 32768 |
| `Pcm16.QuantizationError` | web/src/hooks/useAudioTranslator.ts:115-116 | after clamping to c, a negative sample decodes into [c, c + 1/32768), a non-negative one into (c - 2/32768, c] |
| `Pcm16.RoundTripWithinQuantization` | web/src/hooks/useAudioTranslator.ts:83-120 | for a block of finite samples, decode(encode(block)) is within those bounds of the clamped input, sample by sample |
| `Pcm16.PositiveErrorExceedsOneStep` | web/src/hooks/useAudioTranslator.ts:116 | the sample 32766.5/32767 comes back more than 1/32768 low, so the symmetric 1/32768 bound is false |
| `Resampler.RoundDivNearest` | web/src/hooks/useAudioTranslator.ts:129 | the rounding used is the integer nearest to n/d, ties going up |
| `Resampler.Resample` | web/src/hooks/useAudioTranslator.ts:123-138 | `downsample`: equal rates return the block itself |
| `Resampler.ResampleLength` | web/src/hooks/useAudioTranslator.ts:128-130 | with different rates the output length is the whole number nearest len*outRate/inRate |
| `Resampler.ResampleNearest` | web/src/hooks/useAudioTranslator.ts:132-135 | with different rates output i is the input sample nearest in time to i/outRate (within half an input period), or NaN past the end |
| `Resampler.DownsampleInBounds` | web/src/hooks/useAudioTranslator.ts:132-135 | when inRate > outRate every picked index is below the input length |
| `Resampler.DownsampleFinite` | web/src/hooks/useAudioTranslator.ts:132-135 | when downsampling every output sample is one of the input samples, so no NaN is introduced |
| `Resampler.UpsampleReadsPastEnd` | web/src/hooks/useAudioTranslator.ts:133-134 | one sample taken from 16 kHz to 48 kHz gives three outputs, the last NaN from an index past the end |
| `Resampler.Downsample` | web/src/hooks/useAudioTranslator.ts:123-138 | the loop produces exactly `Resample` of its input |
| `Playback.Drain` | web/src/hooks/useAudioTranslator.ts:47-72 | the `while` loop of `scheduleAudioPlayback`: unless it stops at an empty chunk it leaves nothing queued |
| `Playback.DrainThrowsOnEmpty` | web/src/hooks/useAudioTranslator.ts:49-55 | a drain is cut short by `createBuffer` exactly when the queue holds an empty chunk |
| `Playback.DrainStartsOnlyAudio` | web/src/hooks/useAudioTranslator.ts:51-67 | no buffer source a drain starts is empty |
| `Playback.DrainPastChunk` | web/src/hooks/useAudioTranslator.ts:48-72 | one turn of the loop on a chunk with samples: the chunk is started at max(now, cursor), the cursor moves to its end, and the rest of the drain is that of the remaining queue |
| `Playback.DrainAtEmpty` | web/src/hooks/useAudioTranslator.ts:49-55 | the loop reaching an empty chunk ends the drain: it is shifted out, nothing more is started, the cursor stays and the rest stays queued |
| `Playback.DrainStartsAll` | web/src/hooks/useAudioTranslator.ts:47-72 | a drain that is not cut short starts every queued chunk once, in FIFO order |
| `Playback.DrainStopsAtEmpty` | web/src/hooks/useAudioTranslator.ts:49-55 | a drain that is cut short starts the chunks before the first empty one in order, drops that one and leaves the rest queued |
| `Playback.DrainKeepsOrder` | web/src/hooks/useAudioTranslator.ts:47-72 | both cases together: started chunks, then the lost empty chunk if any, then the waiting ones, are the queue in order |
| `Playback.DrainDropsOnlyEmpty` | web/src/hooks/useAudioTranslator.ts:47-72 | the audio started followed by the audio still queued is the queue's audio: only the empty chunk is lost |
| `Playback.DrainTiming` | web/src/hooks/useAudioTranslator.ts:63-71 | the first chunk started begins at max(now, cursor), each later one exactly when the previous ends, none before now or the cursor; the cursor ends at the last slot's end, or does not move |
| `Playback.Receive` | web/src/hooks/useAudioTranslator.ts:90-103 | the prefill gate is open after an arrival exactly when it was open or the queue reaches 3 chunks; the buffer invariant (fewer than 3 waiting before the gate opens; afterwards chunks wait only behind a cut-short drain, with `isPlayingRef` set) is kept |
| `Playback.ReceiveBuffers` | web/src/hooks/useAudioTranslator.ts:92-94 | before playback starts, a chunk that does not complete the prefill is only queued and nothing is scheduled |
| `Playback.ReceiveStartsPlayback` | web/src/hooks/useAudioTranslator.ts:94-98 | the third chunk starts playback with the cursor at now: without an empty chunk all three are scheduled in order from now, back to back, and nothing waits; otherwise those before the empty one are scheduled, it is lost, the rest wait and `isPlayingRef` stays set |
| `Playback.ReceiveWhilePlaying` | web/src/hooks/useAudioTranslator.ts:100-103 | once started, an arrival drains the waiting chunks and the new one from max(now, cursor), with the same two cases |
| `Playback.ReceiveFlushes` | web/src/hooks/useAudioTranslator.ts:94-103 | an arrival that drains leaves nothing waiting and `isPlayingRef` clear when no queued chunk is empty |
| `Playback.ReceiveSteadyState` | web/src/hooks/useAudioTranslator.ts:100-103 | in steady playback a chunk with samples is scheduled at max(now, cursor) and moves the cursor to its end; an empty one schedules nothing, keeps the cursor and leaves `isPlayingRef` set |
| `Playback.ReceiveTiming` | web/src/hooks/useAudioTranslator.ts:90-103 | nothing is scheduled before now (nor, once playing, before the cursor); an arrival's slots are back to back and the cursor follows the last one |
| `Playback.ReceiveKeepsAudio` | web/src/hooks/useAudioTranslator.ts:90-103 | an arrival loses only empty chunks: the audio scheduled plus the audio waiting is the audio waiting before plus the new chunk |
| `Playback.ReceiveAllKeepsAudio` | web/src/hooks/useAudioTranslator.ts:90-103 | over any run of arrivals the audio scheduled, then the audio waiting, is all the audio that arrived, in arrival order, and no empty buffer is started |
| `Playback.PrefillFrom` | web/src/hooks/useAudioTranslator.ts:92-103 | over any run of arrivals the buffer invariant holds; nothing is scheduled until 3 chunks have arrived, after which playback has started, and nothing waits if no chunk was empty |
| `Playback.PrefillFromReset` | web/src/hooks/useAudioTranslator.ts:92-103 | from the reset buffer, fewer than 3 arrivals schedule nothing; at least 3 start playback and, if none is empty, schedule all of them in order; no audio is lost in any case |
| `Playback.EmptyChunkInPrefill` | web/src/hooks/useAudioTranslator.ts:49-55 | arrivals a, an empty chunk, c: only a is scheduled on the third arrival, c waits, and `isPlayingRef` stays set |
| `Playback.EmptyChunkOpensPrefill` | web/src/hooks/useAudioTranslator.ts:49-55 | an empty first frame opens the gate on the third arrival with nothing scheduled and both later chunks waiting |
| `Playback.ReceiveAllNoOverlap` | web/src/hooks/useAudioTranslator.ts:63-71 | over any run of arrivals after the start, including clock stalls, a buffer that ran dry and empty chunks, no slot starts before the previous one ends |
| `Connection.CaptureFrame` | web/src/hooks/useAudioTranslator.ts:218-219 | the frame for a block holds two bytes per resampled sample, so it is always of even length and decodes |
| `Connection.Enqueued` | web/src/hooks/useAudioTranslator.ts:90-103 | a decoded chunk changes only the playback refs and the schedule; the schedule only grows; the prefill gate is open once it was or the queue reaches 3 chunks |
| `Connection.InitialInv` | web/src/hooks/useAudioTranslator.ts:20-35 | the hook's state at mount satisfies the invariant |
| `Connection.StartBegin` | web/src/hooks/useAudioTranslator.ts:140-146 | up to the microphone wait, `startTranslation` clears the error and sets connecting, touching neither the socket, playback nor outbound traffic, and keeps the invariant |
| `Connection.StartResume` | web/src/hooks/useAudioTranslator.ts:146-232 | after the wait, a start sends nothing and does not start recording; on success it leaves status and error as they are now; it keeps the invariant |
| `Connection.Start` | web/src/hooks/useAudioTranslator.ts:140-232 | `startTranslation` with no callback during the wait sends nothing, does not start recording, and keeps the invariant |
| `Connection.Open` | web/src/hooks/useAudioTranslator.ts:177-179 | the socket opening keeps the invariant |
| `Connection.OnText` | web/src/hooks/useAudioTranslator.ts:182-190 | a text frame keeps the invariant |
| `Connection.OnBinary` | web/src/hooks/useAudioTranslator.ts:78-107 | `playAudioChunk` keeps the invariant, empty and odd-length frames included |
| `Connection.OnMessage` | web/src/hooks/useAudioTranslator.ts:181-195 | `onmessage` changes nothing unless the socket is open, and keeps the invariant |
| `Connection.OnSocketError` | web/src/hooks/useAudioTranslator.ts:197-201 | `onerror` keeps the invariant |
| `Connection.OnClose` | web/src/hooks/useAudioTranslator.ts:203-209 | `onclose` keeps the invariant |
| `Connection.OnAudioProcess` | web/src/hooks/useAudioTranslator.ts:215-222 | capture leaves status, playback, the schedule and the socket alone, and keeps the invariant |
| `Connection.Stop` | web/src/hooks/useAudioTranslator.ts:235-275 | stopping establishes the invariant from any state |
| `Connection.Step` | web/src/hooks/useAudioTranslator.ts:140-275 | every callback keeps the invariant |
| `Connection.EnqueuedPreservesInv` | web/src/hooks/useAudioTranslator.ts:90-103 | queuing a decoded chunk, empty or not, keeps the invariant: scheduled slots hold audio, never overlap, and end at the cursor |
| `Connection.EnqueuedWhilePlaying` | web/src/hooks/useAudioTranslator.ts:100-103 | a chunk arriving while playing keeps the invariant: its slots (none if the drain stops at an empty chunk) start after the previous slot's end |
| `Connection.EnqueuedStartsPlayback` | web/src/hooks/useAudioTranslator.ts:94-98 | the chunk that completes the prefill leaves audible, non-overlapping slots ending at the cursor, whether or not an empty chunk cut the drain short |
| `Connection.RunPreservesInv` | web/src/hooks/useAudioTranslator.ts:140-275 | every state reachable by any sequence of callbacks satisfies the invariant |
| `Connection.StartResets` | web/src/hooks/useAudioTranslator.ts:140-173 | a successful start moves to connecting, clears the error, opens a new socket, acquires capture and output, resets playback and captures the current status for the callbacks |
| `Connection.StartFails` | web/src/hooks/useAudioTranslator.ts:228-232 | a failed start reports the thrown message with status error and changes nothing else |
| `Connection.TextTransitions` | web/src/hooks/useAudioTranslator.ts:182-190 | `session_ready` gives connected and recording; otherwise a non-empty error field gives error with that text; anything else changes nothing; no text frame touches playback, the socket or outbound traffic |
| `Connection.ServerGreetingIgnored` | web/src/hooks/useAudioTranslator.ts:184-190 | the server's `{"status":"connected"}` changes nothing |
| `Connection.BinaryOnlyFeedsPlayback` | web/src/hooks/useAudioTranslator.ts:191-194 | a binary frame never changes status, error, recording, the socket or outbound traffic; an odd-length frame, or one arriving without an output context, changes nothing |
| `Connection.BinaryPrefillGating` | web/src/hooks/useAudioTranslator.ts:92-94 | before playback starts, a frame that does not complete the prefill only queues its samples |
| `Connection.BinaryPrefillCompletes` | web/src/hooks/useAudioTranslator.ts:94-98 | the frame that completes the prefill opens the gate; the audio scheduled plus the audio waiting is the audio buffered |
| `Connection.BinaryPrefillSchedulesAll` | web/src/hooks/useAudioTranslator.ts:94-98 | when no buffered chunk is empty, that frame schedules the whole buffer in order, from now, back to back, leaving nothing waiting |
| `Connection.TwoFramesBuffer` | web/src/hooks/useAudioTranslator.ts:92-94 | from an empty prefill buffer two frames are only queued |
| `Connection.ThirdFrameStartsPlayback` | web/src/hooks/useAudioTranslator.ts:94-98 | with two equal non-empty chunks buffered, a third equal frame schedules all three from now, back to back |
| `Connection.ThreeFramesStartPlayback` | web/src/hooks/useAudioTranslator.ts:90-98 | three equal non-empty frames from an empty buffer: the first two schedule nothing, the third schedules all three from now |
| `Connection.EmptyFrameWhilePlaying` | web/src/hooks/useAudioTranslator.ts:49-55 | in steady playback a zero-byte frame schedules nothing and changes nothing but setting `isPlayingRef` |
| `Connection.ErrorTransition` | web/src/hooks/useAudioTranslator.ts:197-201 | a socket error always ends in error with the fixed message, on a closed socket |
| `Connection.CloseTransition` | web/src/hooks/useAudioTranslator.ts:203-209 | close stops recording and gives disconnected unless the status captured at start was error, in which case the live status is kept |
| `Connection.ErrorThenCloseForgetsErrorStatus` | web/src/hooks/useAudioTranslator.ts:205 | start from disconnected, open, socket error, close: the status ends disconnected while the error text remains |
| `Connection.StartedFromErrorNeverDisconnectsOnClose` | web/src/hooks/useAudioTranslator.ts:205 | a session started from error that connects keeps connected through a close |
| `Connection.CaptureSendsOnlyWhenOpen` | web/src/hooks/useAudioTranslator.ts:215-222 | a captured block is sent, resampled and encoded, exactly when capturing on an open socket, and is otherwise dropped |
| `Connection.CaptureFrameAtSampleRate` | web/src/hooks/useAudioTranslator.ts:218-219 | at the outbound rate the frame is the encoded block itself, two bytes per sample |
| `Connection.SilenceEncodesToZeros` | web/src/hooks/useAudioTranslator.ts:114-117 | n silent samples encode to 2n zero bytes |
| `Connection.StopTransition` | web/src/hooks/useAudioTranslator.ts:235-275 | stop sends the stop message and closes the socket only when open, drops the socket ref, releases capture and output, resets playback, stops recording and ends disconnected from any state, keeping the error text |
| `Connection.StopIdempotent` | web/src/hooks/useAudioTranslator.ts:235-275 | stopping twice leaves the same state as stopping once |
| `Connection.StopDuringStartLeavesSessionLive` | web/src/hooks/useAudioTranslator.ts:140-233 | a stop during the microphone wait leaves the hook disconnected yet capturing, with output and a connecting socket, whose session_ready then connects it |
| `Connection.StopWhileConnectingLeavesSocketLive` | web/src/hooks/useAudioTranslator.ts:237-241 | a stop during connecting leaves the socket to open, after which session_ready moves the stopped hook to connected and recording |
| `Translator.AudioTranslator.constructor` | web/src/hooks/useAudioTranslator.ts:20-35 | the object starts in the mount state, satisfying the invariant |
| `Translator.AudioTranslator.ResetPlayback` | web/src/hooks/useAudioTranslator.ts:268-271 | queue emptied, cursor 0, both playback flags false, every other field unchanged |
| `Translator.AudioTranslator.BeginStart` | web/src/hooks/useAudioTranslator.ts:140-146 | performs `Connection.StartBegin` in place and keeps the invariant |
| `Translator.AudioTranslator.ResumeStart` | web/src/hooks/useAudioTranslator.ts:146-232 | performs `Connection.StartResume` in place and keeps the invariant |
| `Translator.AudioTranslator.StartTranslation` | web/src/hooks/useAudioTranslator.ts:140-233 | the two halves in a row perform `Connection.Start` in place and keep the invariant |
| `Translator.AudioTranslator.Open` | web/src/hooks/useAudioTranslator.ts:177-179 | a connecting socket becomes open; nothing else changes |
| `Translator.AudioTranslator.ScheduleAudioPlayback` | web/src/hooks/useAudioTranslator.ts:38-75 | without an output context or with an empty queue only `isPlaying` is cleared; otherwise the `while` loop leaves the queue, the cursor and the new slots that `Drain` gives, and `isPlaying` stays set exactly when the loop stopped at an empty chunk; nothing else changes |
| `Translator.AudioTranslator.EnqueueChunk` | web/src/hooks/useAudioTranslator.ts:90-103 | pushes a decoded chunk, opens the prefill gate and drains as `Playback.Receive` does, keeping the invariant |
| `Translator.AudioTranslator.PlayAudioChunk` | web/src/hooks/useAudioTranslator.ts:78-107 | performs `Connection.OnBinary` in place and keeps the invariant |
| `Translator.AudioTranslator.OnMessage` | web/src/hooks/useAudioTranslator.ts:181-195 | performs `Connection.OnMessage` in place: text frames to the state machine, binary frames to playback, nothing unless the socket is open |
| `Translator.AudioTranslator.OnError` | web/src/hooks/useAudioTranslator.ts:197-201 | performs `Connection.OnSocketError` in place, the socket being closed |
| `Translator.AudioTranslator.OnClose` | web/src/hooks/useAudioTranslator.ts:203-209 | performs `Connection.OnClose` in place |
| `Translator.AudioTranslator.OnAudioProcess` | web/src/hooks/useAudioTranslator.ts:215-222 | performs `Connection.OnAudioProcess` in place, sending the resampled and encoded block only on an open socket |
| `Translator.AudioTranslator.StopTranslation` | web/src/hooks/useAudioTranslator.ts:235-275 | performs `Connection.Stop` in place and keeps the invariant |

## Left out

- Browser objects (WebSocket, `getUserMedia`, `AudioContext`, `ScriptProcessorNode`, `AudioBufferSourceNode`) are not modelled; their observable effects are inputs (`now`, the microphone outcome, socket events) and logs (`sent`, `scheduled`).
- `scheduleAudioPlayback` reads `audioContext.currentTime` once per chunk; the model uses one clock reading `now` for a whole drain, so a clock that advances between chunks of one drain is not captured.
- Float32 and double rounding are not modelled: samples, times and the rate ratio are exact reals.
- Infinities are not modelled: a captured sample is a real number or NaN (NaN may appear anywhere in a captured block).
- `new Int16Array(audioData)` reads in the host's byte order; the model reads received frames as little-endian, so a big-endian host is not modelled.
- `createBuffer` is modelled as throwing only on a zero length; its other failures (and those of `createBufferSource`, `connect` and `start`) are not modelled.
- The ToInt16 wrap-around modulo 65536 is not modelled because every value the encoder writes is already in the int16 range.
- `JSON.parse` failures and non-string `error` fields (whose truthiness differs) are not modelled; a text frame is reduced to optional `status` and `error` strings.
- Only one socket is modelled: calling `startTranslation` while an earlier socket still has live callbacks, or without stopping first (which leaks the old capture graph), is not captured.
- Failures inside `startTranslation` other than acquiring the microphone (constructing an `AudioContext`, the `WebSocket`, the processor) are not modelled; they take the same catch path as `Denied`.
- The capture graph (media stream tracks, source node, input context, processor) is one flag; the order in which `stopTranslation` releases its parts is not modelled. `onaudioprocess` is treated as not firing once the processor is disconnected.
- React state batching and re-rendering are not modelled: `status`, `error` and `isRecording` updates apply immediately; the captured close guard is the status at the moment `startTranslation` is called, which the resumed start receives as a parameter (`StartResumeEvent(guard, mic)` allows any value).
- The unmount cleanup (lines 278-282) is the same transition as `stopTranslation`.
- Console logging is left out.
- The server (`dataplane/src/main.rs`), the deployment code under `infra/`, the UI components and the marketing pages are not part of this model.
