# Live conversation audio path — a Dafny model

This project models the audio path of the live voice conversation panel,
`components/LiveConversation.tsx`. The panel streams microphone audio to a
remote speech session and plays back the speech that comes back. The model
has three parts.

- **Wire codec.** `createBlob` turns a frame of float samples into 16-bit signed
  PCM. It lays the samples out little-endian, base64-encodes the bytes
  (section 4 of RFC 4648) and tags them `audio/pcm;rate=16000`. `decode` undoes
  the base64 step. `decodeAudioData` reads the bytes back as 16-bit values,
  splits them into channels and scales each one by 1/32768.
- **Playback scheduler.** It keeps a cursor (`nextStartTimeRef`) and a set of
  active source nodes (`sourcesRef`). Each audio chunk starts at
  `max(cursor, now)`, and the cursor then moves to the chunk's end. A source's
  `ended` event removes that source. An interruption stops every source,
  empties the set and sets the cursor back to 0.
- **Session lifecycle.** The status goes idle → connecting → connected. Every
  failure and every close runs `cleanup`. `cleanup` nulls the resource refs,
  stops playback, empties the set, zeroes the cursor and goes back to idle.

Modules:

- `Base64` is the browser's `btoa`, and `atob` with the forgiving-base64
  decode of the WHATWG Infra Standard. That decode drops ASCII whitespace,
  drops one or two `=` when the length is a multiple of four, rejects a length
  of 1 modulo 4 and rejects characters outside the alphabet.
- `Pcm` is the ECMAScript store into an `Int16Array` (ToInt16, section 7.1.8 of
  ECMA-262) and the little-endian layout of the array's buffer.
- `Codec` holds the three helpers as methods over arrays.
- `Playback` holds a `Scheduler` class. Its methods are specified by pure
  functions on `Sched` values, and the scheduling properties are lemmas about
  those functions.
- `Session` holds the `LiveConversation` class: its status, `isActive`, the
  refs, `cleanup`, `startSession` and the session callbacks.

Things the program gets from outside are parameters:

- the output clock `now` (`audioCtx.currentTime`);
- how far `startSession` gets (`StartOutcome`);
- the server's messages (`Message`).

Source nodes are named by ids from a counter in the scheduler, so every
`createBufferSource` gives a node that has not been seen before.

Sample conversion follows the code as written, and this is a deliberate
choice. A float sample `x` is stored as `ToInt16(trunc(x * 32768))`. Samples
are exact reals: a float32 times 2^15 is exact. The store wraps modulo 2^16
and does not clamp. So the round trip to within 1/32768 holds for samples in
[-1, 1) (`Pcm.QuantizeRoundTrip`). A full-scale sample of exactly +1.0 comes
back as -1.0 (`Pcm.FullScaleWraps`). Reading back uses `v / 32768`, which
float32 holds exactly, so reals lose nothing there either.

Three consequences of the code as written:

- The store round-trips to within 1/32768 only on [-1, 1), and +1.0 wraps to
  -1.0; see above.
- `cleanup` only nulls `sessionRef` and never closes the remote session, so
  messages may still arrive after it. With no output context they change
  nothing, and a bare interruption clears an already empty set.
- The connect promise is stored but never awaited, so a rejected connection
  is not caught by the `try` block, which handles only a constructor that
  throws or a refused microphone. The session reaches error and idle only
  through `onerror`.

## Model

| member | source | states |
|---|---|---|
| `Base64.Char` | components/LiveConversation.tsx:18 | the alphabet character for a 6-bit value decodes back to that value |
| `Base64.EncodedLength` | components/LiveConversation.tsx:18 | base64 of n bytes has 4·⌈n/3⌉ characters |
| `Base64.GroupRemainder` | components/LiveConversation.tsx:18 | n bytes leave 0, 2 or 3 groups beyond a multiple of four (n mod 3 = 0, 1, 2), so never the lone group `atob` refuses |
| `Base64.Btoa` | components/LiveConversation.tsx:18 | `btoa` succeeds exactly when every code unit is below 256 |
| `Base64.Atob` | components/LiveConversation.tsx:27 | what `atob` returns is a binary string (every code unit below 256) |
| `Base64.Binary` | components/LiveConversation.tsx:16 | `String.fromCharCode` per byte: one code unit per byte, equal to it |
| `Base64.Codes` | components/LiveConversation.tsx:31 | `charCodeAt` per code unit: one byte per code unit, and `Binary` of the bytes gives the string back |
| `Base64.SextetsRoundTrip` | components/LiveConversation.tsx:18 | regrouping the 6-bit groups of any byte sequence into bytes gives that sequence back |
| `Base64.AtobInvertsBtoa` | components/LiveConversation.tsx:18 | for every byte sequence, `btoa` of its binary string is its encoding, and `atob` of that encoding is the binary string again |
| `Pcm.Trunc` | components/LiveConversation.tsx:9 | truncation toward zero: within 1 of the input, on the zero side |
| `Pcm.ToInt16` | components/LiveConversation.tsx:9 | the stored value is congruent to the integer modulo 2^16, and equals it when it is in 16-bit range |
| `Pcm.ToFloat` | components/LiveConversation.tsx:49 | a 16-bit value scaled by 1/32768 lies in [-1, 1) and times 32768 gives the value back |
| `Pcm.QuantizeRoundTrip` | components/LiveConversation.tsx:9 | on [-1, 1) the store does not wrap, and reading it back is within 1/32768 of the sample |
| `Pcm.FullScaleWraps` | components/LiveConversation.tsx:9 | the sample +1.0 is stored as -32768 and reads back as -1.0 |
| `Pcm.Unsigned` | components/LiveConversation.tsx:13-14 | the buffer's bit pattern of a 16-bit value is in [0, 2^16) and congruent to it |
| `Pcm.LittleEndian` | components/LiveConversation.tsx:13-14 | the buffer of n 16-bit values holds 2·n bytes |
| `Pcm.LittleEndianAt` | components/LiveConversation.tsx:13-14 | value j sits in bytes 2j (low) and 2j+1 (high) |
| `Pcm.Int16View` | components/LiveConversation.tsx:42 | an `Int16Array` over an even number of bytes has half as many elements |
| `Pcm.ReadBack` | components/LiveConversation.tsx:42 | viewing the little-endian buffer as `Int16Array` gives every value written |
| `Codec.Quantized` | components/LiveConversation.tsx:6-10 | the `Int16Array` has one value per sample |
| `Codec.CreateBlob` | components/LiveConversation.tsx:5-24 | the descriptor is `audio/pcm;rate=16000`; the payload is base64 of the little-endian buffer of the stored values, and `atob` returns exactly those 2·n bytes |
| `Codec.Decode` | components/LiveConversation.tsx:26-34 | fails exactly when `atob` throws; otherwise the byte array holds the code units of `atob`'s result, in order |
| `Codec.DecodeInvertsBtoa` | components/LiveConversation.tsx:12-34 | for every byte sequence b, `decode` of the base64 made from b gives b |
| `Codec.Deinterleave` | components/LiveConversation.tsx:43-51 | k channels, each of ⌊len/k⌋ frames |
| `Codec.FrameIndexBound` | components/LiveConversation.tsx:48-49 | every index `i * k + c` read by the loop is inside the `Int16Array` |
| `Codec.DeinterleaveCovers` | components/LiveConversation.tsx:46-51 | when k divides the length, sample j lands in channel j mod k at frame ⌊j/k⌋ |
| `Codec.DecodeAudioData` | components/LiveConversation.tsx:36-53 | an odd byte count throws RangeError; an unsupported channel count, no frames or an unsupported rate throws NotSupportedError; otherwise the buffer has k channels of ⌊len/k⌋ frames, and channel c, frame i is `int16[i*k + c] / 32768` |
| `Codec.DecodedRange` | components/LiveConversation.tsx:49 | every decoded value lies in [-1, 1) |
| `Codec.MonoReadsBackCreateBlob` | components/LiveConversation.tsx:9-51 | mono: the buffer `createBlob` encodes holds 2·n bytes, viewed as `Int16Array` it gives back the stored values, and frame i of the single channel is sample i as stored, scaled by 1/32768 |
| `Codec.MonoReadsBack` | components/LiveConversation.tsx:42-51 | any 16-bit values laid out little-endian read back as themselves, and as one channel whose frame i is value i / 32768 |
| `Playback.EnqueueSchedules` | components/LiveConversation.tsx:140-159 | a chunk starts at max(cursor, now), which is at least both, and exactly the cursor when now ≤ cursor; the cursor becomes start + duration; the set gains that source and nothing else changes |
| `Playback.InterruptRestartsAtNow` | components/LiveConversation.tsx:162-167 | an interruption empties the set and zeroes the cursor, so the next chunk starts at now |
| `Playback.EndIsHarmless` | components/LiveConversation.tsx:153-155 | an `ended` event removes only its own source and keeps the cursor; a second removal, or one after an interruption, changes nothing |
| `Playback.CatchUpIsAbsorbed` | components/LiveConversation.tsx:140-147 | the catch-up left by a chunk that then fails to decode does not move any later chunk's start |
| `Playback.Gapless` | components/LiveConversation.tsx:140-158 | with no interruption, chunk k+1 starts at or after the end of chunk k, and exactly there when it arrived before that end |
| `Playback.StartsInOrder` | components/LiveConversation.tsx:140-158 | chunks start in arrival order |
| `Playback.CursorAfterChunks` | components/LiveConversation.tsx:140-159 | after a run of chunks the cursor never moved back and is the end of the last chunk; the set gained exactly the run's sources |
| `Playback.TwoChunkScenario` | components/LiveConversation.tsx:140-159 | chunks of 0.5 s and 0.3 s arriving at 0 start at 0 and 0.5, and the cursor ends at 0.8 |
| `Playback.Scheduler.constructor` | components/LiveConversation.tsx:64-65 | the cursor starts at 0 and the set starts empty |
| `Playback.Scheduler.CatchUp` | components/LiveConversation.tsx:140 | the cursor becomes max(cursor, now) and nothing else changes |
| `Playback.Scheduler.Start` | components/LiveConversation.tsx:149-159 | a fresh source starts at the old cursor, the cursor advances by its duration, and the source joins the set |
| `Playback.Scheduler.End` | components/LiveConversation.tsx:153-155 | removes exactly that source |
| `Playback.Scheduler.StopAll` | components/LiveConversation.tsx:164-166 | every active source is stopped, the set becomes empty and the cursor 0; no source is ever both active and stopped |
| `Session.ChunkDuration` | components/LiveConversation.tsx:142-147 | a payload that decodes as 24 kHz mono has a positive duration |
| `Session.QuietMessagesChangeNothing` | components/LiveConversation.tsx:134-138 | with no payload and no interruption, or with a payload and no output context, the cursor and the set stay as they were |
| `Session.InterruptionClears` | components/LiveConversation.tsx:162-167 | an interruption that is reached leaves an empty set and cursor 0, so the next chunk starts at the clock |
| `Session.AudioMessageEnqueues` | components/LiveConversation.tsx:136-159 | a decodable, uninterrupted audio message is exactly one enqueue: it starts at max(cursor, now), and the cursor moves to its end |
| `Session.TornDownIdempotent` | components/LiveConversation.tsx:69-88 | cleanup's end state is idle, inactive, empty and at cursor 0, and a second cleanup does not change it |
| `Session.LiveConversation.constructor` | components/LiveConversation.tsx:56-65 | starts idle and inactive, holding nothing, with its own new scheduler: cursor 0, no active and no stopped sources |
| `Session.LiveConversation.Cleanup` | components/LiveConversation.tsx:69-88 | stream, input context, output context and session are null, every source is stopped, the set is empty, the cursor is 0, not active, status idle |
| `Session.LiveConversation.StartSession` | components/LiveConversation.tsx:90-193 | sets connecting. On success it holds the contexts, the stream and the session, with one connect call, and the scheduler (cursor, active and stopped sources, id counter) is kept. If a constructor throws or the microphone is refused, it sets error and then ends in cleanup's state (every active source stopped), with no connect call |
| `Session.LiveConversation.OnOpen` | components/LiveConversation.tsx:110-113 | the only step to connected, and it sets active |
| `Session.LiveConversation.OnMessage` | components/LiveConversation.tsx:133-168 | the scheduler follows `Handled`; no active or stopped source is lost: together they gain exactly the new source, when one is scheduled; the id counter steps by one exactly then, so no id is reused |
| `Session.LiveConversation.OnSourceEnded` | components/LiveConversation.tsx:153-155 | removes that source only; the stopped sources and the id counter are kept |
| `Session.LiveConversation.OnClose` | components/LiveConversation.tsx:169-172 | ends in cleanup's state |
| `Session.LiveConversation.OnError` | components/LiveConversation.tsx:173-177 | sets error, then ends in cleanup's idle state |
| `Session.LiveConversation.Click` | components/LiveConversation.tsx:257-258 | active: cleanup's state, with no connect call and only idle logged; inactive: `startSession`'s whole outcome (on success connecting, holding every ref, scheduler kept, one connect call; on failure cleanup's state after connecting and error), so a session is started only when inactive |
| `Session.Conversation` | components/LiveConversation.tsx:90-193 | a new component taken through start (button), open, an interruption and stop (button) ends idle, inactive and holding nothing, having logged connecting, connected and idle, with one connect call |

## Left out

- Capture wiring is not modelled: `createMediaStreamSource`, the 4096-sample
  `ScriptProcessor`, `onaudioprocess` and `sendRealtimeInput` through the
  stored promise (lines 115-131). These are calls into the Web Audio and
  session libraries. `createBlob` on each frame is modelled.
- `drawVisualizer` and the rendered markup are not modelled (lines 196-268),
  except the button's choice between `cleanup` and `startSession`. This is
  canvas drawing and view code.
- `GoogleGenAI`, `ai.live.connect` and its configuration, `getUserMedia`,
  `AudioContext` and the gain node are foreign calls. The model keeps only
  their outcomes and the refs they fill.
- Every handler runs as one atomic step. The `await`s in `startSession` and
  `onmessage` are not interleaved with other events.
- Resource refs are booleans. Calling `startSession` again while connecting
  overwrites the refs without closing the earlier contexts. That leak is not
  visible in the model, and neither is an input context left open when the
  output `AudioContext` constructor throws.
- Samples that are NaN or infinite are not modelled. Samples are reals.
- Typed arrays are taken to use little-endian byte order, the order of every
  platform the page runs on.
- The largest channel count and the sample-rate range `createBuffer` accepts
  depend on the browser. The model fixes them at 32 channels and
  3000-768000 Hz. The only call passes 24000 Hz and one channel.
- When the frame count is not whole, the loop in `decodeAudioData` runs one
  extra iteration. That iteration writes past the channel array, which a
  typed array ignores. The model uses the truncated frame count.
- `Codec.Decode` and `Codec.DecodeAudioData` do not state that the arrays they
  return are freshly allocated. Nothing in the model writes to those arrays
  afterwards.
- Every message and callback is taken to belong to the current session; the
  model has no session identity. Because `cleanup` never closes the remote
  session, a superseded session can still deliver events after a later
  `startSession`. A late audio chunk then passes the output-context check, but
  in the browser `source.connect(outputNode)` throws InvalidAccessError,
  because the node belongs to the new context and the gain node to the old
  one. So that chunk is never started or added, the catch-up of the cursor
  stays, and its interruption flag is not acted on. `OnMessage` instead
  schedules it. A late `onclose` or `onerror` from the old session also tears
  down the new one; the model allows this as well.
