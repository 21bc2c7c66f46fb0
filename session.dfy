/** The live-conversation component's session lifecycle: `status`, `isActive`,
    the resource refs, `cleanup`, `startSession` and the session callbacks
    `onopen`, `onmessage`, `onclose` and `onerror`. */
module Session {
  import opened Wrappers
  import opened Base64
  import opened Codec
  import opened Playback

  datatype Status = Idle | Connecting | Connected | Error

  /** How far `startSession`'s try block gets: to its end, or a constructor
      (the API client or an AudioContext) throws, or the microphone request
      is refused. */
  datatype StartOutcome = Proceeds | SetupThrows | MicrophoneDenied

  /** A server message: the first part's inline audio data, if any, and the
      `interrupted` flag. */
  datatype Message = Message(audio: Option<string>, interrupted: bool)

  /** Line 136 tests the payload for truthiness: absent and empty are alike. */
  predicate HasAudio(m: Message)
  {
    m.audio.Some? && m.audio.value != ""
  }

  /** The playback sample rate passed to `decodeAudioData`. */
  const OutputRate: nat := 24000

  /** The duration of a payload decoded as 24 kHz mono; None when `decode` or
      `decodeAudioData` throws (bad base64, an odd byte count, no frames). */
  function ChunkDuration(base64: string): (r: Option<Duration>)
    ensures r.Some? ==> r.value > 0.0
  {
    match Atob(base64)
    case None => None
    case Some(bin) =>
      if |bin| % 2 != 0 || |bin| / 2 == 0 then None
      else Some((|bin| / 2) as real / OutputRate as real)
  }

  /** What `onmessage` does to the scheduler. A payload with no output
      context returns before the interrupt check; a payload that fails to
      decode leaves the catch-up of line 140 behind and skips the interrupt
      check; otherwise the chunk is scheduled and an interruption, if
      flagged, then clears everything. */
  function Handled(s: Sched, outputOpen: bool, m: Message, id: nat, now: Time): (s': Sched)
  {
    if HasAudio(m) then
      if !outputOpen then s
      else match ChunkDuration(m.audio.value)
        case None => CaughtUp(s, now)
        case Some(d) =>
          var t := Enqueued(s, id, now, d);
          if m.interrupted then Interrupted(t) else t
    else if m.interrupted then Interrupted(s)
    else s
  }

  /** Whether `onmessage` creates and starts a source node. */
  predicate Schedules(outputOpen: bool, m: Message)
  {
    HasAudio(m) && outputOpen && ChunkDuration(m.audio.value).Some?
  }

  /** A message without audio, or with audio but no output context, leaves
      the cursor and the set as they were unless it is an interruption (and,
      with no output context, even then). */
  lemma QuietMessagesChangeNothing(s: Sched, outputOpen: bool, m: Message, id: nat, now: Time)
    ensures !HasAudio(m) && !m.interrupted ==> Handled(s, outputOpen, m, id, now) == s
    ensures HasAudio(m) && !outputOpen ==> Handled(s, outputOpen, m, id, now) == s
  {
  }

  /** An interruption that is reached clears the set and zeroes the cursor,
      so the next chunk starts at the clock. */
  lemma InterruptionClears(s: Sched, outputOpen: bool, m: Message, id: nat, now: Time,
                           id': nat, later: Time, d: Duration)
    requires m.interrupted && (!HasAudio(m) || Schedules(outputOpen, m))
    ensures Handled(s, outputOpen, m, id, now) == Initial
    ensures StartOf(Handled(s, outputOpen, m, id, now), later) == later
  {
  }

  /** A decodable audio message without interruption is one scheduler
      enqueue: it starts at max(cursor, now) and moves the cursor to its end. */
  lemma AudioMessageEnqueues(s: Sched, m: Message, id: nat, now: Time)
    requires Schedules(true, m) && !m.interrupted
    ensures Handled(s, true, m, id, now)
      == Enqueued(s, id, now, ChunkDuration(m.audio.value).value)
    ensures Handled(s, true, m, id, now).cursor
      == StartOf(s, now) + ChunkDuration(m.audio.value).value
  {
  }

  /** Everything the component holds, as one value. */
  datatype View = View(status: Status, isActive: bool, stream: bool, inputContext: bool,
                       outputContext: bool, session: bool, sched: Sched,
                       stopped: set<nat>, nextId: nat)

  /** The state `cleanup` leaves: every ref null, every source stopped, the
      set empty, the cursor 0, not active, idle. */
  function TornDown(v: View): (v': View)
  {
    View(Idle, false, false, false, false, false, Initial, v.stopped + v.sched.active, v.nextId)
  }

  /** Running `cleanup` twice gives the state that running it once does. */
  lemma TornDownIdempotent(v: View)
    ensures TornDown(TornDown(v)) == TornDown(v)
    ensures TornDown(v).sched.active == {} && TornDown(v).sched.cursor == 0.0
    ensures TornDown(v).status == Idle && !TornDown(v).isActive
  {
  }

  class LiveConversation {
    var isActive: bool
    var status: Status
    var session: bool        // sessionRef.current != null
    var inputContext: bool   // inputContextRef.current != null
    var outputContext: bool  // outputContextRef.current != null
    var stream: bool         // streamRef.current != null
    const player: Scheduler  // nextStartTimeRef and sourcesRef
    ghost var statusLog: seq<Status>  // every status set, in order
    ghost var connects: nat           // calls of `ai.live.connect`

    /** Active exactly when connected; the error status never outlasts the
        handler that set it; idle holds nothing. */
    ghost predicate Valid()
      reads this, player
    {
      player.Valid() &&
      (isActive <==> status == Connected) &&
      status != Error &&
      (status == Idle ==> Released())
    }

    predicate Released()
      reads this, player
    {
      !stream && !inputContext && !outputContext && !session && player.State() == Initial
    }

    function Snapshot(): (v: View)
      reads this, player
    {
      View(status, isActive, stream, inputContext, outputContext, session,
           player.State(), player.stopped, player.nextId)
    }

    constructor ()
      ensures Valid() && status == Idle && !isActive && Released()
      ensures fresh(player) && player.stopped == {}
      ensures statusLog == [] && connects == 0
    {
      isActive, status := false, Idle;
      session, inputContext, outputContext, stream := false, false, false, false;
      player := new Scheduler();
      statusLog, connects := [], 0;
    }

    /** `cleanup` (lines 69-88). */
    method Cleanup()
      requires player.Valid()
      modifies this, player
      ensures Valid() && Released() && status == Idle && !isActive
      ensures Snapshot() == TornDown(old(Snapshot()))
      ensures statusLog == old(statusLog) + [Idle] && connects == old(connects)
    {
      stream := false;
      inputContext := false;
      outputContext := false;
      session := false;
      player.StopAll();
      isActive := false;
      status := Idle;
      statusLog := statusLog + [Idle];
    }

    /** `startSession` (lines 90-194). The connect promise is stored but not
        awaited, so its outcome arrives later through the callbacks. */
    method StartSession(outcome: StartOutcome)
      requires Valid() && !isActive
      modifies this, player
      ensures Valid()
      ensures outcome == Proceeds ==>
        status == Connecting && !isActive &&
        stream && inputContext && outputContext && session &&
        player.State() == old(player.State()) &&
        statusLog == old(statusLog) + [Connecting] && connects == old(connects) + 1
      ensures outcome == Proceeds ==>
        player.stopped == old(player.stopped) && player.nextId == old(player.nextId)
      ensures outcome != Proceeds ==>
        status == Idle && !isActive && Released() &&
        statusLog == old(statusLog) + [Connecting, Error, Idle] && connects == old(connects)
      ensures outcome != Proceeds ==> Snapshot() == TornDown(old(Snapshot()))
    {
      status := Connecting;
      statusLog := statusLog + [Connecting];
      if outcome == SetupThrows {
        status := Error;
        statusLog := statusLog + [Error];
        Cleanup();
        return;
      }
      inputContext, outputContext := true, true;
      if outcome == MicrophoneDenied {
        status := Error;
        statusLog := statusLog + [Error];
        Cleanup();
        return;
      }
      stream := true;
      connects := connects + 1;
      session := true;
    }

    /** `onopen`: the only place that makes the session connected and active. */
    method OnOpen()
      requires Valid()
      modifies this
      ensures Valid() && status == Connected && isActive
      ensures statusLog == old(statusLog) + [Connected] && connects == old(connects)
      ensures stream == old(stream) && session == old(session)
      ensures inputContext == old(inputContext) && outputContext == old(outputContext)
    {
      status := Connected;
      statusLog := statusLog + [Connected];
      isActive := true;
    }

    /** `onmessage` (lines 133-168), with `now` the output clock's
        `currentTime`. No active or stopped source is lost: the two sets
        together gain exactly the new source, when one is scheduled. */
    method OnMessage(m: Message, now: Time)
      requires Valid()
      modifies player
      ensures Valid()
      ensures player.State() == Handled(old(player.State()), outputContext, m, old(player.nextId), now)
      ensures player.sources + player.stopped
        == old(player.sources + player.stopped)
           + (if Schedules(outputContext, m) then {old(player.nextId)} else {})
      ensures player.nextId == old(player.nextId) + (if Schedules(outputContext, m) then 1 else 0)
    {
      if HasAudio(m) {
        if !outputContext {
          return;
        }
        player.CatchUp(now);
        var bytes := Decode(m.audio.value);
        if bytes.None? {
          return;
        }
        var buffer := DecodeAudioData(bytes.value, OutputRate, 1);
        if buffer.Failure? {
          return;
        }
        var duration: Duration := buffer.value.Length1 as real / OutputRate as real;
        assert Some(duration) == ChunkDuration(m.audio.value);
        var id, start := player.Start(duration);
      }
      if m.interrupted {
        player.StopAll();
      }
    }

    /** A source's `ended` listener. */
    method OnSourceEnded(id: nat)
      requires Valid()
      modifies player
      ensures Valid() && player.State() == Ended(old(player.State()), id)
      ensures player.stopped == old(player.stopped) && player.nextId == old(player.nextId)
    {
      player.End(id);
    }

    /** `onclose`: cleanup. */
    method OnClose()
      requires Valid()
      modifies this, player
      ensures Valid() && Snapshot() == TornDown(old(Snapshot()))
      ensures statusLog == old(statusLog) + [Idle] && connects == old(connects)
    {
      Cleanup();
    }

    /** `onerror`: the error status is set, then cleanup returns to idle. */
    method OnError()
      requires Valid()
      modifies this, player
      ensures Valid() && Snapshot() == TornDown(old(Snapshot()))
      ensures statusLog == old(statusLog) + [Error, Idle] && connects == old(connects)
    {
      status := Error;
      statusLog := statusLog + [Error];
      Cleanup();
    }

    /** The button: `isActive ? cleanup : startSession`. */
    method Click(outcome: StartOutcome)
      requires Valid()
      modifies this, player
      ensures Valid()
      ensures old(isActive) ==> Snapshot() == TornDown(old(Snapshot()))
      ensures !old(isActive) ==> status == (if outcome == Proceeds then Connecting else Idle)
      ensures old(isActive) ==> connects == old(connects) && statusLog == old(statusLog) + [Idle]
      ensures !old(isActive) ==> connects == old(connects) + (if outcome == Proceeds then 1 else 0)
      ensures !old(isActive) && outcome == Proceeds ==>
        stream && inputContext && outputContext && session &&
        player.State() == old(player.State()) &&
        player.stopped == old(player.stopped) && player.nextId == old(player.nextId) &&
        statusLog == old(statusLog) + [Connecting]
      ensures !old(isActive) && outcome != Proceeds ==>
        Snapshot() == TornDown(old(Snapshot())) &&
        statusLog == old(statusLog) + [Connecting, Error, Idle]
    {
      if isActive {
        Cleanup();
      } else {
        StartSession(outcome);
      }
    }
  }

  /** A whole conversation on a new component: the button starts a session,
      the server opens it and interrupts, and the button stops it. */
  method Conversation() returns (lc: LiveConversation)
    ensures lc.Valid() && lc.status == Idle && !lc.isActive && lc.Released()
    ensures lc.statusLog == [Connecting, Connected, Idle] && lc.connects == 1
  {
    lc := new LiveConversation();
    lc.Click(Proceeds);
    lc.OnOpen();
    lc.OnMessage(Message(None, true), 0.0);
    lc.Click(Proceeds);
  }
}
