/** Playback of the assistant's audio: the cursor `nextStartTimeRef`, the set
    of active sources `sourcesRef`, and the three things that change them — an
    audio chunk, a source's `ended` event and an interruption. */
module Playback {

  /** A time on the output context's clock (`currentTime`), in seconds. */
  type Time = r: real | r >= 0.0

  /** The length of a decoded chunk (`AudioBuffer.duration`), in seconds. */
  type Duration = r: real | r >= 0.0

  function Max(a: Time, b: Time): (m: Time)
  {
    if a >= b then a else b
  }

  /** The scheduler's state: the cursor and the ids of the active sources. */
  datatype Sched = Sched(cursor: Time, active: set<nat>)

  const Initial: Sched := Sched(0.0, {})

  /** Line 140: the cursor catches up with the clock. */
  function CaughtUp(s: Sched, now: Time): (s': Sched)
  {
    s.(cursor := Max(s.cursor, now))
  }

  /** Lines 157-159: the new source starts at the cursor, the cursor moves to
      its end, and the source joins the active set. */
  function Scheduled(s: Sched, id: nat, d: Duration): (s': Sched)
  {
    Sched(s.cursor + d, s.active + {id})
  }

  /** A whole audio chunk (lines 140-159). */
  function Enqueued(s: Sched, id: nat, now: Time, d: Duration): (s': Sched)
  {
    Scheduled(CaughtUp(s, now), id, d)
  }

  /** The time at which a chunk arriving at `now` starts playing. */
  function StartOf(s: Sched, now: Time): (t: Time)
  {
    Max(s.cursor, now)
  }

  /** Lines 153-155: a source's `ended` event deletes it from the set. */
  function Ended(s: Sched, id: nat): (s': Sched)
  {
    s.(active := s.active - {id})
  }

  /** Lines 162-167: every source is stopped, the set is cleared and the
      cursor goes back to 0. */
  function Interrupted(s: Sched): (s': Sched)
  {
    Sched(0.0, {})
  }

  /** One chunk starts at `max(cursor, now)`, exactly at the cursor when the
      clock has not passed it; afterwards the cursor is its end and the set has
      gained that source and nothing else. */
  lemma EnqueueSchedules(s: Sched, id: nat, now: Time, d: Duration)
    ensures StartOf(s, now) >= s.cursor && StartOf(s, now) >= now
    ensures StartOf(s, now) == s.cursor || StartOf(s, now) == now
    ensures now <= s.cursor ==> StartOf(s, now) == s.cursor
    ensures Enqueued(s, id, now, d).cursor == StartOf(s, now) + d
    ensures id in Enqueued(s, id, now, d).active
    ensures forall x :: x != id ==> (x in Enqueued(s, id, now, d).active <==> x in s.active)
  {
  }

  /** After an interruption the next chunk starts at the clock, not at the
      cursor from before the interruption. */
  lemma InterruptRestartsAtNow(s: Sched, id: nat, now: Time, d: Duration)
    ensures Interrupted(s).active == {} && Interrupted(s).cursor == 0.0
    ensures StartOf(Interrupted(s), now) == now
    ensures Enqueued(Interrupted(s), id, now, d) == Sched(now + d, {id})
  {
  }

  /** A natural end removes only that source and leaves the cursor alone;
      removing a source twice, or after an interruption cleared it, changes
      nothing. */
  lemma EndIsHarmless(s: Sched, id: nat)
    ensures Ended(s, id).cursor == s.cursor
    ensures Ended(s, id).active == s.active - {id}
    ensures Ended(Ended(s, id), id) == Ended(s, id)
    ensures id !in s.active ==> Ended(s, id) == s
    ensures Ended(Interrupted(s), id) == Interrupted(s)
  {
  }

  /** A catch-up left behind by a chunk that then failed to decode does not
      change where any later chunk starts, because the clock does not go back. */
  lemma CatchUpIsAbsorbed(s: Sched, id: nat, now: Time, later: Time, d: Duration)
    requires now <= later
    ensures Enqueued(CaughtUp(s, now), id, later, d) == Enqueued(s, id, later, d)
  {
  }

  // ------------------------------------------------------- runs of chunks

  /** An audio chunk as the scheduler sees it: its source, the clock when it
      is scheduled, and its duration. */
  datatype Chunk = Chunk(id: nat, arrival: Time, duration: Duration)

  /** The state after a run of chunks with no interruption between them. */
  function AfterChunks(s: Sched, cs: seq<Chunk>): (s': Sched)
    decreases |cs|
  {
    if cs == [] then s
    else AfterChunks(Enqueued(s, cs[0].id, cs[0].arrival, cs[0].duration), cs[1..])
  }

  /** The start time of each chunk of such a run. */
  function Starts(s: Sched, cs: seq<Chunk>): (ts: seq<Time>)
    ensures |ts| == |cs|
    decreases |cs|
  {
    if cs == [] then []
    else [StartOf(s, cs[0].arrival)]
         + Starts(Enqueued(s, cs[0].id, cs[0].arrival, cs[0].duration), cs[1..])
  }

  /** Gapless, in arrival order: each chunk starts no earlier than the end of
      the one before, and exactly there when it arrived before that end. */
  lemma {:induction false} Gapless(s: Sched, cs: seq<Chunk>, k: nat)
    requires k + 1 < |cs|
    ensures Starts(s, cs)[k + 1] >= Starts(s, cs)[k] + cs[k].duration
    ensures cs[k + 1].arrival <= Starts(s, cs)[k] + cs[k].duration ==>
              Starts(s, cs)[k + 1] == Starts(s, cs)[k] + cs[k].duration
    decreases k
  {
    var c := cs[0];
    var s' := Enqueued(s, c.id, c.arrival, c.duration);
    assert Starts(s, cs)[1..] == Starts(s', cs[1..]);
    if k > 0 {
      Gapless(s', cs[1..], k - 1);
    }
  }

  /** Chunks start in the order they arrived. */
  lemma {:induction false} StartsInOrder(s: Sched, cs: seq<Chunk>, i: nat, j: nat)
    requires i <= j < |cs|
    ensures Starts(s, cs)[i] <= Starts(s, cs)[j]
    decreases j - i
  {
    if i < j {
      Gapless(s, cs, i);
      StartsInOrder(s, cs, i + 1, j);
    }
  }

  /** After a run the cursor is the end of the last chunk, never before where
      it was, and the active set has gained exactly the run's sources. */
  lemma {:induction false} CursorAfterChunks(s: Sched, cs: seq<Chunk>)
    ensures AfterChunks(s, cs).cursor >= s.cursor
    ensures cs != [] ==> AfterChunks(s, cs).cursor == Starts(s, cs)[|cs| - 1] + cs[|cs| - 1].duration
    ensures AfterChunks(s, cs).active == s.active + set c | c in cs :: c.id
    decreases |cs|
  {
    if cs != [] {
      var c := cs[0];
      var s' := Enqueued(s, c.id, c.arrival, c.duration);
      CursorAfterChunks(s', cs[1..]);
      assert Starts(s, cs)[1..] == Starts(s', cs[1..]);
      assert (set c | c in cs :: c.id) == {c.id} + set c | c in cs[1..] :: c.id by {
        assert cs == [c] + cs[1..];
      }
    }
  }

  /** Two chunks of 0.5 s and 0.3 s arriving at time 0 start at 0 and 0.5; the
      cursor ends at 0.8. */
  lemma TwoChunkScenario()
    ensures var cs := [Chunk(0, 0.0, 0.5), Chunk(1, 0.0, 0.3)];
      Starts(Initial, cs) == [0.0, 0.5] && AfterChunks(Initial, cs) == Sched(0.8, {0, 1})
  {
  }

  // ------------------------------------------------------- the mutable state

  /** The scheduler's refs. Source nodes are named by ids drawn from a
      counter, so every `createBufferSource` gives a new one. */
  class Scheduler {
    var nextStartTime: Time
    var sources: set<nat>
    var stopped: set<nat>
    var nextId: nat

    /** No source is both active and stopped, and every id was handed out. */
    ghost predicate Valid()
      reads this
    {
      sources !! stopped &&
      (forall s :: s in sources ==> s < nextId) &&
      (forall s :: s in stopped ==> s < nextId)
    }

    function State(): (s: Sched)
      reads this
    {
      Sched(nextStartTime, sources)
    }

    constructor ()
      ensures Valid() && State() == Initial && stopped == {}
    {
      nextStartTime, sources, stopped, nextId := 0.0, {}, {}, 0;
    }

    /** `nextStartTimeRef.current = Math.max(nextStartTimeRef.current, now)`. */
    method CatchUp(now: Time)
      requires Valid()
      modifies this
      ensures Valid() && State() == CaughtUp(old(State()), now)
      ensures stopped == old(stopped) && nextId == old(nextId)
    {
      nextStartTime := Max(nextStartTime, now);
    }

    /** A new source node is started at the cursor, the cursor advances by its
        duration, and the node is added to the set. */
    method Start(duration: Duration) returns (id: nat, start: Time)
      requires Valid()
      modifies this
      ensures Valid() && State() == Scheduled(old(State()), id, duration)
      ensures start == old(nextStartTime)
      ensures id == old(nextId) && id !in old(sources) && id !in old(stopped)
      ensures stopped == old(stopped) && nextId == old(nextId) + 1
    {
      id := nextId;
      nextId := nextId + 1;
      start := nextStartTime;
      nextStartTime := nextStartTime + duration;
      sources := sources + {id};
    }

    /** The `ended` listener: `sourcesRef.current.delete(source)`. */
    method End(id: nat)
      requires Valid()
      modifies this
      ensures Valid() && State() == Ended(old(State()), id)
      ensures stopped == old(stopped) && nextId == old(nextId)
    {
      sources := sources - {id};
    }

    /** `forEach(s => s.stop())`, `clear()`, cursor back to 0. */
    method StopAll()
      requires Valid()
      modifies this
      ensures Valid() && State() == Interrupted(old(State()))
      ensures stopped == old(stopped) + old(sources) && nextId == old(nextId)
    {
      var pending := sources;
      while pending != {}
        invariant pending <= sources && sources == old(sources)
        invariant stopped == old(stopped) + (sources - pending)
        invariant nextId == old(nextId)
        invariant forall s :: s in stopped ==> s < nextId
        decreases pending
      {
        var s :| s in pending;
        stopped := stopped + {s};
        pending := pending - {s};
      }
      sources := {};
      nextStartTime := 0.0;
    }
  }
}
