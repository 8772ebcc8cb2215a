/**
 * The stop handshake of the filewriter example: one writer goroutine, which appends a line
 * on every tick, and any number of callers of `Stop`. A caller first hands the writer a
 * fresh rejoin channel over the unbuffered stop channel, within five seconds, and then
 * receives on that channel, within two. Time is in milliseconds, and timers are urgent:
 * time does not pass the deadline of a caller that still waits.
 */
module Filewriter {
  import opened Wrappers

  const STOP_TIMEOUT: nat := 5000
  const REJOIN_TIMEOUT: nat := 2000
  const TICK: nat := 5000

  datatype Outcome = Nil | DidNotRespond | DidNotStop

  /** A call of `Stop`. `called` is when it was made, `since` when its present select began. */
  datatype Caller =
    | Offering(called: nat, since: nat)
    | Rejoining(called: nat, since: nat)
    | Returned(called: nat, at: nat, outcome: Outcome)

  /** `updateFileLoop`; a caller is known by its number. */
  datatype Writer =
    | Looping(nextTick: nat)
    | Handing(caller: nat)   // has received a rejoin channel; blocked until its caller receives
    | Finished               // has returned; the deferred calls have closed the file

  datatype State = State(now: nat, writer: Writer, callers: map<nat, Caller>, lines: nat)

  datatype Event =
    | Call(id: nat)
    | WriteLine               // a tick is taken and a line appended
    | StopRendezvous(id: nat)
    | RejoinRendezvous(id: nat)
    | StopTimesOut(id: nat)
    | RejoinTimesOut(id: nat)
    | Wait(ms: nat)

  predicate InState(s: State, id: nat, rejoining: bool) {
    id in s.callers && (if rejoining then s.callers[id].Rejoining? else s.callers[id].Offering?)
  }

  function Deadline(c: Caller): nat
    requires !c.Returned?
  {
    c.since + if c.Offering? then STOP_TIMEOUT else REJOIN_TIMEOUT
  }

  predicate Enabled(s: State, e: Event) {
    match e
    case Call(id) => id !in s.callers
    case WriteLine => s.writer.Looping? && s.writer.nextTick <= s.now
    case StopRendezvous(id) => s.writer.Looping? && InState(s, id, false)
    case RejoinRendezvous(id) => s.writer == Handing(id) && InState(s, id, true)
    case StopTimesOut(id) => InState(s, id, false) && Deadline(s.callers[id]) <= s.now
    case RejoinTimesOut(id) => InState(s, id, true) && Deadline(s.callers[id]) <= s.now
    case Wait(ms) => forall id :: id in s.callers && !s.callers[id].Returned? ==> s.now + ms <= Deadline(s.callers[id])
  }

  function Next(s: State, e: Event): State
    requires Enabled(s, e)
  {
    match e
    case Call(id) => s.(callers := s.callers[id := Offering(s.now, s.now)])
    case WriteLine =>
      // A ticker drops ticks that nobody takes and keeps to its grid.
      s.(lines := s.lines + 1, writer := Looping(s.writer.nextTick + ((s.now - s.writer.nextTick) / TICK + 1) * TICK))
    case StopRendezvous(id) =>
      s.(writer := Handing(id), callers := s.callers[id := Rejoining(s.callers[id].called, s.now)])
    case RejoinRendezvous(id) =>
      s.(writer := Finished, callers := s.callers[id := Returned(s.callers[id].called, s.now, Nil)])
    case StopTimesOut(id) =>
      s.(callers := s.callers[id := Returned(s.callers[id].called, s.now, DidNotRespond)])
    case RejoinTimesOut(id) =>
      s.(callers := s.callers[id := Returned(s.callers[id].called, s.now, DidNotStop)])
    case Wait(ms) => s.(now := s.now + ms)
  }

  /** `Start` has just launched the writer. */
  predicate Initial(s: State) {
    s.writer == Looping(s.now + TICK) && s.callers == map[]
  }

  /** The state after the events, or `None` when they are not a run. */
  function Run(s: State, events: seq<Event>): Option<State> {
    if events == [] then Some(s)
    else
      var before, e := Run(s, events[..|events| - 1]), events[|events| - 1];
      if before.Some? && Enabled(before.value, e) then Some(Next(before.value, e)) else None
  }

  // ----- what the history of a run says about its state -----

  /** Where each caller is, by which of its rendezvous have happened. */
  ghost predicate CallerMatches(t: State, events: seq<Event>, id: nat) {
    && (StopRendezvous(id) in events <==>
          id in t.callers && (t.callers[id].Rejoining? ||
                              (t.callers[id].Returned? && t.callers[id].outcome != DidNotRespond)))
    && (RejoinRendezvous(id) in events <==>
          id in t.callers && t.callers[id].Returned? && t.callers[id].outcome == Nil)
  }

  /** Where the writer is, by the same. */
  ghost predicate WriterMatches(t: State, events: seq<Event>) {
    && (t.writer.Looping? <==> forall id :: StopRendezvous(id) !in events)
    && (t.writer.Finished? <==> exists id :: RejoinRendezvous(id) in events)
    && (forall id :: t.writer == Handing(id) ==> StopRendezvous(id) in events)
    && (forall id, id' :: StopRendezvous(id) in events && StopRendezvous(id') in events ==> id == id')
  }

  /** No caller waits past its deadline, and none that returned did. */
  predicate Timely(t: State, c: Caller) {
    match c
    case Offering(called, since) => called == since <= t.now <= called + STOP_TIMEOUT
    case Rejoining(called, since) =>
      called <= since <= called + STOP_TIMEOUT && since <= t.now <= since + REJOIN_TIMEOUT
    case Returned(called, at, outcome) =>
      && called <= at <= t.now && at <= called + STOP_TIMEOUT + REJOIN_TIMEOUT
      && (outcome == DidNotRespond ==> at == called + STOP_TIMEOUT)
      && (outcome == DidNotStop ==> at >= called + REJOIN_TIMEOUT)
  }

  ghost predicate Inv(t: State, events: seq<Event>) {
    && (forall id :: CallerMatches(t, events, id))
    && WriterMatches(t, events)
    && (forall id :: id in t.callers ==> Timely(t, t.callers[id]))
  }

  lemma StepKeepsTimely(t: State, e: Event)
    requires Enabled(t, e)
    requires forall id :: id in t.callers ==> Timely(t, t.callers[id])
    ensures forall id :: id in Next(t, e).callers ==> Timely(Next(t, e), Next(t, e).callers[id])
  {
  }

  lemma StepKeepsCallers(t: State, events: seq<Event>, e: Event, id: nat)
    requires Inv(t, events) && Enabled(t, e)
    ensures CallerMatches(Next(t, e), events + [e], id)
  {
    assert CallerMatches(t, events, id);
  }

  lemma StepKeepsWriter(t: State, events: seq<Event>, e: Event)
    requires Inv(t, events) && Enabled(t, e)
    ensures WriterMatches(Next(t, e), events + [e])
  {
    assert forall x: Event :: x in events + [e] <==> x in events || x == e;
    if e.RejoinRendezvous? {
      assert RejoinRendezvous(e.id) in events + [e];
    } else if e.StopRendezvous? {
      assert StopRendezvous(e.id) in events + [e];
    }
  }

  lemma {:induction false} RunKeepsInv(s: State, events: seq<Event>)
    requires Initial(s) && Run(s, events).Some?
    ensures Inv(Run(s, events).value, events)
  {
    if events != [] {
      var done, e := events[..|events| - 1], events[|events| - 1];
      RunKeepsInv(s, done);
      var t := Run(s, done).value;
      StepKeepsTimely(t, e);
      forall id ensures CallerMatches(Next(t, e), done + [e], id) {
        StepKeepsCallers(t, done, e, id);
      }
      StepKeepsWriter(t, done, e);
      assert events == done + [e];
    }
  }

  lemma {:induction false} RunPrefix(s: State, events: seq<Event>, n: nat)
    requires Run(s, events).Some? && n <= |events|
    ensures Run(s, events[..n]).Some?
    decreases |events|
  {
    if n < |events| {
      var done := events[..|events| - 1];
      RunPrefix(s, done, n);
      assert done[..n] == events[..n];
    } else {
      assert events[..n] == events;
    }
  }

  /** An event of a run was enabled when it happened. */
  lemma EventWasEnabled(s: State, events: seq<Event>, n: nat)
    requires Run(s, events).Some? && n < |events|
    ensures Run(s, events[..n]).Some? && Enabled(Run(s, events[..n]).value, events[n])
  {
    RunPrefix(s, events, n + 1);
    RunPrefix(s, events, n);
    assert events[..n + 1][..n] == events[..n];
  }

  // ----- main results -----

  /**
   * Once any caller has handed over its rejoin channel, no line is written any more and no
   * other caller gets through, whatever that caller returns.
   */
  lemma NoWriteAfterHandover(s: State, events: seq<Event>, i: nat, j: nat)
    requires Initial(s) && Run(s, events).Some? && i < j < |events| && events[i].StopRendezvous?
    ensures events[j] != WriteLine && !events[j].StopRendezvous?
  {
    EventWasEnabled(s, events, j);
    RunKeepsInv(s, events[..j]);
    assert events[..j][i] == StopRendezvous(events[i].id);
  }

  /** Of any number of callers, at most one returns nil. */
  lemma AtMostOneStops(s: State, events: seq<Event>, id: nat, id': nat)
    requires Initial(s) && Run(s, events).Some?
    requires var t := Run(s, events).value;
             && id in t.callers && t.callers[id].Returned? && t.callers[id].outcome == Nil
             && id' in t.callers && t.callers[id'].Returned? && t.callers[id'].outcome == Nil
    ensures id == id'
  {
    RunKeepsInv(s, events);
    var t := Run(s, events).value;
    assert CallerMatches(t, events, id) && CallerMatches(t, events, id');
  }

  /**
   * A caller that has returned got nil exactly when both its rendezvous happened, the
   * rejoin error exactly when only the first did, and the stop error exactly when neither
   * did. The file is closed exactly when somebody got nil.
   */
  lemma OutcomesAreExact(s: State, events: seq<Event>, id: nat)
    requires Initial(s) && Run(s, events).Some?
    requires id in Run(s, events).value.callers && Run(s, events).value.callers[id].Returned?
    ensures var t := Run(s, events).value;
            var outcome := t.callers[id].outcome;
            && (outcome == Nil <==> StopRendezvous(id) in events && RejoinRendezvous(id) in events)
            && (outcome == DidNotStop <==> StopRendezvous(id) in events && RejoinRendezvous(id) !in events)
            && (outcome == DidNotRespond <==> StopRendezvous(id) !in events)
            && (t.writer.Finished? <==> exists x :: RejoinRendezvous(x) in events)
            && (outcome == DidNotStop ==> t.writer == Handing(id))
  {
    RunKeepsInv(s, events);
    var t := Run(s, events).value;
    assert CallerMatches(t, events, id);
    forall x | RejoinRendezvous(x) in events ensures StopRendezvous(x) in events {
      assert CallerMatches(t, events, x);
    }
  }

  /** After a rejoin that timed out the writer can never move again: it holds the file open and writes nothing. */
  lemma TimedOutRejoinBlocksTheWriter(s: State, events: seq<Event>, id: nat, e: Event)
    requires Initial(s) && Run(s, events).Some?
    requires id in Run(s, events).value.callers
    requires Run(s, events).value.callers[id].Returned? && Run(s, events).value.callers[id].outcome == DidNotStop
    requires Enabled(Run(s, events).value, e)
    ensures Next(Run(s, events).value, e).writer == Handing(id)
    ensures Next(Run(s, events).value, e).lines == Run(s, events).value.lines
  {
    OutcomesAreExact(s, events, id);
  }

  /** Every call of `Stop` returns within seven seconds, and none is still waiting after that. */
  lemma StopReturnsInTime(s: State, events: seq<Event>, id: nat)
    requires Initial(s) && Run(s, events).Some? && id in Run(s, events).value.callers
    ensures var t := Run(s, events).value;
            var c := t.callers[id];
            && (c.Returned? ==> c.at - c.called <= 7000)
            && (c.Returned? && c.outcome == DidNotRespond ==> c.at - c.called == 5000)
            && (c.Returned? && c.outcome == DidNotStop ==> c.at - c.called >= 2000)
            && (t.now > c.called + 7000 ==> c.Returned?)
  {
    RunKeepsInv(s, events);
  }

  /** Time is never stuck: when it may not pass, a caller's timer has fired and can be taken. */
  lemma TimeIsNeverStuck(s: State, events: seq<Event>)
    requires Initial(s) && Run(s, events).Some?
    ensures var t := Run(s, events).value;
            Enabled(t, Wait(1)) || exists id :: Enabled(t, StopTimesOut(id)) || Enabled(t, RejoinTimesOut(id))
  {
    var t := Run(s, events).value;
    if !Enabled(t, Wait(1)) {
      var id :| id in t.callers && !t.callers[id].Returned? && t.now + 1 > Deadline(t.callers[id]);
      assert Enabled(t, StopTimesOut(id)) || Enabled(t, RejoinTimesOut(id));
    }
  }

  /** The ticker keeps to its grid, and no grid point gives more than one line. */
  ghost predicate OnGrid(s: State, t: State) {
    && s.now <= t.now && s.lines <= t.lines
    && (t.lines - s.lines) * TICK <= t.now - s.now
    && (t.writer.Looping? ==>
          && s.now < t.writer.nextTick && (t.writer.nextTick - s.now) % TICK == 0
          && (t.lines - s.lines + 1) * TICK <= t.writer.nextTick - s.now)
  }

  lemma {:induction false} RunKeepsGrid(s: State, events: seq<Event>)
    requires Initial(s) && Run(s, events).Some?
    ensures OnGrid(s, Run(s, events).value)
  {
    if events != [] {
      RunKeepsGrid(s, events[..|events| - 1]);
      var t, e := Run(s, events[..|events| - 1]).value, events[|events| - 1];
      if e.WriteLine? {
        NextGridPoint(t.writer.nextTick - s.now, t.now - s.now);
      }
    }
  }

  lemma NextGridPoint(due: int, now: int)
    requires 0 < due <= now && due % TICK == 0
    ensures var next := due + ((now - due) / TICK + 1) * TICK;
            next % TICK == 0 && now < next && due + TICK <= next <= now + TICK
  {
  }

  /** Every line comes from a tick of its own: as many lines as writes, and at most one in five seconds. */
  lemma {:induction false} LinesFollowTheTicker(s: State, events: seq<Event>)
    requires Initial(s) && Run(s, events).Some?
    ensures var t := Run(s, events).value;
            && t.lines == s.lines + multiset(events)[WriteLine]
            && t.lines - s.lines <= (t.now - s.now) / 5000
  {
    RunKeepsGrid(s, events);
    if events != [] {
      LinesFollowTheTicker(s, events[..|events| - 1]);
      assert events == events[..|events| - 1] + [events[|events| - 1]];
    }
  }

  /** A call counts from the moment it was made, whatever happens to it later. */
  lemma {:induction false} CalledWhenItWas(s: State, events: seq<Event>, i: nat, id: nat)
    requires Initial(s) && Run(s, events).Some? && i < |events| && events[i] == Call(id)
    ensures Run(s, events[..i]).Some? && id in Run(s, events).value.callers
    ensures Run(s, events).value.callers[id].called == Run(s, events[..i]).value.now
    decreases |events|
  {
    var done := events[..|events| - 1];
    assert events == done + [events[|events| - 1]];
    if i < |done| {
      CalledWhenItWas(s, done, i, id);
      assert done[..i] == events[..i];
    } else {
      assert done == events[..i];
    }
  }

  // ----- what can happen -----

  lemma {:induction false} RunsCompose(s: State, first: seq<Event>, second: seq<Event>)
    requires Run(s, first).Some?
    ensures Run(s, first + second) == Run(Run(s, first).value, second)
    decreases |second|
  {
    if second == [] {
      assert first + second == first;
    } else {
      RunsCompose(s, first, second[..|second| - 1]);
      assert (first + second)[..|first + second| - 1] == first + second[..|second| - 1];
    }
  }

  lemma Extend(s: State, events: seq<Event>, e: Event, longer: seq<Event>)
    requires Run(s, events).Some? && Enabled(Run(s, events).value, e) && longer == events + [e]
    ensures Run(s, longer) == Some(Next(Run(s, events).value, e))
  {
    assert longer[..|events|] == events;
  }

  /**
   * The writer answers whenever it is free: at any moment of any run before the first handover,
   * a new call can get through both rendezvous at once and return nil, with the file closed.
   */
  lemma StopCanSucceed(s: State, events: seq<Event>, id: nat)
    requires Initial(s) && Run(s, events).Some? && id !in Run(s, events).value.callers
    requires forall x: nat :: StopRendezvous(x) !in events
    ensures var t, more := Run(s, events).value, [Call(id), StopRendezvous(id), RejoinRendezvous(id)];
            Run(s, events + more) ==
            Some(t.(writer := Finished, callers := t.callers[id := Returned(t.now, t.now, Nil)]))
  {
    RunKeepsInv(s, events);
    var t := Run(s, events).value;
    RunsCompose(s, events, [Call(id), StopRendezvous(id), RejoinRendezvous(id)]);
    Extend(t, [], Call(id), [Call(id)]);
    Extend(t, [Call(id)], StopRendezvous(id), [Call(id), StopRendezvous(id)]);
    Extend(t, [Call(id), StopRendezvous(id)], RejoinRendezvous(id), [Call(id), StopRendezvous(id), RejoinRendezvous(id)]);
    assert t.callers[id := Offering(t.now, t.now)][id := Rejoining(t.now, t.now)][id := Returned(t.now, t.now, Nil)]
        == t.callers[id := Returned(t.now, t.now, Nil)];
  }

  /**
   * A rendezvous is possible exactly when history says so: the first one with a caller that
   * waits while nobody has handed over, the second one with the caller that has.
   */
  lemma RendezvousAreExact(s: State, events: seq<Event>, id: nat)
    requires Initial(s) && Run(s, events).Some? && id in Run(s, events).value.callers
    requires !Run(s, events).value.callers[id].Returned?
    ensures var t := Run(s, events).value;
            && (Enabled(t, StopRendezvous(id)) <==> forall x: nat :: StopRendezvous(x) !in events)
            && (Enabled(t, RejoinRendezvous(id)) <==> StopRendezvous(id) in events)
  {
    RunKeepsInv(s, events);
    var t := Run(s, events).value;
    assert CallerMatches(t, events, id);
    forall x: nat | StopRendezvous(id) in events && RejoinRendezvous(x) in events ensures x == id {
      assert CallerMatches(t, events, x);
    }
  }

  lemma RunNothing(s: State)
    ensures Run(s, []) == Some(s)
  {
  }

  /** The ticker does its work: after five seconds a line can be written. */
  lemma LinesAreWritten(s: State)
    requires Initial(s)
    ensures Run(s, [Wait(5000), WriteLine]) ==
            Some(s.(now := s.now + 5000, lines := s.lines + 1, writer := Looping(s.now + 10000)))
  {
    hide Run, Enabled, Next;
    RunNothing(s);
    NobodyMindsWaiting(s);
    TickOnTime(s.(now := s.now + 5000));
    Extend(s, [], Wait(5000), [Wait(5000)]);
    Extend(s, [Wait(5000)], WriteLine, [Wait(5000), WriteLine]);
  }

  lemma NobodyMindsWaiting(s: State)
    requires s.callers == map[]
    ensures Enabled(s, Wait(5000)) && Next(s, Wait(5000)) == s.(now := s.now + 5000)
  {
  }

  lemma TickOnTime(t: State)
    requires t.writer == Looping(t.now)
    ensures Enabled(t, WriteLine)
    ensures Next(t, WriteLine) == t.(lines := t.lines + 1, writer := Looping(t.now + 5000))
  {
    assert (t.now - t.writer.nextTick) / TICK == 0;
  }

  /** Both errors can be returned: by a caller that nobody takes ... */
  lemma StopCanTimeOut(s: State, id: nat)
    requires Initial(s)
    ensures Run(s, [Call(id), Wait(5000), StopTimesOut(id)]) ==
            Some(s.(now := s.now + 5000, callers := map[id := Returned(s.now, s.now + 5000, DidNotRespond)]))
  {
    hide Run;
    RunNothing(s);
    Extend(s, [], Call(id), [Call(id)]);
    Extend(s, [Call(id)], Wait(5000), [Call(id), Wait(5000)]);
    Extend(s, [Call(id), Wait(5000)], StopTimesOut(id), [Call(id), Wait(5000), StopTimesOut(id)]);
    var last := Returned(s.now, s.now + 5000, DidNotRespond);
    assert s.callers[id := Offering(s.now, s.now)][id := last] == map[id := last];
  }

  /** ... and by one whose rejoin comes too late. */
  lemma RejoinCanTimeOut(s: State, id: nat)
    requires Initial(s)
    ensures Run(s, [Call(id), StopRendezvous(id), Wait(2000), RejoinTimesOut(id)]) ==
            Some(s.(now := s.now + 2000, writer := Handing(id),
                    callers := map[id := Returned(s.now, s.now + 2000, DidNotStop)]))
  {
    hide Run;
    RunNothing(s);
    Extend(s, [], Call(id), [Call(id)]);
    Extend(s, [Call(id)], StopRendezvous(id), [Call(id), StopRendezvous(id)]);
    Extend(s, [Call(id), StopRendezvous(id)], Wait(2000), [Call(id), StopRendezvous(id), Wait(2000)]);
    Extend(s, [Call(id), StopRendezvous(id), Wait(2000)], RejoinTimesOut(id),
           [Call(id), StopRendezvous(id), Wait(2000), RejoinTimesOut(id)]);
    var last := Returned(s.now, s.now + 2000, DidNotStop);
    assert s.callers[id := Offering(s.now, s.now)][id := Rejoining(s.now, s.now)][id := last] == map[id := last];
  }
}
