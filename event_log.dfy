/**
 * The event log as the aggregates see it, and replay as a fold.
 * The library's own Replay is not part of this model: it is represented by a
 * left fold of an aggregate's step function over the stream of one
 * (aggregate type, aggregate id) selector, in log order. Whether the library
 * stops at the first failing event or goes on is not visible, so the fold
 * takes that as a policy. The services ignore what Replay returns.
 */
module EventLog {
  import opened Wrappers
  import opened Envelopes

  datatype Policy = Continue | Halt

  /** What applying one event (or a history) leaves: the new state and the error returned, if any. */
  datatype Applied<S> = Applied(state: S, err: Option<Error>)

  /** What a command decision leaves: the aggregate's new state, the events to append, the error if any. */
  datatype Decision<S> = Decision(state: S, events: seq<EventEnvelope>, err: Option<Error>)

  /** A refused command: no events, the state as it was, and the error. */
  function Reject<S>(s: S, err: Error): Decision<S> {
    Decision(s, [], Some(err))
  }

  /** What a command service returns to the command loop. */
  datatype Outcome = Outcome(events: seq<EventEnvelope>, err: Option<Error>)

  /** The first error seen wins. */
  function FirstError(a: Option<Error>, b: Option<Error>): Option<Error> {
    if a.Some? then a else b
  }

  /**
   * Replaying `h` from state `s`: each event goes through `step` in order;
   * under Halt nothing after the first failing event is applied.
   */
  function Fold<S>(step: (S, EventEnvelope) -> Applied<S>, s: S, h: seq<EventEnvelope>, policy: Policy): Applied<S>
    decreases |h|
  {
    if h == [] then Applied(s, None)
    else
      var prev := Fold(step, s, h[..|h| - 1], policy);
      if policy == Halt && prev.err.Some? then prev
      else
        var next := step(prev.state, h[|h| - 1]);
        Applied(next.state, FirstError(prev.err, next.err))
  }

  /** Under Halt, once a prefix has failed, the rest of the history changes nothing. */
  lemma {:induction false} HaltedFoldIsStable<S>(step: (S, EventEnvelope) -> Applied<S>, s: S, h: seq<EventEnvelope>, k: nat)
    requires k <= |h|
    requires Fold(step, s, h[..k], Halt).err.Some?
    ensures Fold(step, s, h, Halt) == Fold(step, s, h[..k], Halt)
    decreases |h| - k
  {
    if k < |h| {
      assert h[..k + 1][..k] == h[..k];
      assert Fold(step, s, h[..k + 1], Halt) == Fold(step, s, h[..k], Halt);
      HaltedFoldIsStable(step, s, h, k + 1);
    } else {
      assert h[..k] == h;
    }
  }

  /** Under Continue, replaying a + b is replaying b from the state a leaves. */
  lemma {:induction false} ContinueFoldAppend<S>(step: (S, EventEnvelope) -> Applied<S>, s: S, a: seq<EventEnvelope>, b: seq<EventEnvelope>)
    ensures Fold(step, s, a + b, Continue).state == Fold(step, Fold(step, s, a, Continue).state, b, Continue).state
    decreases |b|
  {
    if b == [] {
      assert a + b == a;
    } else {
      var b' := b[..|b| - 1];
      assert (a + b)[..|a + b| - 1] == a + b';
      assert (a + b)[|a + b| - 1] == b[|b| - 1];
      ContinueFoldAppend(step, s, a, b');
    }
  }

  /** Once a prefix replays without error, the next event is applied to the state it left, under either policy. */
  lemma FoldSnoc<S>(step: (S, EventEnvelope) -> Applied<S>, s: S, h: seq<EventEnvelope>, e: EventEnvelope, policy: Policy)
    requires Fold(step, s, h, policy).err.None?
    ensures Fold(step, s, h + [e], policy) == step(Fold(step, s, h, policy).state, e)
  {
    assert (h + [e])[..|h|] == h;
  }

  /** One more event of h, where the fold has not halted before it. */
  lemma FoldPrefixStep<S>(step: (S, EventEnvelope) -> Applied<S>, s: S, h: seq<EventEnvelope>, i: nat, policy: Policy)
    requires i < |h|
    requires !(policy == Halt && Fold(step, s, h[..i], policy).err.Some?)
    ensures var prev := Fold(step, s, h[..i], policy);
      Fold(step, s, h[..i + 1], policy) == Applied(step(prev.state, h[i]).state, FirstError(prev.err, step(prev.state, h[i]).err))
  {
    assert h[..i + 1][..i] == h[..i];
  }

  /** Under Continue the error returned is the first one any event produced, and the fold never stops early. */
  lemma {:induction false} ContinueFoldErrorFree<S>(step: (S, EventEnvelope) -> Applied<S>, s: S, h: seq<EventEnvelope>)
    requires Fold(step, s, h, Continue).err.None?
    ensures Fold(step, s, h, Halt) == Fold(step, s, h, Continue)
    decreases |h|
  {
    if h != [] {
      ContinueFoldErrorFree(step, s, h[..|h| - 1]);
    }
  }

  /** A property every step keeps holds after any replay, under either policy. */
  lemma {:induction false} FoldPreserves<S>(step: (S, EventEnvelope) -> Applied<S>, inv: S -> bool, s: S, h: seq<EventEnvelope>, policy: Policy)
    requires inv(s)
    requires forall x, e :: inv(x) ==> inv(step(x, e).state)
    ensures inv(Fold(step, s, h, policy).state)
    decreases |h|
  {
    if h != [] {
      FoldPreserves(step, inv, s, h[..|h| - 1], policy);
    }
  }

  // ---------------------------------------------------------------- the log

  /** The events of one selector, in log order. */
  function Stream(log: seq<EventEnvelope>, aggregateType: string, aggregateId: string): (r: seq<EventEnvelope>)
    ensures forall i :: 0 <= i < |r| ==> r[i].aggregateType == aggregateType && r[i].aggregateId == aggregateId
    ensures |r| <= |log|
    decreases |log|
  {
    if log == [] then []
    else
      var rest := Stream(log[..|log| - 1], aggregateType, aggregateId);
      var e := log[|log| - 1];
      if e.aggregateType == aggregateType && e.aggregateId == aggregateId then rest + [e] else rest
  }

  /**
   * How the command loop (part of the library, not of this model) appends a
   * decision's events: an event that leaves its aggregate type or id empty
   * is stored under the command's.
   */
  function Stamp(c: CommandEnvelope, e: EventEnvelope): EventEnvelope {
    e.(aggregateType := if e.aggregateType == "" then c.aggregate else e.aggregateType,
       aggregateId := if e.aggregateId == "" then c.aggregateId else e.aggregateId)
  }

  function StampAll(c: CommandEnvelope, events: seq<EventEnvelope>): (r: seq<EventEnvelope>)
    ensures |r| == |events|
    ensures forall i :: 0 <= i < |r| ==> r[i] == Stamp(c, events[i])
  {
    seq(|events|, i requires 0 <= i < |events| => Stamp(c, events[i]))
  }

  function Publish(log: seq<EventEnvelope>, c: CommandEnvelope, events: seq<EventEnvelope>): seq<EventEnvelope> {
    log + StampAll(c, events)
  }

  /** Appending to the log extends exactly the streams the new events belong to, in order. */
  lemma {:induction false} StreamAppend(log: seq<EventEnvelope>, more: seq<EventEnvelope>, t: string, id: string)
    ensures Stream(log + more, t, id) == Stream(log, t, id) + Stream(more, t, id)
    decreases |more|
  {
    if more == [] {
      assert log + more == log;
    } else {
      var m' := more[..|more| - 1];
      assert (log + more)[..|log + more| - 1] == log + m';
      assert (log + more)[|log + more| - 1] == more[|more| - 1];
      StreamAppend(log, m', t, id);
    }
  }

  /** Appending one event extends its own stream and no other. */
  lemma StreamSnoc(log: seq<EventEnvelope>, e: EventEnvelope, t: string, id: string)
    ensures Stream(log + [e], t, id) == if e.aggregateType == t && e.aggregateId == id then Stream(log, t, id) + [e] else Stream(log, t, id)
  {
    assert (log + [e])[..|log|] == log;
  }

  /** A log whose every event carries the selector is its own stream. */
  lemma {:induction false} StreamOfSelector(log: seq<EventEnvelope>, t: string, id: string)
    requires forall i :: 0 <= i < |log| ==> log[i].aggregateType == t && log[i].aggregateId == id
    ensures Stream(log, t, id) == log
    decreases |log|
  {
    if log != [] {
      StreamOfSelector(log[..|log| - 1], t, id);
    }
  }

  /** A log none of whose events carries the selector has an empty stream. */
  lemma {:induction false} StreamWithoutSelector(log: seq<EventEnvelope>, t: string, id: string)
    requires forall i :: 0 <= i < |log| ==> !(log[i].aggregateType == t && log[i].aggregateId == id)
    ensures Stream(log, t, id) == []
    decreases |log|
  {
    if log != [] {
      StreamWithoutSelector(log[..|log| - 1], t, id);
    }
  }

  /** A stream is exactly the events of the log that carry its selector. */
  lemma {:induction false} StreamMembers(log: seq<EventEnvelope>, t: string, id: string)
    ensures forall e :: e in Stream(log, t, id) <==> e in log && e.aggregateType == t && e.aggregateId == id
    decreases |log|
  {
    if log != [] {
      StreamMembers(log[..|log| - 1], t, id);
      assert log == log[..|log| - 1] + [log[|log| - 1]];
    }
  }
}
