/** The incremental trace upload (handleJobTrace in runner_api.go, the trace in store.go). */
module JobTrace {
  import opened Options

  /** What the stored trace becomes when a chunk that begins at `start` arrives. */
  function Accept<T>(stored: seq<T>, start: nat, body: seq<T>): seq<T> {
    if start == |stored| then stored + body
    else if start < |stored| && |stored| - start <= |body| then stored + body[|stored| - start..]
    else stored
  }

  datatype Reply = BadRequest | Accepted(range: nat)

  class Trace {
    var stored: seq<bv8>

    constructor ()
      ensures stored == []
    {
      stored := [];
    }

    method AppendTrace(s: seq<bv8>)
      modifies this
      ensures stored == old(stored) + s
    {
      stored := stored + s;
    }

    /** `body` is None when the request could not be read, `start` when no offset could be parsed. */
    method HandlePatch(body: Option<seq<bv8>>, start: Option<nat>) returns (r: Reply)
      modifies this
      ensures body.None? ==> r == BadRequest && stored == old(stored)
      ensures body.Some? ==> stored == Accept(old(stored), start.GetOr(|old(stored)|), body.value)
      ensures body.Some? ==>
                var from, had := start.GetOr(|old(stored)|), |old(stored)|;
                && stored == (if from <= had <= from + |body.value| then old(stored) + body.value[had - from..]
                              else old(stored))
                && r == Accepted(|stored|)
    {
      if body.None? {
        return BadRequest;
      }
      var from := |stored|;
      if start.Some? {
        from := start.value;
      }
      if from == |stored| {
        AppendTrace(body.value);
      } else if from < |stored| {
        var overlap := |stored| - from;
        if overlap <= |body.value| {
          AppendTrace(body.value[overlap..]);
        }
      }
      return Accepted(|stored|);
    }
  }

  // ----- A runner's log, through a network that repeats and reorders -----

  /**
   * `Chunk` is any earlier or later piece of the log, however late, repeated or far ahead; `Resend`
   * is a chunk sent from the last reported range; `Replace` is a final report carrying the whole log.
   */
  datatype Message = Chunk(start: nat, length: nat) | Resend(length: nat) | Replace

  predicate Sendable<T>(log: seq<T>, m: Message) {
    m.Chunk? ==> m.start + m.length <= |log|
  }

  function Piece<T>(log: seq<T>, start: nat, length: nat): seq<T>
    requires start <= |log|
  {
    if start + length <= |log| then log[start..start + length] else log[start..]
  }

  function Deliver<T>(log: seq<T>, stored: seq<T>, m: Message): seq<T>
    requires Sendable(log, m) && |stored| <= |log|
  {
    match m
    case Chunk(start, length) => Accept(stored, start, Piece(log, start, length))
    case Resend(length) => Accept(stored, |stored|, Piece(log, |stored|, length))
    case Replace => log
  }

  /** One message keeps the stored trace a prefix of the log and never shortens it. */
  lemma DeliverKeepsPrefix<T>(log: seq<T>, stored: seq<T>, m: Message)
    requires stored <= log && Sendable(log, m)
    ensures var t := Deliver(log, stored, m);
            && stored <= t <= log
            && (m.Chunk? ==>
                  |t| == if |stored| < m.start || m.start + m.length < |stored| then |stored| else m.start + m.length)
            && (m.Resend? ==> |t| == if |stored| + m.length <= |log| then |stored| + m.length else |log|)
  {
    assert stored == log[..|stored|];
    if m.Chunk? && m.start <= |stored| <= m.start + m.length {
      assert Piece(log, m.start, m.length)[|stored| - m.start..] == log[|stored|..m.start + m.length];
    }
  }

  ghost function DeliverAll<T>(log: seq<T>, stored: seq<T>, ms: seq<Message>): seq<T>
    requires stored <= log && forall i :: 0 <= i < |ms| ==> Sendable(log, ms[i])
    decreases |ms|
  {
    if ms == [] then stored
    else
      DeliverKeepsPrefix(log, stored, ms[0]);
      DeliverAll(log, Deliver(log, stored, ms[0]), ms[1..])
  }

  ghost function Resends(ms: seq<Message>): nat
    decreases |ms|
  {
    if ms == [] then 0 else (if ms[0].Resend? && ms[0].length > 0 then 1 else 0) + Resends(ms[1..])
  }

  /**
   * Whatever is lost, repeated, reordered or sent ahead, the stored trace stays a growing prefix of
   * the log, and every non-empty resend from the last range makes progress until all of it is there.
   */
  lemma {:induction false} TraceRefinesLog<T>(log: seq<T>, stored: seq<T>, ms: seq<Message>)
    requires stored <= log && forall i :: 0 <= i < |ms| ==> Sendable(log, ms[i])
    ensures var t := DeliverAll(log, stored, ms);
            && stored <= t <= log
            && |t| >= (if |stored| + Resends(ms) <= |log| then |stored| + Resends(ms) else |log|)
            && (|stored| + Resends(ms) >= |log| ==> t == log)
    decreases |ms|
  {
    if ms != [] {
      DeliverKeepsPrefix(log, stored, ms[0]);
      TraceRefinesLog(log, Deliver(log, stored, ms[0]), ms[1..]);
    }
  }

  /** Replaying a chunk that is already stored changes nothing. */
  lemma ReplayIsIdle<T>(log: seq<T>, stored: seq<T>, start: nat, length: nat)
    requires stored <= log && start + length <= |stored|
    ensures Deliver(log, stored, Chunk(start, length)) == stored
  {
    DeliverKeepsPrefix(log, stored, Chunk(start, length));
  }
}
