/** The polling WaitForResult of the file and Redis backends: what a series of polls may do,
    and when it stands in for a blocking wait (store/file.go, store/redis.go). */
module Polling {
  import opened Values

  /** Half a second between polls. */
  const INTERVAL := 0.5

  datatype Look = Absent | Found(doc: Doc)

  /** One turn of the loop: when it looked, what it saw, and whether the context was done
      before the next turn. */
  datatype Poll = Poll(at: real, look: Look, cancelled: bool)

  /** What goes on around a waiting process: look `i` happens at `clock(i)`, before it other
      processes do `others(i, ..)` to the store, and `cancelled(i)` says that the context is
      done before the next look. */
  datatype Env<!S> = Env(clock: nat -> real, cancelled: nat -> bool, others: (nat, S) -> S)

  ghost predicate Ticks(clock: nat -> real) {
    forall i: nat :: clock(i) + INTERVAL <= clock(i + 1)
  }

  datatype Outcome = Got(doc: Doc) | TimedOut | Cancelled

  /** What the loop does: it looks on until it finds a result, is past its deadline after a
      look, or is cancelled. */
  ghost predicate Waited(polls: seq<Poll>, deadline: real, out: Outcome) {
    && |polls| > 0
    && (forall i | 0 <= i < |polls| - 1 :: polls[i].look.Absent? && polls[i].at <= deadline && !polls[i].cancelled)
    && var last := polls[|polls| - 1];
       match last.look
       case Found(doc) => out == Got(doc)
       case Absent => if last.at > deadline then out == TimedOut else last.cancelled && out == Cancelled
  }

  /** Turns are at least an interval apart. */
  ghost predicate Paced(polls: seq<Poll>) {
    forall i | 0 <= i < |polls| - 1 :: polls[i].at + INTERVAL <= polls[i + 1].at
  }

  lemma {:induction false} PacedSpan(polls: seq<Poll>, i: nat)
    requires Paced(polls) && i < |polls|
    ensures polls[0].at + i as real * INTERVAL <= polls[i].at
  {
    if i > 0 {
      PacedSpan(polls, i - 1);
      assert polls[i - 1].at + INTERVAL <= polls[i - 1 + 1].at;
    }
  }

  /** A wait of `timeout` seconds takes at most floor(2 * timeout) + 2 looks. */
  lemma PollsAreBounded(polls: seq<Poll>, start: real, timeout: real, out: Outcome)
    requires Waited(polls, start + timeout, out) && Paced(polls) && start <= polls[0].at && timeout >= 0.0
    ensures |polls| <= (2.0 * timeout).Floor + 2
  {
    if |polls| >= 2 {
      var i := |polls| - 2;
      PacedSpan(polls, i);
      assert i as real <= 2.0 * timeout;
    }
  }

  /** A result is visible to every look from `written` until just before `until`, and there
      is nothing to see before. */
  ghost predicate Shows(polls: seq<Poll>, written: real, until: real) {
    forall i | 0 <= i < |polls| ::
      && (polls[i].at < written ==> polls[i].look.Absent?)
      && (written <= polls[i].at < until ==> polls[i].look.Found?)
  }

  /** The loop refines a blocking wait: a result written by the deadline is returned, if the
      wait starts before it expires, no two looks are further apart than its lifetime, and the
      context is not cancelled. */
  lemma OnTimeResultIsReturned(polls: seq<Poll>, deadline: real, out: Outcome, written: real, until: real)
    requires Waited(polls, deadline, out) && out != Cancelled && Shows(polls, written, until)
    requires written <= deadline && polls[0].at < until
    requires forall i | 0 <= i < |polls| - 1 :: polls[i + 1].at - polls[i].at <= until - written
    ensures var last := polls[|polls| - 1];
            written <= last.at < until && last.look.Found? && out == Got(last.look.doc)
  {
    NoLookMissesIt(polls, written, until, |polls| - 1);
  }

  /** As long as all looks before `n` see nothing, look `n` is not past the expiry. */
  lemma NoLookMissesIt(polls: seq<Poll>, written: real, until: real, n: nat)
    requires n < |polls| && Shows(polls, written, until) && polls[0].at < until
    requires forall i | 0 <= i < |polls| - 1 :: polls[i + 1].at - polls[i].at <= until - written
    requires forall i | 0 <= i < n :: polls[i].look.Absent?
    ensures polls[n].at < until
  {
    if n > 0 {
      NoLookMissesIt(polls, written, until, n - 1);
      assert polls[n - 1].at < written;
      assert polls[n - 1 + 1].at - polls[n - 1].at <= until - written;
    }
  }

  /** The bound on the gap is exact: a gap longer than the result's lifetime by any margin
      can lose it. */
  lemma LongGapLosesTheResult(lifetime: real, margin: real) returns (polls: seq<Poll>, deadline: real, written: real)
    requires lifetime > 0.0 && margin > 0.0
    ensures Waited(polls, deadline, TimedOut) && Shows(polls, written, written + lifetime)
    ensures written <= deadline && polls[0].at < written + lifetime
    ensures |polls| == 2 && lifetime < polls[1].at - polls[0].at < lifetime + margin
  {
    written := margin / 4.0;
    deadline := written;
    polls := [Poll(0.0, Absent, false), Poll(lifetime + margin / 2.0, Absent, false)];
  }
}
