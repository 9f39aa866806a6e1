/**
 RedisClient._retry_operation: how often a command takes effect on the server, whatever the
 network does.
 */
module Retry {

  /**
   One call of the client: a reply, a timeout after which the command may have been applied,
   or any other RedisError, which means that it never reached the server.
   */
  datatype Call = Replied | TimedOut(applied: bool) | Refused

  /** What the caller of _retry_operation sees.  `NoAttempt` is the None of max_retries = 0. */
  datatype Outcome<R> = Returned(reply: R) | Raised | NoAttempt

  class Cell<S> {
    var value: S

    constructor (value: S)
      ensures this.value == value
    {
      this.value := value;
    }
  }

  predicate TakesEffect(call: Call) {
    call.Replied? || (call.TimedOut? && call.applied)
  }

  predicate StopsRetrying(call: Call, idempotent: bool) {
    call.Replied? || (call.TimedOut? && !idempotent)
  }

  /** The effect, n times over. */
  function Iterate<S>(effect: S -> S, n: nat, s: S): S {
    if n == 0 then s else effect(Iterate(effect, n - 1, s))
  }

  function Applications(calls: seq<Call>): nat {
    if calls == [] then 0
    else Applications(calls[..|calls| - 1]) + if TakesEffect(calls[|calls| - 1]) then 1 else 0
  }

  /**
   `calls` says how the network treats each call that is made.  `made` is the number of calls;
   the state tells how many of them took effect.  A reply is about the state that its own call found.
   */
  method RetryOperation<S, R>(cell: Cell<S>, effect: S -> S, reply: S -> R, maxRetries: nat, idempotent: bool, calls: seq<Call>)
    returns (outcome: Outcome<R>, made: nat)
    requires |calls| == maxRetries
    modifies cell
    ensures made <= maxRetries
    ensures cell.value == Iterate(effect, Applications(calls[..made]), old(cell.value))
    ensures outcome.NoAttempt? <==> maxRetries == 0
    ensures outcome.Returned? <==> made > 0 && calls[made - 1] == Replied
    ensures outcome.Returned? ==> outcome.reply == reply(Iterate(effect, Applications(calls[..made - 1]), old(cell.value)))
    ensures !outcome.Returned? ==> made == maxRetries || (made > 0 && calls[made - 1].TimedOut? && !idempotent)
    ensures forall i :: 0 <= i < made - 1 ==> !StopsRetrying(calls[i], idempotent)
  {
    made := 0;
    outcome := NoAttempt;
    while made < maxRetries
      invariant made <= maxRetries && (made == maxRetries ==> maxRetries == 0)
      invariant cell.value == Iterate(effect, Applications(calls[..made]), old(cell.value))
      invariant outcome.NoAttempt?
      invariant forall i :: 0 <= i < made ==> !StopsRetrying(calls[i], idempotent)
    {
      var call := calls[made];
      assert calls[..made + 1][..made] == calls[..made];
      var answer := reply(cell.value);
      if TakesEffect(call) {
        cell.value := effect(cell.value);
      }
      made := made + 1;
      if call.Replied? {
        outcome := Returned(answer);
        return;
      }
      if call.TimedOut? && !idempotent {
        outcome := Raised;
        return;
      }
      if made == maxRetries {
        outcome := Raised;
        return;
      }
    }
  }

  /** What RetryOperation guarantees about a non-idempotent command, in terms of its two results. */
  lemma {:induction false} NeverTwice(calls: seq<Call>)
    requires forall i :: 0 <= i < |calls| - 1 ==> !StopsRetrying(calls[i], false)
    ensures Applications(calls) <= 1
    ensures |calls| > 0 && calls[|calls| - 1] == Replied ==> Applications(calls) == 1
  {
    if calls != [] {
      var before := calls[..|calls| - 1];
      assert forall i :: 0 <= i < |before| ==> before[i] == calls[i];
      AllRefused(before);
    }
  }

  lemma {:induction false} AllRefused(calls: seq<Call>)
    requires forall i :: 0 <= i < |calls| ==> calls[i] == Refused
    ensures Applications(calls) == 0
  {
    if calls != [] {
      AllRefused(calls[..|calls| - 1]);
    }
  }

  /** An idempotent command may be applied many times; that leaves the state of one application. */
  lemma {:induction false} RepeatsChangeNothing<S(!new)>(effect: S -> S, n: nat, s: S)
    requires forall x :: effect(effect(x)) == effect(x)
    ensures Iterate(effect, n, s) == if n == 0 then s else effect(s)
  {
    if n > 1 {
      RepeatsChangeNothing(effect, n - 1, s);
      assert effect(effect(s)) == effect(s);
    } else if n == 1 {
      assert Iterate(effect, 1, s) == effect(Iterate(effect, 0, s));
    }
  }

  /**
   The wrappers of the client (set, hset, delete with idempotent = true; incr, hincrby, rpush, sadd
   with false), and the main result: a non-idempotent command is
   applied at most once, and exactly once if the caller gets a reply, which is then that of the
   state it found; an idempotent one that is applied at all leaves the state of exactly one
   application, but its reply may be that of a repetition.
   */
  method Execute<S(!new), R>(cell: Cell<S>, effect: S -> S, reply: S -> R, maxRetries: nat, idempotent: bool, calls: seq<Call>)
    returns (outcome: Outcome<R>)
    requires |calls| == maxRetries
    requires idempotent ==> forall x :: effect(effect(x)) == effect(x)
    modifies cell
    ensures cell.value == old(cell.value) || cell.value == effect(old(cell.value))
    ensures outcome.Returned? ==> cell.value == effect(old(cell.value))
    ensures outcome.Returned? && !idempotent ==> outcome.reply == reply(old(cell.value))
    ensures outcome.Returned? && idempotent ==>
              outcome.reply == reply(old(cell.value)) || outcome.reply == reply(effect(old(cell.value)))
    ensures (forall i :: 0 <= i < |calls| ==> calls[i] == Refused) ==>
              !outcome.Returned? && cell.value == old(cell.value)
  {
    var made;
    outcome, made := RetryOperation(cell, effect, reply, maxRetries, idempotent, calls);
    var n := Applications(calls[..made]);
    if idempotent {
      RepeatsChangeNothing(effect, n, old(cell.value));
      if made > 0 {
        RepeatsChangeNothing(effect, Applications(calls[..made - 1]), old(cell.value));
      }
    } else {
      NeverTwice(calls[..made]);
      assert n == 1 ==> Iterate(effect, n, old(cell.value)) == effect(Iterate(effect, 0, old(cell.value)));
      if made > 0 {
        AllRefused(calls[..made - 1]);
      }
    }
    if made > 0 && TakesEffect(calls[made - 1]) {
      assert calls[..made][..made - 1] == calls[..made - 1];
      assert n >= 1;
    }
    if forall i :: 0 <= i < |calls| ==> calls[i] == Refused {
      AllRefused(calls[..made]);
    }
  }
}
