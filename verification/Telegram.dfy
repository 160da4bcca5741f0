/** internal/notify/telegram.go: one Bot API call with its retries. */
module Telegram {
  import opened Outcomes

  const SEND_TIMEOUT: int := 5 * SECOND
  const CALL_TIMEOUT: int := 30 * SECOND
  const MAX_ATTEMPTS: int := 3
  const RETRY_BASE: int := SECOND

  datatype Method = SendMessage(text: string) | EditMessage(id: int, text: string)

  /** No reply is a transport error or an undecodable body. */
  datatype Reply = NoReply | Reply(status: int, ok: bool, messageId: int, retryAfter: int)

  datatype Attempt = Attempt(call: Method, reply: Reply, began: int, ended: int)

  predicate Delivered(r: Reply) { r.Reply? && r.status == 200 && r.ok }

  predicate Retryable(r: Reply) { r.NoReply? || r.status == 429 || r.status >= 500 }

  /** The wait after a failed attempt: what Telegram asked for, or one second
      more each time. */
  function Delay(attempt: int, r: Reply): int {
    if r.Reply? && r.retryAfter > 0 then r.retryAfter * SECOND else attempt * RETRY_BASE
  }

  function Later(a: int, b: int): int { if a < b then b else a }

  /** The time k attempts with their waits take at most without retry_after. */
  function Budget(k: int): int
    requires 0 <= k <= 3
  {
    if k == 0 then 0 else Budget(k - 1) + SEND_TIMEOUT + k * RETRY_BASE
  }

  predicate AskedToWait(a: Attempt) { a.reply.Reply? && a.reply.retryAfter > 0 }

  predicate Asked(s: seq<Attempt>) {
    exists i :: 0 <= i < |s| && AskedToWait(s[i])
  }

  predicate AllOf(s: seq<Attempt>, call: Method) {
    forall i :: 0 <= i < |s| ==> s[i].call == call
  }

  /** All failed in a way that may pass. */
  predicate AllFailed(s: seq<Attempt>) {
    forall i :: 0 <= i < |s| ==> Retryable(s[i].reply) && !Delivered(s[i].reply)
  }

  /** The attempts of one call: at most three, a further one only after a failure
      that may pass; the id of the delivered message if the last was delivered,
      and otherwise the last failed for good, was the third, or the context had
      ended. */
  predicate CallRun(s: seq<Attempt>, call: Method, r: Option<int>, ended: bool) {
    && 1 <= |s| <= MAX_ATTEMPTS && AllOf(s, call) && AllFailed(s[..|s| - 1])
    && var last := s[|s| - 1].reply;
    && (r.Some? <==> Delivered(last)) && (r.Some? ==> r.value == last.messageId)
    && (r.None? ==> !Retryable(last) || |s| == MAX_ATTEMPTS || ended)
  }

  /** Each attempt lies in the time from `start` to t, and begins only after the
      whole wait that followed the one before. */
  predicate Timed(s: seq<Attempt>, start: int, t: int) {
    && (forall i :: 0 <= i < |s| ==> start <= s[i].began <= s[i].ended <= t)
    && (forall i :: 0 <= i < |s| - 1 ==> s[i + 1].began >= s[i].ended + Delay(i + 1, s[i].reply))
  }

  /** These attempts, sent from `start` on, are over at time t: within the deadline
      of the context, after all the waits between them, and in time. */
  predicate Ended(s: seq<Attempt>, call: Method, start: int, t: int, deadline: int) {
    && 1 <= |s| <= MAX_ATTEMPTS && AllOf(s, call) && AllFailed(s[..|s| - 1]) && Timed(s, start, t)
    && start <= t <= Later(start, deadline)
    && (!Asked(s) ==> t <= start + Budget(|s| - 1) + SEND_TIMEOUT)
  }

  /** These attempts have failed, and the wait after the last is over at time t. */
  predicate Waited(s: seq<Attempt>, call: Method, start: int, t: int, deadline: int) {
    && |s| < MAX_ATTEMPTS && AllOf(s, call) && AllFailed(s) && Timed(s, start, t)
    && (s != [] ==> t >= s[|s| - 1].ended + Delay(|s|, s[|s| - 1].reply))
    && start <= t <= Later(start, deadline)
    && (!Asked(s) ==> t <= start + Budget(|s|))
  }

  lemma AttemptEnds(s: seq<Attempt>, x: Attempt, call: Method, start: int, t: int, deadline: int)
    requires Waited(s, call, start, t, deadline) && x.call == call && x.began == t
    requires t <= x.ended <= t + SEND_TIMEOUT && x.ended <= Later(t, deadline)
    ensures Ended(s + [x], call, start, x.ended, deadline)
  {
    hide Delay, AskedToWait;
    assert (s + [x])[..|s|] == s;
    if Asked(s) {
      var i :| 0 <= i < |s| && AskedToWait(s[i]);
      assert (s + [x])[i] == s[i];
    }
  }

  lemma WaitEnds(s: seq<Attempt>, call: Method, start: int, t: int, deadline: int)
    requires Ended(s, call, start, t, deadline) && |s| < MAX_ATTEMPTS
    requires var last := s[|s| - 1].reply;
             Retryable(last) && !Delivered(last) && t + Delay(|s|, last) <= deadline && Delay(|s|, last) > 0
    ensures Waited(s, call, start, t + Delay(|s|, s[|s| - 1].reply), deadline)
  {
    assert forall i :: 0 <= i < |s| - 1 ==> s[..|s| - 1][i] == s[i];
    assert !Asked(s) ==> !AskedToWait(s[|s| - 1]);
  }

  /** What one call did, attempt by attempt: a further attempt only after no reply,
      429 or a 5xx, and no earlier than Telegram asked for, or than one second
      more each time when it asked for nothing. */
  ghost predicate Tries(s: seq<Attempt>, call: Method, r: Option<int>, start: int, t: int, ended: bool) {
    && 1 <= |s| <= 3
    && (forall i :: 0 <= i < |s| ==> s[i].call == call && start <= s[i].began <= s[i].ended <= t)
    && (forall i :: 0 <= i < |s| - 1 ==>
          && (s[i].reply.NoReply? || s[i].reply.status == 429 || s[i].reply.status >= 500)
          && s[i + 1].began >= s[i].ended + if s[i].reply.Reply? && s[i].reply.retryAfter > 0
                                            then s[i].reply.retryAfter * SECOND
                                            else (i + 1) * SECOND)
    && var last := s[|s| - 1].reply;
    && (r.Some? <==> last.Reply? && last.status == 200 && last.ok)
    && (r.Some? ==> r.value == last.messageId)
    && (r.None? ==> || |s| == 3 || ended
                    || (last.Reply? && last.status != 429 && last.status < 500))
  }

  lemma CallEnds(s: seq<Attempt>, call: Method, r: Option<int>, start: int, t: int, u: int, deadline: int)
    requires Ended(s, call, start, t, deadline) && CallRun(s, call, r, u >= deadline)
    requires u == t || (|s| < MAX_ATTEMPTS && t <= u <= t + Delay(|s|, s[|s| - 1].reply) && u <= Later(t, deadline))
    ensures Tries(s, call, r, start, u, u >= deadline)
    ensures start <= u <= Later(start, deadline)
    ensures (forall i :: 0 <= i < |s| && s[i].reply.Reply? ==> s[i].reply.retryAfter <= 0) ==> u <= start + 18 * SECOND
  {
    assert Budget(0) == 0 && Budget(1) == 6 * SECOND && Budget(2) == 13 * SECOND;
    assert !Asked(s) ==> !AskedToWait(s[|s| - 1]);
    assert forall i :: 0 <= i < |s| - 1 ==> s[..|s| - 1][i] == s[i];
  }

  /** Bot API calls under contexts with a deadline: the network may do anything
      within a send's timeout, timers are on time. */
  class Bot {
    var clock: int
    var log: seq<Attempt>

    constructor (clock: int)
      ensures this.clock == clock && log == []
    {
      this.clock, log := clock, [];
    }

    method Once(call: Method, deadline: int) returns (r: Reply)
      modifies this
      ensures log == old(log) + [Attempt(call, r, old(clock), clock)]
      ensures old(clock) <= clock <= old(clock) + SEND_TIMEOUT && clock <= Later(old(clock), deadline)
    {
      r := *;
      log := log + [Attempt(call, r, clock, clock)];
    }

    /** Whether the time passed before the context's deadline. */
    method Sleep(d: int, deadline: int) returns (woke: bool)
      requires d > 0
      modifies this`clock
      ensures woke <==> old(clock) + d <= deadline
      ensures clock == if woke then old(clock) + d else Later(old(clock), deadline)
    {
      woke := clock + d <= deadline;
      clock := if woke then clock + d else Later(clock, deadline);
    }

    /** One Bot API call. It ends by the deadline, and keeps every wait asked for
        before the next attempt; where Telegram never asks for a longer wait it
        ends within 18 seconds, so that a 30 second context never cuts it short. */
    method Call(call: Method, deadline: int) returns (r: Option<int>)
      modifies this
      ensures old(log) <= log
      ensures CallRun(log[|old(log)|..], call, r, clock >= deadline)
      ensures old(clock) <= clock <= Later(old(clock), deadline)
      ensures var s := log[|old(log)|..];
              && 1 <= |s| <= 3
              && (forall i :: 0 <= i < |s| ==> s[i].call == call && old(clock) <= s[i].began <= s[i].ended <= clock)
              && (forall i :: 0 <= i < |s| - 1 ==>
                    && (s[i].reply.NoReply? || s[i].reply.status == 429 || s[i].reply.status >= 500)
                    && s[i + 1].began >= s[i].ended + if s[i].reply.Reply? && s[i].reply.retryAfter > 0
                                                      then s[i].reply.retryAfter * SECOND
                                                      else (i + 1) * SECOND)
              && var last := s[|s| - 1].reply;
              && (r.Some? <==> last.Reply? && last.status == 200 && last.ok)
              && (r.Some? ==> r.value == last.messageId)
              && (r.None? ==> || |s| == 3 || clock >= deadline
                              || (last.Reply? && last.status != 429 && last.status < 500))
      ensures (forall i :: |old(log)| <= i < |log| && log[i].reply.Reply? ==> log[i].reply.retryAfter <= 0) ==>
                clock <= old(clock) + 18 * SECOND
    {
      r := Attempts(call, deadline);
      ghost var s := log[|old(log)|..];
      assert forall i :: 0 <= i < |s| ==> s[i] == log[|old(log)| + i];
    }

    /** The attempt loop. */
    method Attempts(call: Method, deadline: int) returns (r: Option<int>)
      modifies this
      ensures old(log) <= log
      ensures var s := log[|old(log)|..];
              && CallRun(s, call, r, clock >= deadline) && Tries(s, call, r, old(clock), clock, clock >= deadline)
              && ((forall i :: 0 <= i < |s| && s[i].reply.Reply? ==> s[i].reply.retryAfter <= 0) ==>
                    clock <= old(clock) + 18 * SECOND)
      ensures old(clock) <= clock <= Later(old(clock), deadline)
    {
      hide Waited, Ended, AllOf, AllFailed, Asked, AskedToWait, Tries, CallRun;
      ghost var log0, start := log, clock;
      var attempt := 1;
      ghost var done: seq<Attempt> := [];
      assert Waited(done, call, start, clock, deadline) by { NothingYet(call, clock, deadline); }
      while attempt <= MAX_ATTEMPTS
        invariant 1 <= attempt <= MAX_ATTEMPTS
        invariant log == log0 + done && |done| == attempt - 1
        invariant Waited(done, call, start, clock, deadline)
        decreases MAX_ATTEMPTS - attempt
      {
        ghost var before := clock;
        var reply := Once(call, deadline);
        ghost var x := Attempt(call, reply, before, clock);
        AttemptEnds(done, x, call, start, before, deadline);
        LogGrows(log0, done, x);
        done := done + [x];
        if Delivered(reply) {
          LastSays(done, call, Some(reply.messageId), start, clock, deadline, false);
          CallEnds(done, call, Some(reply.messageId), start, clock, clock, deadline);
          return Some(reply.messageId);
        }
        if !Retryable(reply) || attempt == MAX_ATTEMPTS {
          LastSays(done, call, None, start, clock, deadline, clock >= deadline);
          CallEnds(done, call, None, start, clock, clock, deadline);
          return None;
        }
        ghost var over := clock;
        var woke := Sleep(Delay(attempt, reply), deadline);
        if !woke {
          LastSays(done, call, None, start, over, deadline, true);
          CallEnds(done, call, None, start, over, clock, deadline);
          return None;
        }
        WaitEnds(done, call, start, over, deadline);
        attempt := attempt + 1;
      }
    }
  }

  lemma LastSays(s: seq<Attempt>, call: Method, r: Option<int>, start: int, t: int, deadline: int, ended: bool)
    requires Ended(s, call, start, t, deadline)
    requires var last := s[|s| - 1].reply;
             && (r.Some? <==> Delivered(last)) && (r.Some? ==> r.value == last.messageId)
             && (r.None? ==> !Retryable(last) || |s| == MAX_ATTEMPTS || ended)
    ensures CallRun(s, call, r, ended)
    ensures r.Some? ==> CallRun(s, call, r, !ended)
  {
  }

  lemma LogGrows(log: seq<Attempt>, done: seq<Attempt>, x: Attempt)
    ensures var grown := log + done + [x];
            grown == log + (done + [x]) && grown[|log|..] == done + [x] && log <= grown
  {
  }

  lemma NothingYet(call: Method, start: int, deadline: int)
    ensures Waited([], call, start, start, deadline)
  {
  }
}
