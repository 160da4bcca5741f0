/** internal/notify/notify.go: the message handle and the two goroutines around
    it, first as code over the Bot API, then as a timed transition system that
    says when the second one can give up on the first. */
module Notify {
  import opened Outcomes
  import opened Telegram

  const HANDLE_WAIT: int := CALL_TIMEOUT + SECOND

  /** The handle of a message being sent; id 0 means there is nothing to edit. */
  class Message {
    var ready: bool
    var id: int

    constructor ()
      ensures !ready && id == 0
    {
      ready, id := false, 0;
    }

    /** Closing a closed channel panics, so this happens once. */
    method Settle(id: int)
      requires !ready
      modifies this
      ensures ready && this.id == id
    {
      this.id := id;
      ready := true;
    }
  }

  /** The goroutine behind Started: it settles the message, whatever happens,
      within the call's timeout, and gives up on a failure that may pass only
      after three attempts or when all of it is over. */
  method SendStart(bot: Bot, msg: Message, text: string)
    requires !msg.ready
    modifies bot, msg
    ensures msg.ready && old(bot.clock) <= bot.clock <= old(bot.clock) + 30 * SECOND
    ensures old(bot.log) < bot.log
    ensures forall i :: |old(bot.log)| <= i < |bot.log| ==> bot.log[i].call == SendMessage(text)
    ensures var last := bot.log[|bot.log| - 1].reply;
            && msg.id == (if last.Reply? && last.status == 200 && last.ok then last.messageId else 0)
            && (|bot.log| < |old(bot.log)| + 3 && (last.NoReply? || last.status == 429 || last.status >= 500) ==>
                  bot.clock >= old(bot.clock) + 30 * SECOND)
  {
    hide CallRun;
    ghost var before := bot.log;
    var r := bot.Call(SendMessage(text), bot.clock + CALL_TIMEOUT);
    assert forall i :: |before| <= i < |bot.log| ==> bot.log[i] == bot.log[|before|..][i - |before|];
    msg.Settle(if r.Some? then r.value else 0);
  }

  /** The goroutine behind Resolved once its wait is over: a known message is
      edited, and only without one is another sent. */
  method SendTerminal(bot: Bot, id: int, text: string)
    modifies bot
    ensures old(bot.log) < bot.log
    ensures forall i :: |old(bot.log)| <= i < |bot.log| ==>
              bot.log[i].call == if id == 0 then SendMessage(text) else EditMessage(id, text)
    ensures old(bot.clock) <= bot.clock <= old(bot.clock) + 30 * SECOND
    ensures var last := bot.log[|bot.log| - 1].reply;
            |bot.log| < |old(bot.log)| + 3 && (last.NoReply? || last.status == 429 || last.status >= 500) ==>
              bot.clock >= old(bot.clock) + 30 * SECOND
  {
    hide CallRun;
    ghost var before := bot.log;
    var deadline := bot.clock + CALL_TIMEOUT;
    var r;
    if id == 0 {
      r := bot.Call(SendMessage(text), deadline);
    } else {
      r := bot.Call(EditMessage(id, text), deadline);
    }
    assert forall i :: |before| <= i < |bot.log| ==> bot.log[i] == bot.log[|before|..][i - |before|];
  }

  /* ------------------------------------------------------------------ */
  /* The race between the start send and the terminal notification        */
  /* ------------------------------------------------------------------ */

  datatype Start = Queued | Calling(deadline: int) | Settled(id: int, at: int)

  datatype Terminal = NotYet | Waiting(from: int) | Chosen(id: int) | Acted(id: int)

  datatype Post = NewMessage | Edit(id: int)

  datatype Sys = Sys(now: int, created: int, start: Start, terminal: Terminal, chat: seq<Post>)

  /** How late the machine may run: `early` from Started to its goroutine's
      context, `late` from the context's deadline to the settling. */
  datatype Jitter = Jitter(early: nat, late: nat)

  datatype Step =
    | Tick(to: int)
    | BeginSend
    | EndSend(id: int, posted: bool)
    | Resolve
    | WaitOver
    | GiveUp
    | Act

  predicate Init(s: Sys) {
    s.now == s.created && s.start == Queued && s.terminal == NotYet && s.chat == []
  }

  /** Whatever becomes ready first ends the wait; on a tie either may. */
  predicate Enabled(s: Sys, step: Step, j: Jitter) {
    match step
    case Tick(to) =>
      && s.now <= to
      && (s.start.Queued? ==> to <= s.created + j.early)
      && (s.start.Calling? ==> to <= s.start.deadline + j.late)
    case BeginSend => s.start.Queued?
    case EndSend(id, posted) => s.start.Calling? && (id != 0 ==> posted)
    case Resolve => s.terminal.NotYet?
    case WaitOver => s.terminal.Waiting? && s.start.Settled?
    case GiveUp =>
      && s.terminal.Waiting? && s.now >= s.terminal.from + HANDLE_WAIT
      && (s.start.Settled? ==> s.start.at >= s.terminal.from + HANDLE_WAIT)
    case Act => s.terminal.Chosen?
  }

  function Apply(s: Sys, step: Step, j: Jitter): Sys
    requires Enabled(s, step, j)
  {
    match step
    case Tick(to) => s.(now := to)
    case BeginSend => s.(start := Calling(s.now + CALL_TIMEOUT))
    case EndSend(id, posted) =>
      s.(start := Settled(id, s.now), chat := if posted then s.chat + [NewMessage] else s.chat)
    case Resolve => s.(terminal := Waiting(s.now))
    case WaitOver => s.(terminal := Chosen(s.start.id))
    case GiveUp => s.(terminal := Chosen(0))
    case Act =>
      var id := s.terminal.id;
      s.(terminal := Acted(id), chat := s.chat + [if id == 0 then NewMessage else Edit(id)])
  }

  predicate Run(states: seq<Sys>, steps: seq<Step>, j: Jitter) {
    && |states| == |steps| + 1
    && Init(states[0])
    && forall i :: 0 <= i < |steps| ==>
         Enabled(states[i], steps[i], j) && states[i + 1] == Apply(states[i], steps[i], j)
  }

  /** In time, and the chat shows what was done. */
  predicate Inv(s: Sys, j: Jitter) {
    && s.created <= s.now
    && (match s.start
        case Queued => s.now <= s.created + j.early
        case Calling(d) => d <= s.created + j.early + CALL_TIMEOUT && s.now <= d + j.late
        case Settled(_, at) => at <= s.created + j.early + CALL_TIMEOUT + j.late)
    && (s.terminal.Waiting? ==> s.created <= s.terminal.from)
    && (s.terminal.Chosen? || s.terminal.Acted? ==> s.start.Settled? && s.start.id == s.terminal.id)
    && (s.start.Settled? && s.start.id != 0 ==>
          s.chat == if s.terminal.Acted? then [NewMessage, Edit(s.start.id)] else [NewMessage])
    && (!s.start.Settled? ==> s.chat == [])
  }

  lemma StepInv(s: Sys, step: Step, j: Jitter)
    requires Inv(s, j) && Enabled(s, step, j) && j.early + j.late < SECOND
    ensures !step.GiveUp? && Inv(Apply(s, step, j), j)
  {
  }

  lemma {:induction false} RunInv(states: seq<Sys>, steps: seq<Step>, j: Jitter)
    requires Run(states, steps, j) && j.early + j.late < SECOND
    ensures Inv(states[|states| - 1], j)
  {
    if steps != [] {
      var n := |steps| - 1;
      assert Run(states[..n + 1], steps[..n], j);
      RunInv(states[..n + 1], steps[..n], j);
      StepInv(states[n], steps[n], j);
    }
  }

  /** A start that returned an id is edited by the terminal notification that
      has its handle, and no second message is posted. */
  lemma StartedIsEdited(states: seq<Sys>, steps: seq<Step>, j: Jitter)
    requires Run(states, steps, j) && j.early + j.late < SECOND
    ensures var s := states[|states| - 1];
            s.start.Settled? && s.start.id != 0 && s.terminal.Acted? ==> s.chat == [NewMessage, Edit(s.start.id)]
  {
    RunInv(states, steps, j);
  }

  ghost predicate NeverGivesUp(j: Jitter) {
    forall states, steps :: Run(states, steps, j) ==> !Enabled(states[|states| - 1], GiveUp, j)
  }

  /** The extra second is exactly the lateness the machine can afford: a wait
      can never give up on an outstanding send if and only if goroutines and
      timers are together less than a second late. */
  lemma GivesUpOnlyWhenLate(j: Jitter)
    ensures NeverGivesUp(j) <==> j.early + j.late < SECOND
  {
    if j.early + j.late < SECOND {
      forall states, steps | Run(states, steps, j)
        ensures !Enabled(states[|states| - 1], GiveUp, j)
      {
        RunInv(states, steps, j);
      }
    } else {
      var steps := [Resolve, Tick(j.early), BeginSend, Tick(j.early + CALL_TIMEOUT + j.late)];
      var s0 := Sys(0, 0, Queued, NotYet, []);
      var s1 := s0.(terminal := Waiting(0));
      var s2 := s1.(now := j.early);
      var s3 := s2.(start := Calling(j.early + CALL_TIMEOUT));
      var s4 := s3.(now := j.early + CALL_TIMEOUT + j.late);
      var states := [s0, s1, s2, s3, s4];
      assert Run(states, steps, j);
      assert Enabled(states[|states| - 1], GiveUp, j);
    }
  }
}
