/** The life of the turn generator: one `Run`, any number of `Shutdown` callers, and a context that
    may be cancelled from outside, interleaved action by action. */
module Lifecycle {
  import opened Common

  /** Where `Run` is; each place names the action that comes next. */
  datatype RunPc =
    | Launch // make the context, publish its cancel function
    | Subscribe
    | ReadyOnFailure
    | SetRunning
    | SignalReady
    | Select
    | Handle // generating a turn
    | ClearRunning // the deferred unsubscription
    | SignalDone // the deferred signal, which was deferred first and so runs last
    | Finished

  datatype CallerPc =
    | CheckRunning
    | Cancel
    | WaitForDone
    | Returned(waited: bool)

  type Caller = nat

  /** Channels count how often they were closed, since closing one twice panics; each has a Once. */
  datatype State = State(
    pc: RunPc, running: bool, cancelPublished: bool, ownCancelled: bool, parentCancelled: bool,
    ready: nat, readyOnce: bool, done: nat, doneOnce: bool, callers: map<Caller, CallerPc>)

  const START := State(Launch, false, false, false, false, 0, false, 0, false, map[])

  predicate ContextDone(s: State) {
    s.ownCancelled || s.parentCancelled
  }

  function CloseReady(s: State): State {
    if s.readyOnce then s else s.(ready := s.ready + 1, readyOnce := true)
  }

  function CloseDone(s: State): State {
    if s.doneOnce then s else s.(done := s.done + 1, doneOnce := true)
  }

  datatype Action =
    | RunStep(subscribed: bool, message: bool) // how the subscription or the select turns out
    | Call(caller: Caller) // someone calls Shutdown
    | CallerStep(who: Caller)
    | CancelParent

  /** One action of `Run`; none when it is finished or has nothing to select. */
  function StepRun(s: State, subscribed: bool, message: bool): Option<State> {
    match s.pc
    case Launch => Some(s.(pc := Subscribe, cancelPublished := true))
    case Subscribe => Some(s.(pc := if subscribed then SetRunning else ReadyOnFailure))
    case ReadyOnFailure => Some(CloseReady(s).(pc := SignalDone))
    case SetRunning => Some(s.(pc := SignalReady, running := true))
    case SignalReady => Some(CloseReady(s).(pc := Select))
    case Select =>
      if message then Some(s.(pc := Handle))
      else if ContextDone(s) then Some(s.(pc := ClearRunning))
      else None
    case Handle => Some(s.(pc := Select))
    case ClearRunning => Some(s.(pc := SignalDone, running := false))
    case SignalDone => Some(CloseDone(s).(pc := Finished))
    case Finished => None
  }

  /** One action of a caller; none when it has returned or waits for an open channel. Calling a
      cancel function that is not there yet would crash, which is no action either. */
  function StepCaller(s: State, who: Caller): Option<State> {
    if who !in s.callers then None
    else
      match s.callers[who]
      case CheckRunning => Some(s.(callers := s.callers[who := if s.running then Cancel else Returned(false)]))
      case Cancel =>
        if s.cancelPublished then Some(s.(ownCancelled := true, callers := s.callers[who := WaitForDone])) else None
      case WaitForDone => if s.done > 0 then Some(s.(callers := s.callers[who := Returned(true)])) else None
      case Returned(_) => None
  }

  function Next(s: State, a: Action): Option<State> {
    match a
    case RunStep(subscribed, message) => StepRun(s, subscribed, message)
    case Call(caller) => if caller in s.callers then None else Some(s.(callers := s.callers[caller := CheckRunning]))
    case CallerStep(who) => StepCaller(s, who)
    case CancelParent => Some(s.(parentCancelled := true))
  }

  function Run(s: State, actions: seq<Action>): Option<State> {
    if actions == [] then Some(s)
    else
      match Run(s, actions[..|actions| - 1])
      case None => None
      case Some(t) => Next(t, actions[|actions| - 1])
  }

  // ---- The invariant

  predicate Before(pc: RunPc, later: RunPc) {
    Position(pc) < Position(later)
  }

  function Position(pc: RunPc): nat {
    match pc
    case Launch => 0
    case Subscribe => 1
    case ReadyOnFailure => 2
    case SetRunning => 2
    case SignalReady => 3
    case Select => 4
    case Handle => 4
    case ClearRunning => 5
    case SignalDone => 6
    case Finished => 7
  }

  predicate CallerOk(s: State, c: CallerPc) {
    match c
    case CheckRunning => true
    case Cancel => s.cancelPublished
    case WaitForDone => s.ownCancelled && !Before(s.pc, SignalReady)
    case Returned(waited) => waited ==> s.done == 1
  }

  ghost predicate Inv(s: State) {
    && s.ready == (if s.readyOnce then 1 else 0) && s.done == (if s.doneOnce then 1 else 0)
    && (s.readyOnce <==> Position(s.pc) >= 4) && (s.doneOnce <==> s.pc == Finished)
    && (s.running <==> s.pc in {SignalReady, Select, Handle, ClearRunning})
    && (s.cancelPublished <==> s.pc != Launch)
    && (forall c :: c in s.callers ==> CallerOk(s, s.callers[c]))
    && (forall c :: c in s.callers && s.callers[c].Cancel? ==> !Before(s.pc, SignalReady))
  }

  lemma RunStepKeepsInv(s: State, subscribed: bool, message: bool)
    requires Inv(s) && StepRun(s, subscribed, message).Some?
    ensures Inv(StepRun(s, subscribed, message).value)
  {
    var t := StepRun(s, subscribed, message).value;
    assert t.callers == s.callers;
    forall c | c in t.callers
      ensures CallerOk(t, t.callers[c]) && (t.callers[c].Cancel? ==> !Before(t.pc, SignalReady))
    {
      assert CallerOk(s, s.callers[c]);
    }
  }

  lemma CallerStepKeepsInv(s: State, who: Caller)
    requires Inv(s) && StepCaller(s, who).Some?
    ensures Inv(StepCaller(s, who).value)
  {
    var t := StepCaller(s, who).value;
    assert CallerOk(s, s.callers[who]);
    forall c | c in t.callers
      ensures CallerOk(t, t.callers[c])
    {
      if c != who {
        assert CallerOk(s, s.callers[c]);
      }
    }
  }

  lemma StepKeepsInv(s: State, a: Action)
    requires Inv(s) && Next(s, a).Some?
    ensures Inv(Next(s, a).value)
  {
    hide StepRun, StepCaller;
    match a
    case RunStep(subscribed, message) => RunStepKeepsInv(s, subscribed, message);
    case CallerStep(who) => CallerStepKeepsInv(s, who);
    case _ =>
      var t := Next(s, a).value;
      forall c | c in t.callers
        ensures CallerOk(t, t.callers[c])
      {
        if c in s.callers {
          assert CallerOk(s, s.callers[c]);
        }
      }
  }

  lemma {:induction false} RunKeepsInv(actions: seq<Action>)
    requires Run(START, actions).Some?
    ensures Inv(Run(START, actions).value)
  {
    hide Inv, Next;
    if actions == [] {
      StartSatisfiesInv();
    } else {
      RunKeepsInv(actions[..|actions| - 1]);
      StepKeepsInv(Run(START, actions[..|actions| - 1]).value, actions[|actions| - 1]);
    }
  }

  lemma StartSatisfiesInv()
    ensures Inv(START)
  {
  }

  // ---- What it means

  /** No channel is ever closed twice; once done is closed, ready is closed and the generator does
      not claim to be running. */
  lemma ChannelsCloseOnce(actions: seq<Action>)
    requires Run(START, actions).Some?
    ensures var s := Run(START, actions).value;
            s.ready <= 1 && s.done <= 1 && (s.done == 1 ==> s.ready == 1 && !s.running)
  {
    RunKeepsInv(actions);
  }

  /** A caller that waits has cancelled the context, and is not waiting in vain: either the channel
      is closed and it can return, or `Run` can act, without another message. */
  lemma NobodyWaitsInVain(actions: seq<Action>, who: Caller)
    requires Run(START, actions).Some?
    ensures var s := Run(START, actions).value;
            who in s.callers && s.callers[who].WaitForDone? ==>
              ContextDone(s) && (StepCaller(s, who).Some? || StepRun(s, true, false).Some?)
  {
    hide Run;
    RunKeepsInv(actions);
    var s := Run(START, actions).value;
    if who in s.callers {
      assert CallerOk(s, s.callers[who]);
    }
  }

  /** How far `Run` is from its end when no more messages are taken. */
  function Remaining(pc: RunPc): nat {
    match pc
    case Launch => 8
    case Subscribe => 7
    case ReadyOnFailure => 2
    case SetRunning => 6
    case SignalReady => 5
    case Select => 3
    case Handle => 4
    case ClearRunning => 2
    case SignalDone => 1
    case Finished => 0
  }

  /** Once the context is done, every action that takes no message brings `Run` closer to its end,
      and nothing un-cancels the context: so the waiting ends. */
  lemma CancelledRunEnds(s: State, subscribed: bool)
    requires Inv(s) && ContextDone(s) && s.pc != Finished
    ensures StepRun(s, subscribed, false).Some?
    ensures ContextDone(StepRun(s, subscribed, false).value)
    ensures Remaining(StepRun(s, subscribed, false).value.pc) < Remaining(s.pc)
  {
  }

  /** Nobody calls a cancel function that is not there. */
  lemma CancelIsThere(actions: seq<Action>, who: Caller)
    requires Run(START, actions).Some?
    ensures var s := Run(START, actions).value;
            who in s.callers && s.callers[who].Cancel? ==> StepCaller(s, who).Some?
  {
    hide Run;
    RunKeepsInv(actions);
    var s := Run(START, actions).value;
    if who in s.callers {
      assert CallerOk(s, s.callers[who]);
    }
  }

  /** A call that saw the generator running returns only after `Run` has exited. */
  lemma WaitedMeansExited(actions: seq<Action>, who: Caller)
    requires Run(START, actions).Some?
    ensures var s := Run(START, actions).value;
            who in s.callers && s.callers[who] == Returned(true) ==> s.pc == Finished && s.done == 1
  {
    hide Run;
    RunKeepsInv(actions);
    var s := Run(START, actions).value;
    if who in s.callers {
      assert CallerOk(s, s.callers[who]);
    }
  }

  // ---- When does Shutdown wait?

  /** However things go on from `t`, the call of `who` returns only when `Run` has exited. */
  ghost predicate WaitsForExit(t: State, who: Caller) {
    forall more :: ReturnsAfterExit(t, more, who)
  }

  ghost predicate ReturnsAfterExit(t: State, more: seq<Action>, who: Caller) {
    var end := Run(t, more);
    end.Some? && who in end.value.callers && end.value.callers[who].Returned? ==> end.value.pc == Finished
  }

  /** The comment on `Shutdown` promises that it waits for the exit. It does exactly when its check
      finds the generator running, or `Run` has exited already: for every run that comes to the
      check, and all that may follow. */
  lemma ShutdownWaitsIffRunning(actions: seq<Action>, s: State, who: Caller)
    requires Run(START, actions) == Some(s) && who in s.callers && s.callers[who].CheckRunning?
    ensures WaitsForExit(StepCaller(s, who).value, who) <==> s.running || s.pc == Finished
  {
    hide Run, ReturnsAfterExit;
    RunKeepsInv(actions);
    var t := StepCaller(s, who).value;
    CallerStepKeepsInv(s, who);
    if s.running || s.pc == Finished {
      forall more
        ensures ReturnsAfterExit(t, more, who)
      {
        Continues(t, more, who);
      }
    } else {
      ReturnsAtOnce(t, who);
    }
  }

  lemma ReturnsAtOnce(t: State, who: Caller)
    requires who in t.callers && t.callers[who].Returned? && t.pc != Finished
    ensures !ReturnsAfterExit(t, [], who)
  {
  }

  /** A call that passed the check, or was made after the exit, does not return before the exit. */
  ghost predicate Committed(s: State, who: Caller) {
    && Inv(s) && who in s.callers && !s.callers[who].CheckRunning?
    && (s.callers[who] == Returned(false) ==> s.pc == Finished)
  }

  lemma RunStepIsQuiet(s: State, subscribed: bool, message: bool)
    requires StepRun(s, subscribed, message).Some?
    ensures s.pc != Finished && StepRun(s, subscribed, message).value.callers == s.callers
  {
  }

  lemma StepKeepsCommitted(s: State, a: Action, who: Caller)
    requires Committed(s, who) && Next(s, a).Some?
    ensures Committed(Next(s, a).value, who)
  {
    hide Inv, StepRun, StepCaller;
    StepKeepsInv(s, a);
    if a.RunStep? {
      RunStepIsQuiet(s, a.subscribed, a.message);
    } else if a.CallerStep? {
      CallerStepIsLocal(s, a.who);
    }
  }

  lemma CallerStepIsLocal(s: State, who: Caller)
    requires StepCaller(s, who).Some?
    ensures var t := StepCaller(s, who).value;
            && who in s.callers && who in t.callers && t.pc == s.pc && t.callers == s.callers[who := t.callers[who]]
            && (!s.callers[who].CheckRunning? ==> !t.callers[who].CheckRunning? && t.callers[who] != Returned(false))
  {
    match s.callers[who]
    case CheckRunning =>
    case Cancel =>
    case WaitForDone =>
    case Returned(_) =>
  }

  lemma StepKeepsCalledLate(s: State, a: Action, who: Caller)
    requires CalledLate(s, who) && Next(s, a).Some?
    ensures CalledLate(Next(s, a).value, who)
  {
    hide Inv, StepRun;
    StepKeepsInv(s, a);
    if a.RunStep? {
      RunStepIsQuiet(s, a.subscribed, a.message);
    }
  }

  lemma {:induction false} Continues(t: State, more: seq<Action>, who: Caller)
    requires Committed(t, who)
    ensures Run(t, more).Some? ==> Committed(Run(t, more).value, who)
    ensures ReturnsAfterExit(t, more, who)
    decreases |more|
  {
    hide Committed, Next;
    if more != [] {
      var init := more[..|more| - 1];
      Continues(t, init, who);
      if Run(t, more).Some? {
        StepKeepsCommitted(Run(t, init).value, more[|more| - 1], who);
      }
    }
    if Run(t, more).Some? {
      ReturnedMeansFinished(Run(t, more).value, who);
    }
  }

  lemma ReturnedMeansFinished(s: State, who: Caller)
    requires Committed(s, who)
    ensures who in s.callers && (s.callers[who].Returned? ==> s.pc == Finished)
  {
    assert CallerOk(s, s.callers[who]);
  }

  /** Looking at the flag before the call does not help: whatever the state when the call is made,
      unless `Run` has exited, it may still return early, since the context may be cancelled from
      outside and the flag cleared before the call comes to its own check. */
  lemma CheckingBeforeTheCallIsNotEnough(actions: seq<Action>, s: State, who: Caller)
    requires Run(START, actions) == Some(s) && who !in s.callers
    ensures WaitsForExit(Next(s, Call(who)).value, who) <==> s.pc == Finished
  {
    hide Run, ReturnsAfterExit, WaitsForExit, Inv;
    RunKeepsInv(actions);
    StepKeepsInv(s, Call(who));
    var t := Next(s, Call(who)).value;
    if s.pc == Finished {
      CalledAfterExit(t, who);
    } else {
      CalledBeforeExit(t, who);
    }
  }

  ghost predicate CalledLate(s: State, who: Caller) {
    Inv(s) && who in s.callers && s.pc == Finished
  }

  lemma CalledAfterExit(t: State, who: Caller)
    requires CalledLate(t, who)
    ensures WaitsForExit(t, who)
  {
    hide Run, ReturnsAfterExit;
    forall more
      ensures ReturnsAfterExit(t, more, who)
    {
      StaysFinished(t, more, who);
    }
  }

  lemma {:induction false} StaysFinished(t: State, more: seq<Action>, who: Caller)
    requires CalledLate(t, who)
    ensures Run(t, more).Some? ==> CalledLate(Run(t, more).value, who)
    ensures ReturnsAfterExit(t, more, who)
    decreases |more|
  {
    hide Inv, Next;
    if more != [] {
      var init := more[..|more| - 1];
      StaysFinished(t, init, who);
      if Run(t, more).Some? {
        StepKeepsCalledLate(Run(t, init).value, more[|more| - 1], who);
      }
    }
  }

  lemma CalledBeforeExit(t: State, who: Caller)
    requires Inv(t) && who in t.callers && t.callers[who].CheckRunning? && t.pc != Finished
    ensures !WaitsForExit(t, who)
  {
    hide Run, ReturnsAfterExit;
    NothingDone(t);
    var more, s := [], t;
    if t.running {
      more, s := StopFromOutside(t, who);
    }
    more, s := Extend(t, more, s, CallerStep(who));
    ReturnedEarly(t, more, s, who);
    assert !ReturnsAfterExit(t, more, who);
  }

  lemma ReturnedEarly(t: State, more: seq<Action>, s: State, who: Caller)
    requires Run(t, more) == Some(s) && who in s.callers && s.callers[who].Returned? && s.pc != Finished
    ensures !ReturnsAfterExit(t, more, who)
  {
  }

  lemma NothingDone(t: State)
    ensures Run(t, []) == Some(t)
  {
  }

  /** A running generator, cancelled from outside, comes to where the flag is cleared and the channel
      still open, before a call that has been made looks at the flag. */
  lemma StopFromOutside(t: State, who: Caller) returns (more: seq<Action>, s: State)
    requires Inv(t) && who in t.callers && t.running
    ensures Run(t, more) == Some(s) && s.callers == t.callers && !s.running && s.pc == SignalDone && s.done == 0
  {
    NothingDone(t);
    hide Run;
    more, s := Extend(t, [], t, CancelParent);
    if s.pc.SignalReady? || s.pc.Handle? {
      more, s := Extend(t, more, s, RunStep(true, false));
    }
    if s.pc.Select? {
      more, s := Extend(t, more, s, RunStep(true, false));
    }
    more, s := Extend(t, more, s, RunStep(true, false));
  }

  /** One more action at the end of a run. */
  lemma Extend(start: State, actions: seq<Action>, s: State, a: Action) returns (more: seq<Action>, t: State)
    requires Run(start, actions) == Some(s) && Next(s, a).Some?
    ensures more == actions + [a] && t == Next(s, a).value && Run(start, more) == Some(t)
  {
    more, t := actions + [a], Next(s, a).value;
    assert more[..|more| - 1] == actions;
  }

  /** The run comes to a check after which a call need not wait. */
  ghost predicate ComesToCheck(check: seq<Action>) {
    && Run(START, check).Some?
    && var s := Run(START, check).value;
       0 in s.callers && s.callers[0].CheckRunning? && !WaitsForExit(StepCaller(s, 0).value, 0)
  }

  /** And goes on to where the call has returned and `Run` has not exited. */
  ghost predicate HasReturnedAt(actions: seq<Action>, pc: RunPc) {
    && Run(START, actions).Some?
    && var s := Run(START, actions).value;
       0 in s.callers && s.callers[0] == Returned(false) && s.pc == pc && s.done == 0
       && (pc == Select ==> s.running && !ContextDone(s))
  }

  /** So it can return before `Run` has set the flag, and then nothing is even cancelled, ... */
  lemma ShutdownBeforeRunning() returns (check: seq<Action>, actions: seq<Action>)
    ensures ComesToCheck(check) && check <= actions && HasReturnedAt(actions, Select)
  {
    var s := START;
    check, s := Extend(START, [], s, RunStep(true, false));
    hide Run, WaitsForExit;
    check, s := Extend(START, check, s, RunStep(true, false));
    check, s := Extend(START, check, s, Call(0));
    ShutdownWaitsIffRunning(check, s, 0);
    actions, s := Extend(START, check, s, CallerStep(0));
    actions, s := Extend(START, actions, s, RunStep(true, false));
    actions, s := Extend(START, actions, s, RunStep(true, false));
  }

  /** ... and in the moment between clearing the flag and closing the channel. */
  lemma ShutdownWhileExiting() returns (check: seq<Action>, actions: seq<Action>)
    ensures ComesToCheck(check) && check <= actions && HasReturnedAt(actions, SignalDone)
  {
    var s: State;
    check, s := UpToSelect();
    hide Run, WaitsForExit;
    check, s := Extend(START, check, s, CancelParent);
    check, s := Extend(START, check, s, RunStep(true, false));
    check, s := Extend(START, check, s, RunStep(true, false));
    check, s := Extend(START, check, s, Call(0));
    ShutdownWaitsIffRunning(check, s, 0);
    actions, s := Extend(START, check, s, CallerStep(0));
  }

  lemma UpToSelect() returns (actions: seq<Action>, s: State)
    ensures Run(START, actions) == Some(s)
    ensures s == State(Select, true, true, false, false, 1, true, 0, false, map[])
  {
    s := START;
    actions, s := Extend(START, [], s, RunStep(true, false));
    hide Run;
    actions, s := Extend(START, actions, s, RunStep(true, false));
    actions, s := Extend(START, actions, s, RunStep(true, false));
    actions, s := Extend(START, actions, s, RunStep(true, false));
  }
}
