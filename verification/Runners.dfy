/** The life of the DAQInterface runner threads: a control block per runner, a stop that waits a
    bounded time and then abandons, and an interpreter that is torn down only when it is safe.

    The supervisor's calls come one at a time; the runners run concurrently with them and with
    each other, and any number of them may exist. */
module Runners {

  import opened Common

  /** Where a runner thread stands. `Unborn` has a block but no thread yet. */
  datatype RunnerPc = Unborn | Looping | InPython | Handling | Leaving | Gone

  /** The control block and the thread that shares it. */
  datatype Runner = Runner(running: bool, exited: bool, pc: RunnerPc)

  /** What a stop is part of. */
  datatype Purpose = JustStop | Restart | Destroy | Destruct

  datatype SupervisorPc =
    | Idle
    | Taken(id: nat, purpose: Purpose)                                  // block and thread moved out
    | Waiting(id: nat, purpose: Purpose)                                // running cleared, polling exited
    | Deciding(id: nat, purpose: Purpose)                               // exited seen, or the deadline passed
    | Stopped(result: bool, took: Option<nat>, purpose: Purpose)        // stop_runner_ returned
    | Spawning(id: nat)                                                 // new block made, thread not yet
    | Cleaning(purpose: Purpose)                                        // recover and Python cleanup
    | LastCheck                                                         // destructor, after destroy
    | Over(finalized: bool)

  datatype State = State(runners: seq<Runner>, tracked: Option<nat>, abandoned: bool, pc: SupervisorPc)

  /** How a pass through Python ends. */
  datatype Outcome = Fine | Raises | Escapes | NoInterface

  datatype Event =
    | Call(purpose: Purpose)                 // a call arrives while the supervisor is idle
    | Proceed(deadline: bool)                // the supervisor takes its next step
    | Thread(id: nat, outcome: Outcome)      // a runner takes its next step

  const START := State([], None, false, Idle)

  function RunnerStep(r: Runner, outcome: Outcome): Runner {
    match r.pc
    case Unborn => r
    case Looping => if r.running then r.(pc := InPython) else r.(pc := Leaving)
    case InPython =>
      (match outcome
       case Fine => r.(pc := Looping)
       case Raises => r.(running := false, pc := Handling)
       case Escapes => r.(pc := Handling)        // thrown by the state query, which clears nothing
       case NoInterface => r.(running := false, pc := Leaving))
    case Handling => r.(pc := Leaving)
    case Leaving => r.(exited := true, pc := Gone)
    case Gone => r
  }

  function Begin(s: State, purpose: Purpose): State {
    match s.tracked
    case None => s.(pc := Stopped(true, None, purpose))
    case Some(id) => s.(tracked := None, pc := Taken(id, purpose))
  }

  function SupervisorStep(s: State, deadline: bool): State {
    match s.pc
    case Idle => s
    case Taken(id, purpose) =>
      if id < |s.runners|
      then s.(runners := s.runners[id := s.runners[id].(running := false)], pc := Waiting(id, purpose))
      else s
    case Waiting(id, purpose) =>
      if id < |s.runners| && (s.runners[id].exited || deadline) then s.(pc := Deciding(id, purpose)) else s
    case Deciding(id, purpose) =>
      if id < |s.runners| && s.runners[id].exited then s.(pc := Stopped(true, Some(id), purpose))
      else s.(abandoned := true, pc := Stopped(false, Some(id), purpose))
    case Stopped(result, _, purpose) =>
      (match purpose
       case JustStop => s.(pc := Idle)
       case Restart =>
         s.(runners := s.runners + [Runner(true, false, Unborn)], tracked := Some(|s.runners|), pc := Spawning(|s.runners|))
       case Destroy => if !result || s.abandoned then s.(pc := Idle) else s.(pc := Cleaning(purpose))
       case Destruct => if !result || s.abandoned then s.(pc := LastCheck) else s.(pc := Cleaning(purpose)))
    case Spawning(id) =>
      if id < |s.runners| then s.(runners := s.runners[id := s.runners[id].(pc := Looping)], pc := Idle) else s
    case Cleaning(purpose) => if purpose.Destruct? then s.(pc := LastCheck) else s.(pc := Idle)
    case LastCheck => s.(pc := Over(!s.abandoned))
    case Over(_) => s
  }

  function Step(s: State, e: Event): State {
    match e
    case Call(purpose) => if s.pc.Idle? then Begin(s, purpose) else s
    case Proceed(deadline) => SupervisorStep(s, deadline)
    case Thread(id, outcome) =>
      if id < |s.runners| then s.(runners := s.runners[id := RunnerStep(s.runners[id], outcome)]) else s
  }

  /** The state after a history; an event that is not possible leaves it as it is. */
  function Run(s: State, history: seq<Event>): State {
    if history == [] then s else Step(Run(s, history[..|history| - 1]), history[|history| - 1])
  }

  // ---------------------------------------------------------------------------
  // The invariant
  // ---------------------------------------------------------------------------

  /** The runner a stop is dealing with. */
  predicate HeldByStop(s: State, id: nat) {
    (s.pc.Taken? || s.pc.Waiting? || s.pc.Deciding?) && s.pc.id == id
  }

  /** Nobody looks after this runner any more. */
  predicate Untracked(s: State, id: nat) {
    s.tracked != Some(id) && !HeldByStop(s, id)
  }

  ghost predicate AllGone(s: State) {
    forall id :: 0 <= id < |s.runners| ==> s.runners[id].pc.Gone?
  }

  ghost predicate Inv(s: State) {
    && (forall id :: 0 <= id < |s.runners| ==> (s.runners[id].exited <==> s.runners[id].pc.Gone?))
    && (s.tracked.Some? ==> s.tracked.value < |s.runners| && (s.pc.Idle? || s.pc.Spawning?))
    && ((s.pc.Taken? || s.pc.Waiting? || s.pc.Deciding?) ==> s.pc.id < |s.runners|)
    && ((s.pc.Waiting? || s.pc.Deciding?) ==> !s.runners[s.pc.id].running)
    && (forall id :: 0 <= id < |s.runners| && Untracked(s, id) ==>
          !s.runners[id].running && (s.runners[id].exited || s.abandoned))
    && (s.pc.Stopped? && s.pc.result && s.pc.took.Some? ==>
          s.pc.took.value < |s.runners| && s.runners[s.pc.took.value].exited)
    && (s.pc.Stopped? && !s.pc.result ==> s.abandoned)
    && (s.pc.Spawning? ==> s.tracked == Some(s.pc.id) && s.runners[s.pc.id].pc.Unborn?)
    && (s.pc.Cleaning? ==> !s.abandoned)
    && (s.pc.Over? && s.pc.finalized ==> !s.abandoned)
  }

  lemma SupervisorKeepsInv(s: State, e: Event)
    requires Inv(s) && !e.Thread?
    ensures Inv(Step(s, e))
  {
    if e.Proceed? { ProceedKeepsInv(s, e.deadline); }
  }

  lemma ProceedKeepsInv(s: State, deadline: bool)
    requires Inv(s)
    ensures Inv(SupervisorStep(s, deadline))
  {
    var t := SupervisorStep(s, deadline);
    assert forall id :: 0 <= id < |s.runners| ==>
      id < |t.runners| && t.runners[id].exited == s.runners[id].exited;
  }

  lemma RunnerKeepsInv(s: State, id: nat, outcome: Outcome)
    requires Inv(s)
    ensures Inv(Step(s, Thread(id, outcome)))
  {
    var t := Step(s, Thread(id, outcome));
    forall k | 0 <= k < |t.runners| && Untracked(t, k)
      ensures !t.runners[k].running && (t.runners[k].exited || t.abandoned)
    {
      assert Untracked(s, k);
    }
  }

  lemma {:induction false} HistoryKeepsInv(history: seq<Event>)
    ensures Inv(Run(START, history))
  {
    if history != [] {
      var before := history[..|history| - 1];
      var e := history[|history| - 1];
      HistoryKeepsInv(before);
      if e.Thread? {
        RunnerKeepsInv(Run(START, before), e.id, e.outcome);
      } else {
        SupervisorKeepsInv(Run(START, before), e);
      }
    }
  }

  // ---------------------------------------------------------------------------
  // What every history guarantees
  // ---------------------------------------------------------------------------

  /** At most one runner is asked to run; a runner nobody tracks has been told to stop and has
      exited or is on record as abandoned; a stop that returned true was about a runner that
      exited; and whenever the interpreter is cleaned up or finalized, every runner that ever
      existed is gone. */
  lemma RunnerSafety(history: seq<Event>)
    ensures var s := Run(START, history);
      && (forall i, k :: 0 <= i < |s.runners| && 0 <= k < |s.runners| && s.runners[i].running && s.runners[k].running ==> i == k)
      && (forall id :: 0 <= id < |s.runners| && Untracked(s, id) ==>
            !s.runners[id].running && (s.runners[id].exited || s.abandoned))
      && (s.pc.Stopped? && s.pc.result && s.pc.took.Some? ==>
            s.pc.took.value < |s.runners| && s.runners[s.pc.took.value].pc.Gone?)
      && (s.pc.Cleaning? ==> AllGone(s))
      && (s.pc.Over? && s.pc.finalized ==> AllGone(s))
  {
    HistoryKeepsInv(history);
    var s := Run(START, history);
    assert s.pc.Cleaning? || s.pc.Over? ==> forall id :: 0 <= id < |s.runners| ==> Untracked(s, id);
  }

  /** Once gone, always gone: an exited runner never re-enters Python, whatever happens later. */
  lemma {:induction false} GoneForGood(s: State, history: seq<Event>, id: nat)
    requires Inv(s) && id < |s.runners| && s.runners[id].pc.Gone?
    ensures id < |Run(s, history).runners| && Run(s, history).runners[id].pc.Gone?
    ensures Inv(Run(s, history))
  {
    if history != [] {
      var before := history[..|history| - 1];
      var e := history[|history| - 1];
      GoneForGood(s, before, id);
      StepKeepsGone(Run(s, before), e, id);
      StepKeepsInv(Run(s, before), e);
    }
  }

  lemma StepKeepsInv(s: State, e: Event)
    requires Inv(s)
    ensures Inv(Step(s, e))
  {
    if e.Thread? { RunnerKeepsInv(s, e.id, e.outcome); } else { SupervisorKeepsInv(s, e); }
  }

  lemma StepKeepsGone(s: State, e: Event, id: nat)
    requires Inv(s) && id < |s.runners| && s.runners[id].pc.Gone?
    ensures id < |Step(s, e).runners| && Step(s, e).runners[id].pc.Gone?
  {
  }

  /** A stop is bounded: however the runners behave, the supervisor's own three steps bring it
      back, and it waits for a thread's end only when that thread has already exited. */
  lemma StopReturns(s: State)
    requires Inv(s) && s.pc.Taken?
    ensures var t := Step(Step(Step(s, Proceed(true)), Proceed(true)), Proceed(true));
      && t.pc.Stopped? && t.pc.took == Some(s.pc.id) && t.pc.purpose == s.pc.purpose
      && t.pc.result == s.runners[s.pc.id].exited && t.abandoned == (s.abandoned || !t.pc.result)
  {
    var a := Step(s, Proceed(true));
    var b := Step(a, Proceed(true));
    assert b == a.(pc := Deciding(s.pc.id, s.pc.purpose));
  }

  /** Abandonment is never forgotten, so no later call can finalize the interpreter. */
  lemma {:induction false} AbandonedForGood(s: State, history: seq<Event>)
    requires Inv(s) && s.abandoned && !s.pc.Over?
    ensures Run(s, history).abandoned && Inv(Run(s, history))
    ensures Run(s, history).pc != Over(true) && !Run(s, history).pc.Cleaning?
  {
    if history != [] {
      var before := history[..|history| - 1];
      var e := history[|history| - 1];
      AbandonedForGood(s, before);
      var t := Run(s, before);
      if e.Thread? { RunnerKeepsInv(t, e.id, e.outcome); } else { SupervisorKeepsInv(t, e); }
    }
  }

  // ---------------------------------------------------------------------------
  // What every call comes to, whatever the runners do in the meantime
  // ---------------------------------------------------------------------------

  /** Steps of runners only. */
  ghost predicate ThreadsOnly(events: seq<Event>) {
    forall i :: 0 <= i < |events| ==> events[i].Thread?
  }

  lemma {:induction false} SupervisorWaits(s: State, events: seq<Event>)
    requires Inv(s) && ThreadsOnly(events)
    ensures var t := Run(s, events);
      && Inv(t) && t.pc == s.pc && t.tracked == s.tracked && t.abandoned == s.abandoned && |t.runners| == |s.runners|
      && forall id :: 0 <= id < |s.runners| && s.runners[id].pc.Unborn? ==> t.runners[id] == s.runners[id]
  {
    if events != [] {
      var before, e := events[..|events| - 1], events[|events| - 1];
      SupervisorWaits(s, before);
      assert e.Thread?;
      RunnerKeepsInv(Run(s, before), e.id, e.outcome);
    }
  }

  /** The supervisor's next step, at the deadline if it waits, after any steps of the runners. */
  function Round(s: State, events: seq<Event>): State {
    Step(Run(s, events), Proceed(true))
  }

  function Rounds(s: State, rounds: seq<seq<Event>>): State
    decreases |rounds|
  {
    if rounds == [] then s else Rounds(Round(s, rounds[0]), rounds[1..])
  }

  ghost predicate AllThreads(rounds: seq<seq<Event>>) {
    forall i :: 0 <= i < |rounds| ==> ThreadsOnly(rounds[i])
  }

  lemma NextRound(s: State, rounds: seq<seq<Event>>, i: nat)
    requires i < |rounds|
    ensures Rounds(s, rounds[i..]) == Rounds(Round(s, rounds[i]), rounds[i + 1..])
  {
    assert rounds[i..][0] == rounds[i] && rounds[i..][1..] == rounds[i + 1..];
  }

  lemma RoundKeepsInv(s: State, events: seq<Event>)
    requires Inv(s) && ThreadsOnly(events)
    ensures Inv(Round(s, events))
  {
    SupervisorWaits(s, events);
    SupervisorKeepsInv(Run(s, events), Proceed(true));
  }

  /** A stop ends after three steps of the supervisor, with the runner it took gone or on record. */
  lemma StopEnds(s: State, rounds: seq<seq<Event>>)
    requires Inv(s) && s.pc.Taken? && |rounds| >= 3 && AllThreads(rounds)
    ensures var t := Round(Round(Round(s, rounds[0]), rounds[1]), rounds[2]);
      && Rounds(s, rounds) == Rounds(t, rounds[3..])
      && Inv(t) && t.pc.Stopped? && t.pc.took == Some(s.pc.id) && t.pc.purpose == s.pc.purpose
      && |t.runners| == |s.runners| && t.abandoned == (s.abandoned || !t.pc.result)
      && (t.pc.result <==> t.runners[s.pc.id].exited)
  {
    var a := Round(s, rounds[0]);
    var b := Round(a, rounds[1]);
    SupervisorWaits(s, rounds[0]);
    RoundKeepsInv(s, rounds[0]);
    SupervisorWaits(a, rounds[1]);
    RoundKeepsInv(a, rounds[1]);
    SupervisorWaits(b, rounds[2]);
    RoundKeepsInv(b, rounds[2]);
    assert rounds[0..] == rounds;
    NextRound(s, rounds, 0);
    NextRound(a, rounds, 1);
    NextRound(b, rounds, 2);
  }

  /** A new control block and a thread that starts its loop with it. */
  lemma StartMakesRunner(s: State, first: seq<Event>, second: seq<Event>)
    requires Inv(s) && s.pc.Stopped? && s.pc.purpose == Restart && ThreadsOnly(first) && ThreadsOnly(second)
    ensures var t := Round(Round(s, first), second);
      && t.pc == Idle && t.tracked == Some(|s.runners|) && |t.runners| == |s.runners| + 1
      && t.runners[|s.runners|] == Runner(true, false, Looping)
  {
    SupervisorWaits(s, first);
    RoundKeepsInv(s, first);
    var a := Round(s, first);
    assert a.runners[|s.runners|] == Runner(true, false, Unborn);
    SupervisorWaits(a, second);
  }

  /** How many steps the stop at the beginning of a call takes. */
  function StopSteps(s: State): nat {
    if s.tracked.None? then 0 else 3
  }

  /** The call as far as its stop has returned. */
  lemma CallStops(s: State, purpose: Purpose, rounds: seq<seq<Event>>) returns (t: State)
    requires Inv(s) && s.pc.Idle? && |rounds| >= StopSteps(s) && AllThreads(rounds)
    ensures Rounds(Step(s, Call(purpose)), rounds) == Rounds(t, rounds[StopSteps(s)..])
    ensures Inv(t) && t.pc.Stopped? && t.pc.purpose == purpose && |t.runners| == |s.runners|
    ensures t.abandoned == (s.abandoned || !t.pc.result)
    ensures t.pc.result <==> s.tracked.None? || (s.tracked.value < |t.runners| && t.runners[s.tracked.value].exited)
  {
    t := Step(s, Call(purpose));
    SupervisorKeepsInv(s, Call(purpose));
    if s.tracked.None? {
      assert rounds[0..] == rounds;
    } else {
      StopEnds(t, rounds);
      t := Round(Round(Round(t, rounds[0]), rounds[1]), rounds[2]);
    }
  }

  /** A start, whatever its stop returned, ends with a new runner that is tracked, asked to run and in its
      loop. */
  lemma RestartEnds(s: State, rounds: seq<seq<Event>>)
    requires Inv(s) && s.pc.Idle? && |rounds| == StopSteps(s) + 2 && AllThreads(rounds)
    ensures var t := Rounds(Step(s, Call(Restart)), rounds);
      && t.pc == Idle && t.tracked == Some(|s.runners|) && |t.runners| == |s.runners| + 1
      && t.runners[|s.runners|] == Runner(true, false, Looping)
  {
    var n := StopSteps(s);
    var u := CallStops(s, Restart, rounds);
    NextRound(u, rounds, n);
    NextRound(Round(u, rounds[n]), rounds, n + 1);
    assert rounds[n + 2..] == [];
    StartMakesRunner(u, rounds[n], rounds[n + 1]);
  }

  /** A mere stop goes back to waiting for calls. */
  lemma StopCallEnds(s: State, rounds: seq<seq<Event>>)
    requires Inv(s) && s.pc.Idle? && |rounds| == StopSteps(s) + 1 && AllThreads(rounds)
    ensures var t := Rounds(Step(s, Call(JustStop)), rounds);
      && t.pc == Idle && t.tracked == None && |t.runners| == |s.runners|
      && (s.tracked.None? ==> t.abandoned == s.abandoned)
  {
    var n := StopSteps(s);
    var u := CallStops(s, JustStop, rounds);
    NextRound(u, rounds, n);
    assert rounds[n + 1..] == [];
    SupervisorWaits(u, rounds[n]);
    RoundKeepsInv(u, rounds[n]);
  }

  /** Destroying recovers and cleans up Python if and only if, its own stop included, nothing was ever
      abandoned; otherwise it is over at once. */
  lemma DestroyEnds(s: State, rounds: seq<seq<Event>>)
    requires Inv(s) && s.pc.Idle? && |rounds| == StopSteps(s) + 1 && AllThreads(rounds)
    ensures var t := Rounds(Step(s, Call(Destroy)), rounds);
      && t.pc == (if t.abandoned then Idle else Cleaning(Destroy))
      && (s.tracked.None? ==> t.abandoned == s.abandoned)
  {
    var n := StopSteps(s);
    var u := CallStops(s, Destroy, rounds);
    NextRound(u, rounds, n);
    assert rounds[n + 1..] == [];
    SupervisorWaits(u, rounds[n]);
  }

  /** The destructor finalizes the interpreter if and only if, its own stop included, nothing was ever
      abandoned. */
  lemma DestructEnds(s: State, rounds: seq<seq<Event>>)
    requires Inv(s) && s.pc.Idle? && |rounds| == StopSteps(s) + 3 && AllThreads(rounds)
    ensures var t := Rounds(Step(s, Call(Destruct)), rounds);
      t.pc == Over(!t.abandoned) && (s.tracked.None? ==> t.abandoned == s.abandoned)
  {
    var n := StopSteps(s);
    var u := CallStops(s, Destruct, rounds);
    SupervisorWaits(u, rounds[n]);
    RoundKeepsInv(u, rounds[n]);
    var a := Round(u, rounds[n]);
    SupervisorWaits(a, rounds[n + 1]);
    RoundKeepsInv(a, rounds[n + 1]);
    var b := Round(a, rounds[n + 1]);
    SupervisorWaits(b, rounds[n + 2]);
    NextRound(u, rounds, n);
    NextRound(a, rounds, n + 1);
    NextRound(b, rounds, n + 2);
    assert rounds[n + 3..] == [];
  }

  /** A runner that is asked to run and whose passes go well goes round and round. */
  lemma {:induction false} StaysInLoop(s: State, events: seq<Event>, id: nat)
    requires id < |s.runners| && s.runners[id].running && (s.runners[id].pc == Looping || s.runners[id].pc == InPython)
    requires ThreadsOnly(events) && forall i :: 0 <= i < |events| && events[i].id == id ==> events[i].outcome == Fine
    ensures id < |Run(s, events).runners|
    ensures var r := Run(s, events).runners[id];
      && r.running && (r.pc == Looping || r.pc == InPython)
      && RunnerStep(r, Fine) == Runner(true, r.exited, if r.pc == Looping then InPython else Looping)
  {
    if events != [] { StaysInLoop(s, events[..|events| - 1], id); }
  }

  /** A pass that fails ends the runner: two steps later it is gone, and its control block says stopped unless
      what failed was the state query. */
  lemma FailureEnds(r: Runner, o: Outcome, a: Outcome, b: Outcome)
    requires r.pc == InPython && o != Fine
    ensures RunnerStep(RunnerStep(RunnerStep(r, o), a), b) == Runner(r.running && o == Escapes, true, Gone)
  {
  }

  /** A runner that is told to stop is gone after three steps of its own, unless it has none to take. */
  lemma LeavesInThree(r: Runner, a: Outcome, b: Outcome, c: Outcome)
    requires !r.running && r.pc != Unborn && (r.exited <==> r.pc == Gone)
    ensures RunnerStep(RunnerStep(RunnerStep(r, a), b), c) == Runner(false, true, Gone)
  {
  }

  // ---------------------------------------------------------------------------
  // The polling loop of one runner
  // ---------------------------------------------------------------------------

  const MAX_CONSECUTIVE_STATUS_FAILURES := 5

  /** One pass of the loop: no poll in this state, a poll that raised, or an answer, with the
      state found changed afterwards or not. */
  datatype Poll = NotPolled | Raised | Answered(confirmed: bool, changed: bool)

  /** The answers of the passes that polled and got one, in order. */
  function Answers(polls: seq<Poll>): seq<bool> {
    if polls == [] then []
    else
      var p := polls[|polls| - 1];
      Answers(polls[..|polls| - 1]) + if p.Answered? then [p.confirmed] else []
  }

  /** The last `n` of the answers all failed. */
  ghost predicate FailuresEnd(answers: seq<bool>, n: nat) {
    |answers| >= n && forall k :: |answers| - n <= k < |answers| ==> !answers[k]
  }

  /** Pass i ends the runner with an error. */
  ghost predicate Fatal(polls: seq<Poll>, i: nat)
    requires i < |polls|
  {
    match polls[i]
    case NotPolled => false
    case Raised => true
    case Answered(confirmed, changed) => changed || (!confirmed && FailuresEnd(Answers(polls[..i + 1]), MAX_CONSECUTIVE_STATUS_FAILURES))
  }

  /** The loop with its failure counter stops at the first fatal pass and at no other. */
  method PollUntilFatal(polls: seq<Poll>) returns (n: nat)
    ensures n <= |polls| && (n < |polls| ==> Fatal(polls, n))
    ensures forall i :: 0 <= i < n ==> !Fatal(polls, i)
  {
    var failures := 0;
    n := 0;
    while n < |polls|
      invariant n <= |polls| && failures < MAX_CONSECUTIVE_STATUS_FAILURES
      invariant forall i :: 0 <= i < n ==> !Fatal(polls, i)
      invariant FailuresEnd(Answers(polls[..n]), failures) && !FailuresEnd(Answers(polls[..n]), failures + 1)
    {
      assert polls[..n + 1][..n] == polls[..n];
      ghost var answers := Answers(polls[..n]);
      match polls[n] {
        case NotPolled =>
          assert Answers(polls[..n + 1]) == answers;
        case Raised => return;
        case Answered(confirmed, changed) =>
          assert Answers(polls[..n + 1]) == answers + [confirmed];
          if confirmed {
            failures := 0;
            assert (answers + [confirmed])[|answers|];
          } else {
            AnotherFailure(answers, failures);
            failures := failures + 1;
            if failures >= MAX_CONSECUTIVE_STATUS_FAILURES { return; }
          }
          if changed { return; }
      }
      n := n + 1;
    }
  }

  lemma AnotherFailure(answers: seq<bool>, n: nat)
    requires FailuresEnd(answers, n) && !FailuresEnd(answers, n + 1)
    ensures FailuresEnd(answers + [false], n + 1)
    ensures forall m :: m > n + 1 ==> !FailuresEnd(answers + [false], m)
  {
    forall m | m > n + 1 ensures !FailuresEnd(answers + [false], m) {
      if |answers| > n {
        assert (answers + [false])[|answers| - n - 1];
      }
    }
  }
}
