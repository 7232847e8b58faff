/**
 The engine side of the command bus (internal/cmdbus/server.go).

 The subscription runs its callback for one message at a time; the callback
 answers what it cannot decode, otherwise waits for one of `max` slots and hands
 the command to a goroutine. The phases of a message below are the points between
 which other goroutines can run. A message is named by its order of delivery.
 */
module CommandBus {
  type Message = nat

  const DEFAULT_MAX_IN_FLIGHT: nat := 1024

  datatype Phase =
    | Waiting      // decoded; the callback blocks on the semaphore
    | Slotted      // slot taken, wait group not raised yet
    | Running      // a goroutine is in serve
    | Answered     // replied, slot still held
    | Released     // slot given back, wait group not lowered yet
    | Finished

  datatype Closing = Open | Draining | Closed

  /** `slots` is the length of the channel, `group` the wait group's counter, `replies` the history of replies
   sent, `errors` of those that said the message could not be decoded or its handler panicked. */
  datatype State = State(max: nat, phases: seq<Phase>, slots: nat, group: nat, replies: seq<Message>, errors: set<Message>, closing: Closing)

  datatype Step =
    | Deliver(decodable: bool)
    | TakeSlot(message: Message)
    | Start(message: Message)
    | Reply(message: Message, panicked: bool)
    | Release(message: Message)
    | Finish(message: Message)
    | BeginClose
    | EndClose

  predicate Is(s: State, m: Message, p: Phase) {
    m < |s.phases| && s.phases[m] == p
  }

  /** The callback is still inside handle. */
  predicate CallbackBusy(s: State) {
    exists m :: 0 <= m < |s.phases| && (s.phases[m] == Waiting || s.phases[m] == Slotted)
  }

  function Apply(s: State, step: Step): State {
    match step
    case Deliver(decodable) =>
      if CallbackBusy(s) then s
      else if decodable then s.(phases := s.phases + [Waiting])
      else s.(phases := s.phases + [Finished], replies := s.replies + [|s.phases|], errors := s.errors + {|s.phases|})
    case TakeSlot(m) =>
      if Is(s, m, Waiting) && s.slots < s.max then s.(phases := s.phases[m := Slotted], slots := s.slots + 1) else s
    case Start(m) =>
      if Is(s, m, Slotted) then s.(phases := s.phases[m := Running], group := s.group + 1) else s
    case Reply(m, panicked) =>
      // dispatch replies; a panic is recovered and replied to as an internal error
      if Is(s, m, Running)
      then s.(phases := s.phases[m := Answered], replies := s.replies + [m], errors := if panicked then s.errors + {m} else s.errors)
      else s
    case Release(m) =>
      if Is(s, m, Answered) && s.slots > 0 then s.(phases := s.phases[m := Released], slots := s.slots - 1) else s
    case Finish(m) =>
      if Is(s, m, Released) && s.group > 0 then s.(phases := s.phases[m := Finished], group := s.group - 1) else s
    case BeginClose => if s.closing.Open? then s.(closing := Draining) else s
    case EndClose => if s.closing.Draining? && s.group == 0 then s.(closing := Closed) else s
  }

  /** What the server does by itself, one message at a time. */
  predicate ServerStep(step: Step) {
    step.TakeSlot? || step.Start? || step.Reply? || step.Release? || step.Finish?
  }

  function Run(s: State, steps: seq<Step>): State
    decreases |steps|
  {
    if steps == [] then s else Run(Apply(s, steps[0]), steps[1..])
  }

  // ---------------------------------------------------------------- counting

  const HOLDING := {Slotted, Running, Answered}
  const GROUPED := {Running, Answered, Released}

  function Count(phases: seq<Phase>, ps: set<Phase>): nat {
    if phases == [] then 0
    else Count(phases[..|phases| - 1], ps) + if phases[|phases| - 1] in ps then 1 else 0
  }

  lemma CountAppend(phases: seq<Phase>, p: Phase, ps: set<Phase>)
    ensures Count(phases + [p], ps) == Count(phases, ps) + if p in ps then 1 else 0
  {
    assert (phases + [p])[..|phases|] == phases;
  }

  lemma {:induction false} CountUpdate(phases: seq<Phase>, m: nat, p: Phase, ps: set<Phase>)
    requires m < |phases|
    ensures Count(phases[m := p], ps) ==
      Count(phases, ps) - (if phases[m] in ps then 1 else 0) + if p in ps then 1 else 0
    decreases |phases|
  {
    var n := |phases| - 1;
    if m < n {
      CountUpdate(phases[..n], m, p, ps);
      assert phases[m := p][..n] == phases[..n][m := p];
    } else {
      assert phases[m := p][..n] == phases[..n];
    }
  }

  lemma {:induction false} CountPositive(phases: seq<Phase>, m: nat, ps: set<Phase>)
    requires m < |phases| && phases[m] in ps
    ensures Count(phases, ps) > 0
    decreases |phases|
  {
    if m < |phases| - 1 { CountPositive(phases[..|phases| - 1], m, ps); }
  }

  lemma {:induction false} CountMonotone(phases: seq<Phase>, ps: set<Phase>, qs: set<Phase>)
    requires ps <= qs
    ensures Count(phases, ps) <= Count(phases, qs)
    decreases |phases|
  {
    if phases != [] { CountMonotone(phases[..|phases| - 1], ps, qs); }
  }

  lemma {:induction false} CountDisjoint(phases: seq<Phase>, ps: set<Phase>, qs: set<Phase>)
    requires ps !! qs
    ensures Count(phases, ps + qs) == Count(phases, ps) + Count(phases, qs)
    decreases |phases|
  {
    if phases != [] { CountDisjoint(phases[..|phases| - 1], ps, qs); }
  }

  lemma {:induction false} CountAll(phases: seq<Phase>)
    ensures Count(phases, {Waiting, Slotted, Running, Answered, Released, Finished}) == |phases|
    decreases |phases|
  {
    if phases != [] {
      CountAll(phases[..|phases| - 1]);
      var p := phases[|phases| - 1];
      assert p == Waiting || p == Slotted || p == Running || p == Answered || p == Released || p == Finished;
    }
  }

  // ---------------------------------------------------------------- invariant

  predicate Replied(p: Phase) {
    p == Answered || p == Released || p == Finished
  }

  /** Replied to once if the message is past its reply, not at all before. */
  ghost predicate RepliesSound(s: State) {
    && (forall m: nat :: m in s.replies <==> m < |s.phases| && Replied(s.phases[m]))
    && (forall m :: m in s.errors ==> m in s.replies)
    && (forall i, j :: 0 <= i < j < |s.replies| ==> s.replies[i] != s.replies[j])
  }

  ghost predicate CallbackSerial(s: State) {
    forall m :: 0 <= m < |s.phases| - 1 ==> s.phases[m] != Waiting && s.phases[m] != Slotted
  }

  ghost predicate CountsSound(s: State) {
    s.slots == Count(s.phases, HOLDING) && s.group == Count(s.phases, GROUPED) && s.slots <= s.max
  }

  ghost predicate Inv(s: State) {
    RepliesSound(s) && CallbackSerial(s) && CountsSound(s)
  }

  lemma MoveKeepsCounts(s: State, m: Message, p: Phase)
    requires m < |s.phases|
    ensures Count(s.phases[m := p], HOLDING) ==
      Count(s.phases, HOLDING) - (if s.phases[m] in HOLDING then 1 else 0) + if p in HOLDING then 1 else 0
    ensures Count(s.phases[m := p], GROUPED) ==
      Count(s.phases, GROUPED) - (if s.phases[m] in GROUPED then 1 else 0) + if p in GROUPED then 1 else 0
    ensures s.phases[m] in HOLDING ==> Count(s.phases, HOLDING) > 0
    ensures s.phases[m] in GROUPED ==> Count(s.phases, GROUPED) > 0
  {
    CountUpdate(s.phases, m, p, HOLDING);
    CountUpdate(s.phases, m, p, GROUPED);
    if s.phases[m] in HOLDING { CountPositive(s.phases, m, HOLDING); }
    if s.phases[m] in GROUPED { CountPositive(s.phases, m, GROUPED); }
  }

  lemma AppendKeepsCounts(phases: seq<Phase>, p: Phase)
    requires p == Waiting || p == Finished
    ensures Count(phases + [p], HOLDING) == Count(phases, HOLDING)
    ensures Count(phases + [p], GROUPED) == Count(phases, GROUPED)
  {
    CountAppend(phases, p, HOLDING);
    CountAppend(phases, p, GROUPED);
  }

  lemma DeliverKeepsCounts(s: State, decodable: bool)
    requires CountsSound(s)
    ensures CountsSound(Apply(s, Deliver(decodable)))
  {
    AppendKeepsCounts(s.phases, Waiting);
    AppendKeepsCounts(s.phases, Finished);
  }

  lemma TakeSlotKeepsCounts(s: State, m: Message)
    requires CountsSound(s) && m < |s.phases|
    ensures CountsSound(Apply(s, TakeSlot(m)))
  {
    MoveKeepsCounts(s, m, Slotted);
  }

  lemma StartKeepsCounts(s: State, m: Message)
    requires CountsSound(s) && m < |s.phases|
    ensures CountsSound(Apply(s, Start(m)))
  {
    MoveKeepsCounts(s, m, Running);
  }

  lemma ReplyKeepsCounts(s: State, m: Message, panicked: bool)
    requires CountsSound(s) && m < |s.phases|
    ensures CountsSound(Apply(s, Reply(m, panicked)))
  {
    MoveKeepsCounts(s, m, Answered);
  }

  lemma ReleaseKeepsCounts(s: State, m: Message)
    requires CountsSound(s) && m < |s.phases|
    ensures CountsSound(Apply(s, Release(m)))
  {
    MoveKeepsCounts(s, m, Released);
  }

  lemma FinishKeepsCounts(s: State, m: Message)
    requires CountsSound(s) && m < |s.phases|
    ensures CountsSound(Apply(s, Finish(m)))
  {
    MoveKeepsCounts(s, m, Finished);
  }

  lemma StepKeepsCounts(s: State, step: Step)
    requires CountsSound(s)
    ensures CountsSound(Apply(s, step))
  {
    if step.Deliver? {
      DeliverKeepsCounts(s, step.decodable);
    } else if ServerStep(step) && step.message < |s.phases| {
      match step
      case TakeSlot(m) => TakeSlotKeepsCounts(s, m);
      case Start(m) => StartKeepsCounts(s, m);
      case Reply(m, panicked) => ReplyKeepsCounts(s, m, panicked);
      case Release(m) => ReleaseKeepsCounts(s, m);
      case Finish(m) => FinishKeepsCounts(s, m);
    }
  }

  lemma StepKeepsReplies(s: State, step: Step)
    requires RepliesSound(s)
    ensures RepliesSound(Apply(s, step))
  {
    var s' := Apply(s, step);
    if s'.replies != s.replies {
      var m := if step.Reply? then step.message else |s.phases|;
      assert s'.replies == s.replies + [m] && m !in s.replies;
    }
  }

  lemma StepKeepsSerial(s: State, step: Step)
    requires CallbackSerial(s)
    ensures CallbackSerial(Apply(s, step))
  {
  }

  lemma {:induction false} RunKeepsInv(s: State, steps: seq<Step>)
    requires Inv(s)
    ensures Inv(Run(s, steps)) && Run(s, steps).max == s.max
    decreases |steps|
  {
    if steps != [] {
      StepKeepsCounts(s, steps[0]);
      StepKeepsReplies(s, steps[0]);
      StepKeepsSerial(s, steps[0]);
      RunKeepsInv(Apply(s, steps[0]), steps[1..]);
    }
  }

  /**
   At every moment of every run at most `max` commands are in the engine, every
   message is replied to at most once and is either replied to, running or waiting,
   and at most one message is waiting.
   */
  lemma EveryRunKeepsTheBus(max: nat, steps: seq<Step>)
    ensures var s := Run(State(max, [], 0, 0, [], {}, Open), steps);
      && Count(s.phases, {Running}) <= s.slots <= max
      && (forall i, j :: 0 <= i < j < |s.replies| ==> s.replies[i] != s.replies[j])
      && (forall m :: 0 <= m < |s.phases| ==> (m in s.replies <==> Replied(s.phases[m])))
      && (forall m :: m in s.errors ==> m in s.replies)
      && |s.phases| == Count(s.phases, {Answered, Released, Finished}) + Count(s.phases, {Running}) + Count(s.phases, {Waiting, Slotted})
      && Count(s.phases, {Waiting, Slotted}) <= 1
  {
    var s0 := State(max, [], 0, 0, [], {}, Open);
    RunKeepsInv(s0, steps);
    var s := Run(s0, steps);
    CountMonotone(s.phases, {Running}, HOLDING);
    CountAll(s.phases);
    CountDisjoint(s.phases, {Answered, Released, Finished}, {Running});
    CountDisjoint(s.phases, {Answered, Released, Finished} + {Running}, {Waiting, Slotted});
    assert {Answered, Released, Finished} + {Running} + {Waiting, Slotted} == {Waiting, Slotted, Running, Answered, Released, Finished};
    AtMostOneWaiting(s.phases);
  }

  lemma {:induction false} AtMostOneWaiting(phases: seq<Phase>)
    requires forall m :: 0 <= m < |phases| - 1 ==> phases[m] != Waiting && phases[m] != Slotted
    ensures Count(phases, {Waiting, Slotted}) <= 1
  {
    if phases != [] { NoneWaiting(phases[..|phases| - 1]); }
  }

  lemma {:induction false} NoneWaiting(phases: seq<Phase>)
    requires forall m :: 0 <= m < |phases| ==> phases[m] != Waiting && phases[m] != Slotted
    ensures Count(phases, {Waiting, Slotted}) == 0
  {
    if phases != [] { NoneWaiting(phases[..|phases| - 1]); }
  }

  /** Nothing the server itself can do changes the state. */
  ghost predicate Quiescent(s: State) {
    forall m: nat :: Idle(s, m)
  }

  predicate Idle(s: State, m: Message) {
    Apply(s, TakeSlot(m)) == s && Apply(s, Start(m)) == s && Apply(s, Reply(m, false)) == s &&
    Apply(s, Release(m)) == s && Apply(s, Finish(m)) == s
  }

  lemma UpdateSame(phases: seq<Phase>, m: nat, p: Phase)
    requires m < |phases|
    ensures phases[m := p] == phases ==> phases[m] == p
  {
  }

  /** No deadlock: the server only comes to rest once every delivered message has been replied to, exactly once. */
  lemma RestMeansAnswered(s: State)
    requires Inv(s) && s.max > 0 && Quiescent(s)
    ensures forall m :: 0 <= m < |s.phases| ==> s.phases[m] == Finished && m in s.replies
    ensures |s.replies| == |s.phases| && s.slots == 0 && s.group == 0
  {
    forall m: nat | m < |s.phases| ensures s.phases[m] == Waiting || s.phases[m] == Finished {
      MoveKeepsCounts(s, m, Finished);
      assert Idle(s, m);
      UpdateSame(s.phases, m, Running);
      UpdateSame(s.phases, m, Answered);
    }
    if s.slots > 0 { CountWitness(s.phases, HOLDING); }
    if s.group > 0 { CountWitness(s.phases, GROUPED); }
    forall m: nat | m < |s.phases| ensures s.phases[m] == Finished && m in s.replies {
      assert Idle(s, m);
    }
    DistinctFill(s.replies, |s.phases|);
  }

  function SetOf(ms: seq<Message>): set<Message> {
    set m | m in ms
  }

  lemma {:induction false} DistinctCount(ms: seq<Message>)
    requires forall i, j :: 0 <= i < j < |ms| ==> ms[i] != ms[j]
    ensures |SetOf(ms)| == |ms|
    decreases |ms|
  {
    if ms != [] {
      var front, last := ms[..|ms| - 1], ms[|ms| - 1];
      DistinctCount(front);
      assert ms == front + [last];
      assert last !in front;
      assert SetOf(ms) == SetOf(front) + {last};
      assert last !in SetOf(front);
    }
  }

  function FirstMessages(n: nat): (r: set<Message>)
    ensures forall m: Message :: m in r <==> m < n
    ensures |r| == n
  {
    if n == 0 then {}
    else
      var fewer, last: Message := FirstMessages(n - 1), n - 1;
      assert last !in fewer;
      fewer + {last}
  }

  /** Distinct messages that are exactly the first n are n in number. */
  lemma DistinctFill(ms: seq<Message>, n: nat)
    requires forall m: nat :: m in ms <==> m < n
    requires forall i, j :: 0 <= i < j < |ms| ==> ms[i] != ms[j]
    ensures |ms| == n
  {
    DistinctCount(ms);
    assert SetOf(ms) == FirstMessages(n);
  }

  // ---------------------------------------------------------------- progress

  /** The steps a message still has before it. */
  function Left(p: Phase): nat {
    match p
    case Waiting => 5
    case Slotted => 4
    case Running => 3
    case Answered => 2
    case Released => 1
    case Finished => 0
  }

  function Work(phases: seq<Phase>): nat {
    if phases == [] then 0 else Work(phases[..|phases| - 1]) + Left(phases[|phases| - 1])
  }

  lemma {:induction false} WorkUpdate(phases: seq<Phase>, m: nat, p: Phase)
    requires m < |phases|
    ensures Work(phases[m := p]) == Work(phases) - Left(phases[m]) + Left(p)
    decreases |phases|
  {
    var n := |phases| - 1;
    if m < n {
      WorkUpdate(phases[..n], m, p);
      assert phases[m := p][..n] == phases[..n][m := p];
    } else {
      assert phases[m := p][..n] == phases[..n];
    }
  }

  lemma {:induction false} NoWorkLeft(phases: seq<Phase>)
    ensures Work(phases) == 0 <==> forall m :: 0 <= m < |phases| ==> phases[m] == Finished
    decreases |phases|
  {
    if phases != [] {
      var n := |phases| - 1;
      NoWorkLeft(phases[..n]);
      assert forall m :: 0 <= m < n ==> phases[..n][m] == phases[m];
    }
  }

  /** A server step that does something moves one message one phase on. */
  lemma ServerStepWorks(s: State, step: Step)
    requires ServerStep(step)
    ensures Work(Apply(s, step).phases) == Work(s.phases) - if Apply(s, step) != s then 1 else 0
  {
    if step.message < |s.phases| {
      var p := match step case TakeSlot(_) => Slotted case Start(_) => Running case Reply(_, _) => Answered
                          case Release(_) => Released case _ => Finished;
      WorkUpdate(s.phases, step.message, p);
      UpdateSame(s.phases, step.message, p);
    }
  }

  lemma OtherStepWorks(s: State, step: Step)
    requires !ServerStep(step)
    ensures Work(Apply(s, step).phases) == Work(s.phases) + if step == Deliver(true) && Apply(s, step) != s then 5 else 0
  {
    var s' := Apply(s, step);
    if s'.phases != s.phases { assert s'.phases[..|s.phases|] == s.phases; }
  }

  /** The server steps of a run that did something, and the decodable messages it took in. */
  function Done(s: State, steps: seq<Step>): nat
    decreases |steps|
  {
    if steps == [] then 0
    else (if ServerStep(steps[0]) && Apply(s, steps[0]) != s then 1 else 0) + Done(Apply(s, steps[0]), steps[1..])
  }

  function TakenIn(s: State, steps: seq<Step>): nat
    decreases |steps|
  {
    if steps == [] then 0
    else (if steps[0] == Deliver(true) && Apply(s, steps[0]) != s then 1 else 0) + TakenIn(Apply(s, steps[0]), steps[1..])
  }

  /** Work is conserved: a decodable message brings five steps, and no other step is ever needed or made. */
  lemma {:induction false} WorkBalances(s: State, steps: seq<Step>)
    ensures Done(s, steps) + Work(Run(s, steps).phases) == Work(s.phases) + 5 * TakenIn(s, steps)
    decreases |steps|
  {
    if steps != [] {
      if ServerStep(steps[0]) { ServerStepWorks(s, steps[0]); } else { OtherStepWorks(s, steps[0]); }
      WorkBalances(Apply(s, steps[0]), steps[1..]);
    }
  }

  /** While a message is unfinished, some step of the server does something. */
  lemma SomethingToDo(s: State) returns (step: Step)
    requires Inv(s) && s.max > 0 && Work(s.phases) > 0
    ensures ServerStep(step) && Apply(s, step) != s
  {
    NoWorkLeft(s.phases);
    if Quiescent(s) {
      RestMeansAnswered(s);
      assert false;
    }
    var m: nat :| !Idle(s, m);
    step :| step in [TakeSlot(m), Start(m), Reply(m, false), Release(m), Finish(m)] && Apply(s, step) != s;
  }

  /**
   Rest is reached: however the server's own steps are chosen, the Work(s)-th that
   does something is the last, and then every message delivered has its one reply.
   */
  lemma EveryMessageIsAnswered(s: State, steps: seq<Step>)
    requires Inv(s) && s.max > 0
    requires forall i :: 0 <= i < |steps| ==> ServerStep(steps[i])
    ensures Done(s, steps) <= Work(s.phases)
    ensures var s' := Run(s, steps);
      Done(s, steps) == Work(s.phases) <==>
        (|s'.replies| == |s'.phases| == |s.phases| && forall m :: 0 <= m < |s.phases| ==> s'.phases[m] == Finished && m in s'.replies)
  {
    var s' := Run(s, steps);
    WorkBalances(s, steps);
    OnlyServerSteps(s, steps);
    RunKeepsInv(s, steps);
    NoWorkLeft(s'.phases);
    if Work(s'.phases) == 0 { DistinctFill(s'.replies, |s'.phases|); }
  }

  lemma {:induction false} OnlyServerSteps(s: State, steps: seq<Step>)
    requires forall i :: 0 <= i < |steps| ==> ServerStep(steps[i])
    ensures TakenIn(s, steps) == 0 && |Run(s, steps).phases| == |s.phases|
    decreases |steps|
  {
    if steps != [] { OnlyServerSteps(Apply(s, steps[0]), steps[1..]); }
  }

  /** Such a run exists from every state. */
  lemma {:induction false} Drain(s: State) returns (steps: seq<Step>)
    requires Inv(s) && s.max > 0
    ensures |steps| == Work(s.phases) && Done(s, steps) == Work(s.phases)
    ensures forall i :: 0 <= i < |steps| ==> ServerStep(steps[i])
    decreases Work(s.phases)
  {
    if Work(s.phases) == 0 {
      steps := [];
    } else {
      var step := SomethingToDo(s);
      ServerStepWorks(s, step);
      RunKeepsInv(s, [step]);
      assert [step][1..] == [] && Run(s, [step]) == Run(Apply(s, step), []);
      var rest := Drain(Apply(s, step));
      steps := [step] + rest;
    }
  }

  // ---------------------------------------------------------------- closing

  /**
   When Close may return, every command that had been handed to a goroutine is
   answered, and everything delivered is answered exactly when the callback is not
   still holding a command it has not handed over.
   */
  lemma CloseWaitsForStarted(s: State)
    requires Inv(s) && s.closing.Draining?
    ensures Apply(s, EndClose).closing.Closed? <==>
      forall m :: 0 <= m < |s.phases| ==> s.phases[m] !in GROUPED
    ensures Apply(s, EndClose).closing.Closed? ==>
      forall m :: 0 <= m < |s.phases| && s.phases[m] != Waiting && s.phases[m] != Slotted ==> m in s.replies
    ensures Apply(s, EndClose).closing.Closed? ==>
      ((forall m :: 0 <= m < |s.phases| ==> m in s.replies) <==> !CallbackBusy(s))
  {
    if s.group == 0 {
      forall m | 0 <= m < |s.phases| ensures s.phases[m] !in GROUPED {
        if s.phases[m] in GROUPED { CountPositive(s.phases, m, GROUPED); }
      }
    } else {
      CountWitness(s.phases, GROUPED);
    }
  }

  lemma {:induction false} CountWitness(phases: seq<Phase>, ps: set<Phase>)
    requires Count(phases, ps) > 0
    ensures exists m :: 0 <= m < |phases| && phases[m] in ps
    decreases |phases|
  {
    if phases[|phases| - 1] !in ps { CountWitness(phases[..|phases| - 1], ps); }
  }

  /** Close can return while the callback holds a command it has decoded and not handed over. */
  lemma CloseCanLeaveOneWaiting(max: nat) returns (steps: seq<Step>)
    requires max > 0
    ensures var s := Run(State(max, [], 0, 0, [], {}, Open), steps);
      s.closing.Closed? && |s.phases| == 1 && s.replies == []
  {
    steps := [Deliver(true), BeginClose, EndClose];
    var s0 := State(max, [], 0, 0, [], {}, Open);
    var s1 := Apply(s0, Deliver(true));
    var s2 := Apply(s1, BeginClose);
    var s3 := Apply(s2, EndClose);
    assert steps[1..] == [BeginClose, EndClose] && steps[1..][1..] == [EndClose] && steps[1..][1..][1..] == [];
    assert Run(s2, [EndClose]) == Run(s3, []);
    assert Run(s1, [BeginClose, EndClose]) == Run(s2, [BeginClose, EndClose][1..]);
  }

  /** Closing stops nothing that is under way: it moves `closing` alone, once, and ends with an empty wait group only. */
  lemma CloseMoves(s: State)
    ensures Apply(s, BeginClose) == s.(closing := if s.closing.Open? then Draining else s.closing)
    ensures Apply(s, EndClose) == s.(closing := if s.closing.Draining? && s.group == 0 then Closed else s.closing)
  {
  }

  // ---------------------------------------------------------------- the server

  class Server {
    const max: nat
    var phases: seq<Phase>
    var slots: nat
    var group: nat
    var replies: seq<Message>
    ghost var errors: set<Message>
    var closing: Closing

    ghost function View(): State
      reads this
    {
      State(max, phases, slots, group, replies, errors, closing)
    }

    /** Serve, with the default bound for anything below one. */
    constructor (maxInFlight: int)
      ensures max == if maxInFlight <= 0 then DEFAULT_MAX_IN_FLIGHT else maxInFlight
      ensures View() == State(max, [], 0, 0, [], {}, Open) && Inv(View())
    {
      max := if maxInFlight <= 0 then DEFAULT_MAX_IN_FLIGHT else maxInFlight;
      phases, slots, group, replies, errors, closing := [], 0, 0, [], {}, Open;
    }

    /** handle up to the semaphore. */
    method Handle(decodable: bool) returns (m: Message)
      requires !CallbackBusy(View())
      modifies this
      ensures View() == Apply(old(View()), Deliver(decodable)) && m == |old(phases)|
      ensures slots == old(slots) && group == old(group) && closing == old(closing)
      ensures decodable ==> phases == old(phases) + [Waiting] && replies == old(replies) && errors == old(errors)
      ensures !decodable ==> phases == old(phases) + [Finished] && replies == old(replies) + [m] && errors == old(errors) + {m}
    {
      m := |phases|;
      if !decodable {
        phases := phases + [Finished];
        replies, errors := replies + [m], errors + {m};
        return;
      }
      phases := phases + [Waiting];
    }

    /** The send on the semaphore, when there is room, and the start of the goroutine. */
    method Admit(m: Message) returns (admitted: bool)
      requires Is(View(), m, Waiting)
      modifies this
      ensures admitted <==> old(slots) < max
      ensures View() == Apply(Apply(old(View()), TakeSlot(m)), Start(m))
      ensures admitted ==> phases == old(phases)[m := Running] && slots == old(slots) + 1 && group == old(group) + 1
      ensures !admitted ==> View() == old(View())
      ensures replies == old(replies) && errors == old(errors) && closing == old(closing)
    {
      if slots >= max {
        return false;
      }
      phases, slots := phases[m := Slotted], slots + 1;
      group := group + 1;
      phases := phases[m := Running];
      admitted := true;
    }

    /** The goroutine: serve always replies, then the two deferred calls run, last deferred first. */
    method Serve(m: Message, panics: bool)
      requires Is(View(), m, Running) && slots > 0 && group > 0
      modifies this
      ensures View() == Apply(Apply(Apply(old(View()), Reply(m, panics)), Release(m)), Finish(m))
      ensures replies == old(replies) + [m] && errors == (if panics then old(errors) + {m} else old(errors))
      ensures phases == old(phases)[m := Finished] && slots == old(slots) - 1 && group == old(group) - 1 && closing == old(closing)
    {
      phases, replies := phases[m := Answered], replies + [m];
      errors := if panics then errors + {m} else errors;
      phases, slots := phases[m := Released], slots - 1;
      phases, group := phases[m := Finished], group - 1;
    }
  }
}
