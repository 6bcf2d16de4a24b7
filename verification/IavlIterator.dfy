// store/iavl/store.go: the iterator that funnels a tree range through an unbuffered channel.
// Three goroutines interleave: the producer (iterateRoutine), initRoutine, and the consumer that
// calls Valid, Key, Value, Next and finally Close. Every atomic action is one Step.

module IavlIterator {
  import opened Bytes
  import opened MergeIterator

  datatype Op = Valid | Key | Value | Next

  datatype Answer = IsValid(valid: bool) | TheKey(key: Bytes) | TheValue(value: Bytes) | Moved | Panics

  datatype Producer = Offering | Closing | ProducerEnded

  datatype Init = InitReceiving | InitGot(pair: Pair) | InitGotClosed | InitDone | InitEnded

  datatype Consumer =
    | Idle
    | WaitInit(op: Op) | Locking(op: Op) | Inside(op: Op)
    | Receiving | Got(pair: Pair) | GotClosed
    | Unlocking(op: Op, answer: Answer)
    | Closed

  datatype State = State(
    tree: seq<Pair>,          // what IterateRange visits, in order
    taken: nat,               // how many of them have gone through iterCh
    iterClosed: bool, quitClosed: bool, initClosed: bool, locked: bool,
    invalid: bool, current: Option<Pair>,
    producer: Producer, init: Init, consumer: Consumer,
    log: seq<(Op, Answer)>,   // completed calls
    pos: nat,                 // how many of them were a Next that moved
    crashed: bool)            // setNext or setInvalid found the iterator invalid

  function Start(tree: seq<Pair>): State {
    State(tree, 0, false, false, false, false, false, None, Offering, InitReceiving, Idle, [], 0, false)
  }

  datatype Step =
    | SendToInit | SendToConsumer | SeeQuit | Exhaust | CloseIter
    | InitSeesClose | InitSet | CloseInit
    | Call(op: Op) | PassInit | Lock | Decide | ConsumerSeesClose | ConsumerSet | Unlock | Close

  predicate Enabled(s: State, st: Step) {
    !s.crashed &&
    match st
    case SendToInit => s.producer.Offering? && s.taken < |s.tree| && s.init.InitReceiving?
    case SendToConsumer => s.producer.Offering? && s.taken < |s.tree| && s.consumer.Receiving?
    case SeeQuit => s.producer.Offering? && s.taken < |s.tree| && s.quitClosed
    case Exhaust => s.producer.Offering? && s.taken >= |s.tree|
    case CloseIter => s.producer.Closing?
    case InitSeesClose => s.init.InitReceiving? && s.iterClosed
    case InitSet => s.init.InitGot? || s.init.InitGotClosed?
    case CloseInit => s.init.InitDone?
    case Call(_) => s.consumer.Idle?
    case PassInit => s.consumer.WaitInit? && s.initClosed
    case Lock => s.consumer.Locking? && !s.locked
    case Decide => s.consumer.Inside?
    case ConsumerSeesClose => s.consumer.Receiving? && s.iterClosed
    case ConsumerSet => s.consumer.Got? || s.consumer.GotClosed?
    case Unlock => s.consumer.Unlocking?
    case Close => s.consumer.Idle?
  }

  function Moves(op: Op, answer: Answer): nat {
    if op.Next? && answer.Moved? then 1 else 0
  }

  // The body of a call once the lock is held.
  function Decision(invalid: bool, current: Option<Pair>, op: Op): Consumer {
    if op.Valid? then Unlocking(op, IsValid(!invalid))
    else if invalid || current.None? then Unlocking(op, Panics)
    else if op.Key? then Unlocking(op, TheKey(current.value.key))
    else if op.Value? then Unlocking(op, TheValue(current.value.value))
    else Receiving
  }

  function Apply(s: State, st: Step): (r: State)
    requires Enabled(s, st)
    ensures r.tree == s.tree && (s.invalid ==> r.invalid) && s.log <= r.log
  {
    match st
    case SendToInit => s.(taken := s.taken + 1, init := InitGot(s.tree[s.taken]))
    case SendToConsumer => s.(taken := s.taken + 1, consumer := Got(s.tree[s.taken]))
    case SeeQuit => s.(producer := Closing)
    case Exhaust => s.(producer := Closing)
    case CloseIter => s.(producer := ProducerEnded, iterClosed := true)
    case InitSeesClose => s.(init := InitGotClosed)
    case InitSet =>
      if s.invalid then s.(crashed := true)
      else if s.init.InitGot? then s.(current := Some(s.init.pair), init := InitDone)
      else s.(invalid := true, init := InitDone)
    case CloseInit => s.(initClosed := true, init := InitEnded)
    case Call(op) => s.(consumer := WaitInit(op))
    case PassInit => s.(consumer := Locking(s.consumer.op))
    case Lock => s.(consumer := Inside(s.consumer.op), locked := true)
    case Decide => s.(consumer := Decision(s.invalid, s.current, s.consumer.op))
    case ConsumerSeesClose => s.(consumer := GotClosed)
    case ConsumerSet =>
      if s.invalid then s.(crashed := true)
      else if s.consumer.Got? then s.(current := Some(s.consumer.pair), consumer := Unlocking(Next, Moved))
      else s.(invalid := true, consumer := Unlocking(Next, Moved))
    case Unlock =>
      s.(locked := false, consumer := Idle, log := s.log + [(s.consumer.op, s.consumer.answer)],
         pos := s.pos + Moves(s.consumer.op, s.consumer.answer))
    case Close => s.(quitClosed := true, consumer := Closed)
  }

  // ---------- The sequential cursor it should behave like ----------

  function AnswerAt(tree: seq<Pair>, pos: nat, op: Op): Answer {
    match op
    case Valid => IsValid(pos < |tree|)
    case Key => if pos < |tree| then TheKey(tree[pos].key) else Panics
    case Value => if pos < |tree| then TheValue(tree[pos].value) else Panics
    case Next => if pos < |tree| then Moved else Panics
  }

  // Position after the completed calls: the number of Next calls that moved.
  function Position(log: seq<(Op, Answer)>): nat {
    if log == [] then 0
    else Position(log[..|log| - 1]) + Moves(log[|log| - 1].0, log[|log| - 1].1)
  }

  ghost predicate IsCursorLog(tree: seq<Pair>, log: seq<(Op, Answer)>) {
    forall i :: 0 <= i < |log| ==> log[i].1 == AnswerAt(tree, Position(log[..i]), log[i].0)
  }

  // ---------- The invariant ----------

  // What holds while nothing is being received: the current entry is the cursor's.
  ghost predicate Settled(s: State, pos: nat) {
    (!s.invalid ==> s.taken == pos + 1 && pos < |s.tree| && s.current == Some(s.tree[pos])) &&
    (s.invalid && !s.quitClosed ==> pos == |s.tree| == s.taken)
  }

  ghost predicate ProducerInv(s: State) {
    s.taken <= |s.tree| &&
    (s.iterClosed <==> s.producer.ProducerEnded?) &&
    (!s.producer.Offering? && !s.quitClosed ==> s.taken == |s.tree|)
  }

  ghost predicate InitInv(s: State) {
    (s.initClosed <==> s.init.InitEnded?) &&
    (!s.init.InitEnded? ==> s.pos == 0 && (s.consumer.Idle? || s.consumer.WaitInit? || s.consumer.Closed?)) &&
    (s.init.InitReceiving? ==> s.taken == 0 && !s.invalid) &&
    (s.init.InitGot? ==> s.taken == 1 <= |s.tree| && s.init.pair == s.tree[0] && !s.invalid) &&
    (s.init.InitGotClosed? ==> s.taken == 0 && s.iterClosed && !s.invalid) &&
    (s.init.InitDone? ==> Settled(s, 0))
  }

  ghost predicate ConsumerInv(s: State) {
    (s.locked <==>
      s.consumer.Inside? || s.consumer.Receiving? || s.consumer.Got? || s.consumer.GotClosed? || s.consumer.Unlocking?) &&
    (s.quitClosed <==> s.consumer.Closed?) &&
    (s.consumer.Receiving? ==> !s.invalid && s.taken == s.pos + 1) &&
    (s.consumer.Got? ==> !s.invalid && s.taken == s.pos + 2 <= |s.tree| && s.consumer.pair == s.tree[s.pos + 1]) &&
    (s.consumer.GotClosed? ==> !s.invalid && s.iterClosed && s.taken == s.pos + 1) &&
    (s.consumer.Unlocking? ==>
       s.consumer.answer == AnswerAt(s.tree, s.pos, s.consumer.op) &&
       Settled(s, s.pos + Moves(s.consumer.op, s.consumer.answer))) &&
    (s.init.InitEnded? &&
      (s.consumer.Idle? || s.consumer.WaitInit? || s.consumer.Locking? || s.consumer.Inside? || s.consumer.Closed?) ==>
       Settled(s, s.pos))
  }

  ghost predicate Inv(s: State) {
    !s.crashed && ProducerInv(s) && InitInv(s) && ConsumerInv(s) && IsCursorLog(s.tree, s.log) && s.pos == Position(s.log)
  }

  lemma StartInv(tree: seq<Pair>)
    ensures Inv(Start(tree))
  {}

  lemma LogUnlock(tree: seq<Pair>, log: seq<(Op, Answer)>, op: Op)
    requires IsCursorLog(tree, log)
    ensures var log' := log + [(op, AnswerAt(tree, Position(log), op))];
            IsCursorLog(tree, log') &&
            Position(log') == Position(log) + Moves(op, AnswerAt(tree, Position(log), op))
  {
    var log' := log + [(op, AnswerAt(tree, Position(log), op))];
    assert log'[..|log|] == log;
    forall i | 0 <= i < |log| ensures log'[i].1 == AnswerAt(tree, Position(log'[..i]), log'[i].0) {
      assert log'[..i] == log[..i];
    }
  }

  lemma ProducerStepInv(s: State, st: Step)
    requires Inv(s) && Enabled(s, st)
    requires st.SendToInit? || st.SendToConsumer? || st.SeeQuit? || st.Exhaust? || st.CloseIter?
    ensures Inv(Apply(s, st))
  {}

  lemma InitStepInv(s: State, st: Step)
    requires Inv(s) && Enabled(s, st)
    requires st.InitSeesClose? || st.InitSet? || st.CloseInit?
    ensures Inv(Apply(s, st))
  {}

  lemma CallStepInv(s: State, st: Step)
    requires Inv(s) && Enabled(s, st)
    requires st.Call? || st.PassInit? || st.Lock? || st.Close? || st.ConsumerSeesClose?
    ensures Inv(Apply(s, st))
  {}

  lemma DecisionIsAnswer(s: State, op: Op)
    requires Settled(s, s.pos) && !s.quitClosed
    ensures var c := Decision(s.invalid, s.current, op);
            if op.Next? && s.pos < |s.tree| then c.Receiving? && !s.invalid
            else c == Unlocking(op, AnswerAt(s.tree, s.pos, op))
  {}

  lemma DecideStepInv(s: State)
    requires Inv(s) && Enabled(s, Decide)
    ensures Inv(Apply(s, Decide))
  {
    DecisionIsAnswer(s, s.consumer.op);
    var t := Apply(s, Decide);
    assert t == s.(consumer := t.consumer);
    assert ConsumerInv(t);
  }

  lemma ReceiveStepInv(s: State)
    requires Inv(s) && Enabled(s, ConsumerSet)
    ensures Inv(Apply(s, ConsumerSet))
  {}

  lemma UnlockStepInv(s: State)
    requires Inv(s) && Enabled(s, Unlock)
    ensures Inv(Apply(s, Unlock))
  {
    LogUnlock(s.tree, s.log, s.consumer.op);
  }

  lemma StepInv(s: State, st: Step)
    requires Inv(s) && Enabled(s, st)
    ensures Inv(Apply(s, st))
  {
    if st.SendToInit? || st.SendToConsumer? || st.SeeQuit? || st.Exhaust? || st.CloseIter? {
      ProducerStepInv(s, st);
    } else if st.InitSeesClose? || st.InitSet? || st.CloseInit? {
      InitStepInv(s, st);
    } else if st.Decide? {
      DecideStepInv(s);
    } else if st.ConsumerSet? {
      ReceiveStepInv(s);
    } else if st.Unlock? {
      UnlockStepInv(s);
    } else {
      CallStepInv(s, st);
    }
  }

  // ---------- Runs ----------

  ghost predicate CanRun(s: State, steps: seq<Step>)
    decreases steps
  {
    steps == [] || (Enabled(s, steps[0]) && CanRun(Apply(s, steps[0]), steps[1..]))
  }

  ghost function Run(s: State, steps: seq<Step>): State
    requires CanRun(s, steps)
    decreases steps
  {
    if steps == [] then s else Run(Apply(s, steps[0]), steps[1..])
  }

  // In every interleaving the consumer gets the answers of a cursor over the tree range: nothing
  // lost, nothing repeated, in order; and setNext and setInvalid never panic.
  lemma BehavesAsCursor(tree: seq<Pair>, steps: seq<Step>)
    requires CanRun(Start(tree), steps)
    ensures var t := Run(Start(tree), steps); Inv(t) && !t.crashed && t.tree == tree && IsCursorLog(tree, t.log)
  {
    StartInv(tree);
    RunInv(Start(tree), steps, Run(Start(tree), steps));
  }

  lemma {:induction false} RunInv(s: State, steps: seq<Step>, t: State)
    requires Inv(s) && CanRun(s, steps) && t == Run(s, steps)
    ensures Inv(t) && t.tree == s.tree
    decreases steps
  {
    if steps != [] {
      StepInv(s, steps[0]);
      RunInv(Apply(s, steps[0]), steps[1..], t);
    }
  }

  // "True once, true forever", and no completed call is ever forgotten.
  lemma {:induction false} InvalidIsFinal(s: State, steps: seq<Step>)
    requires CanRun(s, steps)
    ensures var t := Run(s, steps); (s.invalid ==> t.invalid) && s.log <= t.log
    decreases steps
  {
    if steps != [] {
      InvalidIsFinal(Apply(s, steps[0]), steps[1..]);
    }
  }

  // initRoutine writes key, value and invalid without the lock; it is over before the consumer
  // gets to look at them.
  lemma NoRace(s: State)
    requires Inv(s) && (s.init.InitGot? || s.init.InitGotClosed?)
    ensures s.consumer.Idle? || s.consumer.WaitInit? || s.consumer.Closed?
  {}

  // ---------- Progress ----------

  // A call in progress is never stuck: some goroutine can move.
  lemma CallsAreNeverStuck(s: State)
    requires Inv(s) && !s.consumer.Idle? && !s.consumer.Closed?
    ensures exists st :: Enabled(s, st) && !st.Call? && !st.Close?
  {
    var st :=
      if s.consumer.WaitInit? then
        if s.initClosed then PassInit
        else if s.init.InitDone? then CloseInit
        else if s.init.InitReceiving? then
          if s.iterClosed then InitSeesClose else if s.producer.Closing? then CloseIter
          else if s.taken < |s.tree| then SendToInit else Exhaust
        else InitSet
      else if s.consumer.Locking? then Lock
      else if s.consumer.Inside? then Decide
      else if s.consumer.Receiving? then
        if s.iterClosed then ConsumerSeesClose else if s.producer.Closing? then CloseIter
        else if s.taken < |s.tree| then SendToConsumer else Exhaust
      else if s.consumer.Unlocking? then Unlock
      else ConsumerSet;
    assert Enabled(s, st);
  }

  // Steps the two background goroutines can still take once the consumer has closed.
  function StepsLeft(s: State): nat {
    (match s.producer case Offering => 2 case Closing => 1 case ProducerEnded => 0) +
    (match s.init case InitReceiving => 3 case InitGot(_) => 2 case InitGotClosed => 2 case InitDone => 1 case InitEnded => 0)
  }

  // After Close every run is short, and a run that cannot go on has released both goroutines.
  lemma {:induction false} CloseReleasesGoroutines(s: State, steps: seq<Step>)
    requires Inv(s) && s.consumer.Closed? && CanRun(s, steps)
    ensures |steps| <= StepsLeft(s)
    ensures var t := Run(s, steps);
            (forall st :: !Enabled(t, st)) ==> t.producer.ProducerEnded? && t.init.InitEnded?
    decreases steps
  {
    if steps != [] {
      StepInv(s, steps[0]);
      CloseReleasesGoroutines(Apply(s, steps[0]), steps[1..]);
    } else if !(s.producer.ProducerEnded? && s.init.InitEnded?) {
      var st :=
        if s.producer.Closing? then CloseIter
        else if s.producer.Offering? then (if s.taken < |s.tree| then SeeQuit else Exhaust)
        else if s.init.InitReceiving? then InitSeesClose
        else if s.init.InitDone? then CloseInit
        else InitSet;
      assert Enabled(s, st);
    }
  }

  // What the call in progress can still do.
  function CallLeft(c: Consumer): nat {
    match c
    case WaitInit(_) => 6
    case Locking(_) => 5
    case Inside(_) => 4
    case Receiving => 3
    case Got(_) => 2
    case GotClosed => 2
    case Unlocking(_, _) => 1
    case _ => 0
  }

  function Pending(c: Consumer): Option<Op> {
    match c
    case WaitInit(op) => Some(op)
    case Locking(op) => Some(op)
    case Inside(op) => Some(op)
    case Unlocking(op, _) => Some(op)
    case Idle => None
    case Closed => None
    case _ => Some(Next)
  }

  predicate IsInner(st: Step) {
    !st.Call? && !st.Close?
  }

  // Every step but a new call and the final Close is progress.
  lemma StepsShrink(s: State, st: Step)
    requires Inv(s) && Enabled(s, st) && IsInner(st)
    ensures var t := Apply(s, st); StepsLeft(t) + CallLeft(t.consumer) < StepsLeft(s) + CallLeft(s.consumer)
  {
    NeverCrashes(s, st);
    if IsBackground(st) { BackgroundShrinks(s, st); } else { CallShrinks(s, st); }
  }

  lemma NeverCrashes(s: State, st: Step)
    requires Inv(s) && Enabled(s, st)
    ensures st.InitSet? || st.ConsumerSet? ==> !s.invalid
  {}

  predicate IsBackground(st: Step) {
    st.SendToInit? || st.SeeQuit? || st.Exhaust? || st.CloseIter? || st.InitSeesClose? || st.InitSet? || st.CloseInit?
  }

  lemma BackgroundShrinks(s: State, st: Step)
    requires Enabled(s, st) && IsBackground(st) && (st.InitSet? ==> !s.invalid)
    ensures var t := Apply(s, st); t.consumer == s.consumer && t.log == s.log && t.pos == s.pos && StepsLeft(t) < StepsLeft(s)
  {
    match st
    case SendToInit =>
    case SeeQuit =>
    case Exhaust =>
    case CloseIter =>
    case InitSeesClose =>
    case InitSet =>
    case CloseInit =>
  }

  lemma CallShrinks(s: State, st: Step)
    requires Enabled(s, st) && IsInner(st) && !IsBackground(st) && (st.ConsumerSet? ==> !s.invalid)
    ensures var t := Apply(s, st);
            t.producer == s.producer && t.init == s.init && CallLeft(t.consumer) < CallLeft(s.consumer) &&
            (!st.Unlock? ==> t.log == s.log && t.pos == s.pos && Pending(t.consumer) == Pending(s.consumer))
  {
    match st
    case SendToConsumer =>
    case PassInit =>
    case Lock =>
    case Decide =>
    case ConsumerSeesClose =>
    case ConsumerSet =>
    case Unlock =>
  }

  lemma PendingStep(s: State, st: Step, op: Op)
    requires Inv(s) && Enabled(s, st) && IsInner(st) && Pending(s.consumer) == Some(op)
    ensures var t := Apply(s, st);
            (Pending(t.consumer) == Some(op) && t.log == s.log && t.pos == s.pos) ||
            (t.consumer.Idle? && t.log == s.log + [(op, AnswerAt(s.tree, s.pos, op))])
  {
    NeverCrashes(s, st);
    if IsBackground(st) { BackgroundShrinks(s, st); } else { CallShrinks(s, st); }
  }

  lemma {:induction false} IdleStays(s: State, steps: seq<Step>)
    requires Inv(s) && s.consumer.Idle? && CanRun(s, steps) && forall st :: st in steps ==> IsInner(st)
    ensures |steps| <= StepsLeft(s) && Run(s, steps).consumer.Idle? && Run(s, steps).log == s.log
    decreases steps
  {
    if steps != [] {
      StepInv(s, steps[0]);
      StepsShrink(s, steps[0]);
      IdleStays(Apply(s, steps[0]), steps[1..]);
    }
  }

  // However the goroutines interleave, a call ends within a bounded number of steps with the cursor's answer:
  // a run of inner steps that cannot go on has completed it.
  lemma {:induction false} CallCompletes(s: State, steps: seq<Step>, op: Op)
    requires Inv(s) && Pending(s.consumer) == Some(op) && CanRun(s, steps) && forall st :: st in steps ==> IsInner(st)
    ensures |steps| <= StepsLeft(s) + CallLeft(s.consumer)
    ensures var t := Run(s, steps);
            (forall st :: Enabled(t, st) ==> !IsInner(st)) ==>
            t.consumer.Idle? && t.log == s.log + [(op, AnswerAt(s.tree, s.pos, op))]
    decreases steps
  {
    if steps == [] {
      CallsAreNeverStuck(s);
    } else {
      StepInv(s, steps[0]);
      StepsShrink(s, steps[0]);
      PendingStep(s, steps[0], op);
      var t := Apply(s, steps[0]);
      if t.consumer.Idle? { IdleStays(t, steps[1..]); } else { CallCompletes(t, steps[1..], op); }
    }
  }
}
