/**
  What a whole run of one rank does: the step values it visits, the steps
  at which each periodic action fires, when it quits, the checkpoints it
  writes, and when it fails.
 */
module RunTheorems {
  import opened Wrappers
  import opened Schedule
  import opened StepEngine
  import Checkpoint

  function LastOf(xs: seq<int>): Option<int> {
    if |xs| == 0 then None else Some(xs[|xs| - 1])
  }

  /** The checkpoint records the save task writes into `dir` at the steps `ts`. */
  function SaveRecords(dir: string, ts: seq<int>): (r: seq<Event>)
    ensures |r| == |ts|
    ensures forall k | 0 <= k < |ts| ::
      r[k] == Save(ts[k], Checkpoint.SavePath(dir, ts[k]), Checkpoint.RecordKeys)
  {
    seq(|ts|, k requires 0 <= k < |ts| => Save(ts[k], Checkpoint.SavePath(dir, ts[k]), Checkpoint.RecordKeys))
  }

  /**
    The metrics logs due in the first `n` micro-batches: each log step with
    the step of the latest update at or before it, as long as there was one.
   */
  function LogReports(cfg: Config, n: nat): seq<(int, int)> {
    if n == 0 then []
    else
      var t := Visit(cfg, n - 1);
      var lr := LastOf(FiringSteps(cfg, UpdateGate, n));
      LogReports(cfg, n - 1) + (if Fires(cfg, LogGate, t) && lr.Some? then [(t, lr.value)] else [])
  }

  /**
    The events of a state agree with the schedule for the micro-batches it
    has completed: every action fired exactly at its due steps, `lr` holds
    the result of the latest update, every metrics log reported the `lr` of
    the latest update before it, the saved records are the scheduled ones,
    and the model is back in training mode.
   */
  ghost predicate Consistent(cfg: Config, s: State) {
    && (forall g :: Trace(s.events, g) == FiringSteps(cfg, g, s.batches))
    && s.lr == LastOf(FiringSteps(cfg, UpdateGate, s.batches))
    && Reports(s.events) == LogReports(cfg, s.batches)
    && Saved(s.events) == SaveRecords(cfg.ckptPath, FiringSteps(cfg, SaveGate, s.batches))
    && Training(s.events)
  }

  /** Between micro-batches while still running: the counter is at the next visit. */
  ghost predicate AtBoundary(cfg: Config, s: State) {
    && s.step == Visit(cfg, s.batches)
    && (s.batches == 0 || Visit(cfg, s.batches - 1) < cfg.totalStep)
  }

  /** After `quit()`: the counter stays at the last, first-reaching-total step. */
  ghost predicate AfterQuit(cfg: Config, s: State) {
    && s.batches >= 1
    && s.step == Visit(cfg, s.batches - 1)
    && s.step >= cfg.totalStep
    && (s.batches == 1 || Visit(cfg, s.batches - 2) < cfg.totalStep)
  }

  lemma {:induction false} TraceAppend(a: seq<Event>, b: seq<Event>, g: Gate)
    ensures Trace(a + b, g) == Trace(a, g) + Trace(b, g)
  {
    if |b| > 0 {
      var ab := a + b;
      assert ab[..|ab| - 1] == a + b[..|b| - 1];
      TraceAppend(a, b[..|b| - 1], g);
    } else {
      assert a + b == a;
    }
  }

  lemma {:induction false} SavedAppend(a: seq<Event>, b: seq<Event>)
    ensures Saved(a + b) == Saved(a) + Saved(b)
  {
    if |b| > 0 {
      var ab := a + b;
      assert ab[..|ab| - 1] == a + b[..|b| - 1];
      SavedAppend(a, b[..|b| - 1]);
    } else {
      assert a + b == a;
    }
  }

  lemma {:induction false} ReportsAppend(a: seq<Event>, b: seq<Event>)
    ensures Reports(a + b) == Reports(a) + Reports(b)
  {
    if |b| > 0 {
      var ab := a + b;
      assert ab[..|ab| - 1] == a + b[..|b| - 1];
      ReportsAppend(a, b[..|b| - 1]);
    } else {
      assert a + b == a;
    }
  }

  lemma {:induction false} ReportsNone(b: seq<Event>)
    requires forall i | 0 <= i < |b| :: !b[i].LogScalars?
    ensures Reports(b) == []
  {
    if |b| > 0 {
      ReportsNone(b[..|b| - 1]);
    }
  }

  predicate NoModeChange(b: seq<Event>) {
    forall i | 0 <= i < |b| :: !b[i].ModelEval? && !b[i].ModelTrain?
  }

  lemma {:induction false} TrainingAppendQuiet(a: seq<Event>, b: seq<Event>)
    requires NoModeChange(b)
    ensures Training(a + b) == Training(a)
  {
    if |b| > 0 {
      var ab := a + b;
      assert ab[..|ab| - 1] == a + b[..|b| - 1];
      TrainingAppendQuiet(a, b[..|b| - 1]);
    } else {
      assert a + b == a;
    }
  }

  lemma {:induction false} TraceNoGate(b: seq<Event>, g: Gate)
    requires forall i | 0 <= i < |b| :: b[i].ModelEval? || b[i].ModelTrain? || b[i].LogScalars?
    ensures Trace(b, g) == []
  {
    if |b| > 0 {
      TraceNoGate(b[..|b| - 1], g);
    }
  }

  lemma {:induction false} SavedNone(b: seq<Event>)
    requires forall i | 0 <= i < |b| :: !b[i].Save?
    ensures Saved(b) == []
  {
    if |b| > 0 {
      SavedNone(b[..|b| - 1]);
    }
  }

  /** The trace of each piece of a chunk: its own action's step if due, nothing else. */
  lemma LogTrace(cfg: Config, t: int, lr: Option<int>, g: Gate)
    requires Fires(cfg, LogGate, t) ==> lr.Some?
    ensures Trace(LogEvents(cfg, t, lr), g) == if g == LogGate && Fires(cfg, g, t) then [t] else []
  {
    if Fires(cfg, LogGate, t) {
      var x, y := [LogText(t)], [LogScalars(t, lr.value)];
      TraceAppend(x, y, g);
      TraceNoGate(y, g);
      assert LogEvents(cfg, t, lr) == x + y;
    }
  }

  lemma ValidateTrace(cfg: Config, t: int, g: Gate)
    ensures Trace(ValidateEvents(cfg, t), g) == if g == ValGate && Fires(cfg, g, t) then [t] else []
  {
    if Fires(cfg, ValGate, t) {
      var x, y, z := [ModelEval], [Validate(t)], [ModelTrain];
      TraceAppend(x, y + z, g);
      TraceAppend(y, z, g);
      TraceNoGate(x, g);
      TraceNoGate(z, g);
      assert ValidateEvents(cfg, t) == x + (y + z);
    }
  }

  lemma UpdateTrace(cfg: Config, t: int, g: Gate)
    ensures Trace(UpdateEvents(cfg, t), g) == if g == UpdateGate && Fires(cfg, g, t) then [t] else []
  {
  }

  lemma SynthTrace(cfg: Config, t: int, g: Gate)
    ensures Trace(SynthEvents(cfg, t), g) == if g == SynthGate && Fires(cfg, g, t) then [t] else []
  {
  }

  lemma SaveTrace(cfg: Config, t: int, g: Gate)
    ensures Trace(SaveEvents(cfg, t), g) == if g == SaveGate && Fires(cfg, g, t) then [t] else []
  {
  }

  /**
    Position of an event within a micro-batch: update, log, synth, then
    eval mode, validation, training mode, and last the save.
   */
  function Phase(e: Event): nat {
    match e
    case Update(_) => 0
    case LogText(_) => 1
    case LogScalars(_, _) => 1
    case Synth(_) => 2
    case ModelEval => 3
    case Validate(_) => 4
    case ModelTrain => 5
    case Save(_, _, _) => 6
  }

  predicate InPhase(es: seq<Event>, p: nat) {
    forall i | 0 <= i < |es| :: Phase(es[i]) == p
  }

  predicate PhasesOrdered(es: seq<Event>) {
    forall i, j | 0 <= i < j < |es| :: Phase(es[i]) <= Phase(es[j])
  }

  /** Ordered, and no event past phase `p`. */
  predicate PhasesUpTo(es: seq<Event>, p: nat) {
    PhasesOrdered(es) && forall i | 0 <= i < |es| :: Phase(es[i]) <= p
  }

  lemma OrderedThenPhase(a: seq<Event>, b: seq<Event>, q: nat, p: nat)
    requires PhasesUpTo(a, q) && q <= p
    requires InPhase(b, p)
    ensures PhasesUpTo(a + b, p)
  {
    forall i | 0 <= i < |a + b|
      ensures Phase((a + b)[i]) <= p
    {
      if i >= |a| {
        assert (a + b)[i] == b[i - |a|];
      }
    }
  }

  /** Validation appends eval mode, the evaluation and training mode, in that order. */
  lemma ValidateInOrder(cfg: Config, t: int, x: seq<Event>)
    requires PhasesUpTo(x, 2)
    ensures PhasesUpTo(x + ValidateEvents(cfg, t), 5)
  {
    var v := ValidateEvents(cfg, t);
    if Fires(cfg, ValGate, t) {
      var v1, v2, v3 := [ModelEval], [Validate(t)], [ModelTrain];
      assert v == v1 + v2 + v3;
      OrderedThenPhase(x, v1, 2, 3);
      OrderedThenPhase(x + v1, v2, 3, 4);
      OrderedThenPhase(x + v1 + v2, v3, 4, 5);
      assert x + v1 + v2 + v3 == x + v;
    } else {
      assert x + v == x;
    }
  }

  /**
    A micro-batch emits its events in the order of the loop body: update,
    then log, synth, eval mode, validation, training mode and save; the
    termination check and the increment emit nothing.
   */
  lemma ChunkInOrder(cfg: Config, t: int, lr: Option<int>)
    ensures PhasesOrdered(Chunk(cfg, t, lr))
  {
    var u, l, y, v, w := UpdateEvents(cfg, t), LogEvents(cfg, t, lr), SynthEvents(cfg, t),
      ValidateEvents(cfg, t), SaveEvents(cfg, t);
    assert InPhase(u, 0) && InPhase(l, 1) && InPhase(y, 2) && InPhase(w, 6);
    OrderedThenPhase([], u, 0, 0);
    assert [] + u == u;
    OrderedThenPhase(u, l, 0, 1);
    OrderedThenPhase(u + l, y, 1, 2);
    ValidateInOrder(cfg, t, u + l + y);
    OrderedThenPhase(u + l + y + v, w, 5, 6);
    assert Chunk(cfg, t, lr) == u + l + y + v + w;
  }

  /** The trace of a chunk is its gate's step if due: each piece contributes only its own gate. */
  lemma ChunkTrace(cfg: Config, t: int, lr: Option<int>, g: Gate)
    requires Fires(cfg, LogGate, t) ==> lr.Some?
    ensures Trace(Chunk(cfg, t, lr), g) == if Fires(cfg, g, t) then [t] else []
  {
    var u, l, y, v, w := UpdateEvents(cfg, t), LogEvents(cfg, t, lr), SynthEvents(cfg, t),
      ValidateEvents(cfg, t), SaveEvents(cfg, t);
    assert Chunk(cfg, t, lr) == u + l + y + v + w;
    TraceAppend(u + l + y + v, w, g);
    TraceAppend(u + l + y, v, g);
    TraceAppend(u + l, y, g);
    TraceAppend(u, l, g);
    UpdateTrace(cfg, t, g);
    LogTrace(cfg, t, lr, g);
    SynthTrace(cfg, t, g);
    ValidateTrace(cfg, t, g);
    SaveTrace(cfg, t, g);
    match g
    case UpdateGate =>
    case LogGate =>
    case SynthGate =>
    case ValGate =>
    case SaveGate =>
  }

  /** The saved records of a chunk: its own checkpoint if one is due. */
  lemma ChunkSaved(cfg: Config, t: int, lr: Option<int>)
    ensures Saved(Chunk(cfg, t, lr)) == SaveRecords(cfg.ckptPath, if Fires(cfg, SaveGate, t) then [t] else [])
  {
    var x := UpdateEvents(cfg, t) + LogEvents(cfg, t, lr) + SynthEvents(cfg, t) + ValidateEvents(cfg, t);
    assert Chunk(cfg, t, lr) == x + SaveEvents(cfg, t);
    SavedAppend(x, SaveEvents(cfg, t));
    SavedNone(x);
    SaveEventsSaved(cfg, t);
  }

  lemma SaveEventsSaved(cfg: Config, t: int)
    ensures Saved(SaveEvents(cfg, t)) == SaveRecords(cfg.ckptPath, if Fires(cfg, SaveGate, t) then [t] else [])
  {
    if Fires(cfg, SaveGate, t) {
      SavedNone([]);
      assert SaveEvents(cfg, t)[..0] == [];
    }
  }

  lemma TrainingAfter(a: seq<Event>, x: seq<Event>, v: seq<Event>, w: seq<Event>, t: int)
    requires Training(a)
    requires NoModeChange(x) && NoModeChange(w)
    requires v == [] || v == [ModelEval, Validate(t), ModelTrain]
    ensures Training(a + (x + v + w))
  {
    assert a + (x + v + w) == (a + x + v) + w;
    TrainingAppendQuiet(a + x + v, w);
    if v == [] {
      assert a + x + v == a + x;
      TrainingAppendQuiet(a, x);
    }
  }

  lemma ChunkTraining(cfg: Config, t: int, lr: Option<int>, a: seq<Event>)
    requires Training(a)
    ensures Training(a + Chunk(cfg, t, lr))
  {
    var u, l, y, v, w := UpdateEvents(cfg, t), LogEvents(cfg, t, lr), SynthEvents(cfg, t),
      ValidateEvents(cfg, t), SaveEvents(cfg, t);
    assert NoModeChange(u + l + y);
    TrainingAfter(a, u + l + y, v, w, t);
  }

  lemma ChunkKeepsTrace(cfg: Config, s: State, lr: Option<int>, g: Gate)
    requires Trace(s.events, g) == FiringSteps(cfg, g, s.batches)
    requires s.step == Visit(cfg, s.batches)
    requires Fires(cfg, LogGate, s.step) ==> lr.Some?
    ensures Trace(s.events + Chunk(cfg, s.step, lr), g) == FiringSteps(cfg, g, s.batches + 1)
  {
    TraceAppend(s.events, Chunk(cfg, s.step, lr), g);
    ChunkTrace(cfg, s.step, lr, g);
  }

  lemma SaveRecordsAppend(dir: string, ts: seq<int>, us: seq<int>)
    ensures SaveRecords(dir, ts + us) == SaveRecords(dir, ts) + SaveRecords(dir, us)
  {
    var a, b := SaveRecords(dir, ts + us), SaveRecords(dir, ts) + SaveRecords(dir, us);
    assert |a| == |b|;
    forall k | 0 <= k < |a|
      ensures a[k] == b[k]
    {
      if k < |ts| {
        assert (ts + us)[k] == ts[k];
      } else {
        assert (ts + us)[k] == us[k - |ts|];
      }
    }
  }

  lemma SavedStep(dir: string, e: seq<Event>, c: seq<Event>, ts: seq<int>, us: seq<int>)
    requires Saved(e) == SaveRecords(dir, ts) && Saved(c) == SaveRecords(dir, us)
    ensures Saved(e + c) == SaveRecords(dir, ts + us)
  {
    SavedAppend(e, c);
    SaveRecordsAppend(dir, ts, us);
  }

  lemma ChunkKeepsSaved(cfg: Config, s: State, lr: Option<int>)
    requires Saved(s.events) == SaveRecords(cfg.ckptPath, FiringSteps(cfg, SaveGate, s.batches))
    requires s.step == Visit(cfg, s.batches)
    ensures Saved(s.events + Chunk(cfg, s.step, lr)) == SaveRecords(cfg.ckptPath, FiringSteps(cfg, SaveGate, s.batches + 1))
  {
    var t := s.step;
    var due := FiringSteps(cfg, SaveGate, s.batches);
    var extra := if Fires(cfg, SaveGate, t) then [t] else [];
    ChunkSaved(cfg, t, lr);
    SavedStep(cfg.ckptPath, s.events, Chunk(cfg, t, lr), due, extra);
    assert FiringSteps(cfg, SaveGate, s.batches + 1) == due + extra;
  }

  lemma ChunkKeepsLr(cfg: Config, s: State, lr: Option<int>)
    requires s.lr == LastOf(FiringSteps(cfg, UpdateGate, s.batches))
    requires s.step == Visit(cfg, s.batches)
    requires lr == if Fires(cfg, UpdateGate, s.step) then Some(s.step) else s.lr
    ensures lr == LastOf(FiringSteps(cfg, UpdateGate, s.batches + 1))
  {
    var prev := FiringSteps(cfg, UpdateGate, s.batches);
    assert FiringSteps(cfg, UpdateGate, s.batches + 1) ==
      prev + (if Fires(cfg, UpdateGate, s.step) then [s.step] else []);
    if !Fires(cfg, UpdateGate, s.step) {
      assert prev + [] == prev;
    }
  }

  /** The metrics log of a chunk: its step and `lr`'s update step, if the log is due and `lr` is set. */
  lemma ChunkReports(cfg: Config, t: int, lr: Option<int>)
    ensures Reports(Chunk(cfg, t, lr)) == if Fires(cfg, LogGate, t) && lr.Some? then [(t, lr.value)] else []
  {
    var u, l, rest := UpdateEvents(cfg, t), LogEvents(cfg, t, lr),
      SynthEvents(cfg, t) + ValidateEvents(cfg, t) + SaveEvents(cfg, t);
    assert Chunk(cfg, t, lr) == u + l + rest;
    ReportsAppend(u + l, rest);
    ReportsAppend(u, l);
    ReportsNone(u);
    LogEventsReports(cfg, t, lr);
    TailReportsNone(cfg, t);
  }

  lemma LogEventsReports(cfg: Config, t: int, lr: Option<int>)
    ensures Reports(LogEvents(cfg, t, lr)) == if Fires(cfg, LogGate, t) && lr.Some? then [(t, lr.value)] else []
  {
    if Fires(cfg, LogGate, t) && lr.Some? {
      var l1, l2 := [LogText(t)], [LogScalars(t, lr.value)];
      assert LogEvents(cfg, t, lr) == l1 + l2;
      ReportsAppend(l1, l2);
      ReportsNone(l1);
    }
  }

  lemma TailReportsNone(cfg: Config, t: int)
    ensures Reports(SynthEvents(cfg, t) + ValidateEvents(cfg, t) + SaveEvents(cfg, t)) == []
  {
    ReportsNone(SynthEvents(cfg, t) + ValidateEvents(cfg, t) + SaveEvents(cfg, t));
  }

  lemma ChunkKeepsReports(cfg: Config, s: State, lr: Option<int>)
    requires Reports(s.events) == LogReports(cfg, s.batches)
    requires s.step == Visit(cfg, s.batches)
    requires lr == LastOf(FiringSteps(cfg, UpdateGate, s.batches + 1))
    ensures Reports(s.events + Chunk(cfg, s.step, lr)) == LogReports(cfg, s.batches + 1)
  {
    ReportsAppend(s.events, Chunk(cfg, s.step, lr));
    ChunkReports(cfg, s.step, lr);
  }

  /** The bookkeeping of one completed micro-batch keeps the state consistent. */
  lemma ChunkKeeps(cfg: Config, s: State, lr: Option<int>)
    requires Consistent(cfg, s) && s.step == Visit(cfg, s.batches)
    requires lr == if Fires(cfg, UpdateGate, s.step) then Some(s.step) else s.lr
    requires Fires(cfg, LogGate, s.step) ==> lr.Some?
    ensures Consistent(cfg, State(s.step, lr, s.events + Chunk(cfg, s.step, lr), s.batches + 1))
  {
    forall g
      ensures Trace(s.events + Chunk(cfg, s.step, lr), g) == FiringSteps(cfg, g, s.batches + 1)
    {
      ChunkKeepsTrace(cfg, s, lr, g);
    }
    ChunkKeepsSaved(cfg, s, lr);
    ChunkKeepsLr(cfg, s, lr);
    ChunkKeepsReports(cfg, s, lr);
    ChunkTraining(cfg, s.step, lr, s.events);
  }

  lemma InitConsistent(cfg: Config)
    ensures Consistent(cfg, Init(cfg)) && AtBoundary(cfg, Init(cfg))
  {
  }

  /** Consistency does not look at the step counter. */
  lemma ConsistentIgnoresStep(cfg: Config, st: State, x: int)
    requires Consistent(cfg, st)
    ensures Consistent(cfg, st.(step := x))
  {
  }

  lemma CompletedKeeps(cfg: Config, s: State)
    requires Consistent(cfg, s) && s.step == Visit(cfg, s.batches)
    requires Fires(cfg, LogGate, s.step) ==> LrAfterUpdate(cfg, s).Some?
    ensures Consistent(cfg, Completed(cfg, s))
  {
    var lr := LrAfterUpdate(cfg, s);
    ChunkKeeps(cfg, s, lr);
    assert Completed(cfg, s) == State(s.step, lr, s.events + Chunk(cfg, s.step, lr), s.batches + 1);
  }

  lemma StepKeepsConsistent(cfg: Config, s: State, b: MicroBatch)
    requires Consistent(cfg, s) && AtBoundary(cfg, s)
    ensures var o := Transition(cfg, s, b);
      !o.Crash? ==> Consistent(cfg, o.state)
  {
    var o := Transition(cfg, s, b);
    if !o.Crash? {
      CompletedKeeps(cfg, s);
      ConsistentIgnoresStep(cfg, Completed(cfg, s), s.step + Increment);
    }
  }

  lemma StepKeepsPosition(cfg: Config, s: State, b: MicroBatch)
    requires AtBoundary(cfg, s)
    ensures var o := Transition(cfg, s, b);
      && (o.Running? ==> AtBoundary(cfg, o.state))
      && (o.Quit? ==> AfterQuit(cfg, o.state))
  {
  }

  /** One micro-batch keeps the events in step with the schedule. */
  lemma StepKeeps(cfg: Config, s: State, b: MicroBatch)
    requires Consistent(cfg, s) && AtBoundary(cfg, s)
    ensures var o := Transition(cfg, s, b);
      && (o.Running? ==> Consistent(cfg, o.state) && AtBoundary(cfg, o.state))
      && (o.Quit? ==> Consistent(cfg, o.state) && AfterQuit(cfg, o.state))
  {
    StepKeepsConsistent(cfg, s, b);
    StepKeepsPosition(cfg, s, b);
  }

  /**
    Any run from a consistent boundary state ends consistent: running at a
    boundary, quit right after the step that reached total, or crashed at a
    boundary.
   */
  lemma {:induction false} RunKeeps(cfg: Config, s: State, bs: seq<MicroBatch>)
    requires Consistent(cfg, s) && AtBoundary(cfg, s)
    ensures var o := Run(cfg, s, bs);
      && Consistent(cfg, o.state)
      && (o.Running? ==> AtBoundary(cfg, o.state))
      && (o.Quit? ==> AfterQuit(cfg, o.state))
      && (o.Crash? ==> AtBoundary(cfg, o.state))
    decreases |bs|
  {
    if |bs| > 0 {
      StepKeeps(cfg, s, bs[0]);
      var first := Transition(cfg, s, bs[0]);
      if first.Running? {
        assert Run(cfg, s, bs) == Run(cfg, first.state, bs[1..]);
        RunKeeps(cfg, first.state, bs[1..]);
      } else {
        assert Run(cfg, s, bs) == first;
      }
    }
  }

  /** A crashed run raised, in the micro-batch after the completed ones, the first fault of that micro-batch. */
  lemma {:induction false} RunCrashSite(cfg: Config, s: State, bs: seq<MicroBatch>)
    ensures var o := Run(cfg, s, bs);
      o.Crash? ==>
        var k := o.state.batches - s.batches;
        0 <= k < |bs| && FirstFault(cfg, o.state, bs[k]) == Some(Abort(o.partial, o.fault))
    decreases |bs|
  {
    if |bs| > 0 {
      var first := Transition(cfg, s, bs[0]);
      if first.Running? {
        var next := first.state;
        assert Run(cfg, s, bs) == Run(cfg, next, bs[1..]);
        RunCrashSite(cfg, next, bs[1..]);
        var o := Run(cfg, next, bs[1..]);
        if o.Crash? {
          var k := o.state.batches - next.batches;
          assert bs[1..][k] == bs[k + 1];
        }
      } else {
        assert Run(cfg, s, bs) == first;
      }
    }
  }

  /**
    The schedule of a whole run: every action fired exactly at its due
    steps, and the run stands where the termination rule puts it.
   */
  lemma TrainSchedule(cfg: Config, bs: seq<MicroBatch>)
    ensures var o := Train(cfg, bs);
      && (forall g :: Trace(o.state.events, g) == FiringSteps(cfg, g, o.state.batches))
      && o.state.lr == LastOf(FiringSteps(cfg, UpdateGate, o.state.batches))
      && (o.Running? ==> o.state.batches == |bs| && o.state.step == Visit(cfg, |bs|))
      && (o.Running? ==> forall i :: 0 <= i < |bs| ==> Visit(cfg, i) < cfg.totalStep)
      && (o.Quit? ==> AfterQuit(cfg, o.state))
      && (o.Crash? ==> o.state.batches < |bs| && o.state.step == Visit(cfg, o.state.batches))
  {
    InitConsistent(cfg);
    RunKeeps(cfg, Init(cfg), bs);
    RunCrashSite(cfg, Init(cfg), bs);
  }

  /**
    The counter starts at restoreStep and only moves by whole increments: every
    state a run ends in sits at restoreStep plus an even number, at the visit
    of its last (or, when still running or crashed, next) micro-batch.
   */
  lemma TrainStepParity(cfg: Config, bs: seq<MicroBatch>)
    ensures var o := Train(cfg, bs);
      && o.state.step >= cfg.restoreStep
      && (o.state.step - cfg.restoreStep) % 2 == 0
      && o.state.step + (if o.Quit? then Increment else 0) == Visit(cfg, o.state.batches)
  {
    TrainSchedule(cfg, bs);
    var o := Train(cfg, bs);
    var i := if o.Quit? then o.state.batches - 1 else o.state.batches;
    assert o.state.step == Visit(cfg, i);
    VisitParity(cfg, i);
  }

  lemma VisitParity(cfg: Config, i: nat)
    ensures Visit(cfg, i) >= cfg.restoreStep && (Visit(cfg, i) - cfg.restoreStep) % 2 == 0
  {
  }

  /**
    A rank that quits does so at the first value of restoreStep,
    restoreStep + 2, ... that is at least totalStep, after QuitBatches
    micro-batches.
   */
  lemma TrainQuitStep(cfg: Config, bs: seq<MicroBatch>)
    ensures var o := Train(cfg, bs);
      o.Quit? ==>
        && o.state.step == FirstAtLeast(cfg.restoreStep, cfg.totalStep)
        && o.state.batches == QuitBatches(cfg)
  {
    TrainSchedule(cfg, bs);
    var o := Train(cfg, bs);
    if o.Quit? {
      AfterQuitPinned(cfg, o.state);
    }
  }

  /** Only one micro-batch count can end a run: the first visit at or past totalStep. */
  lemma AfterQuitPinned(cfg: Config, st: State)
    requires AfterQuit(cfg, st)
    ensures st.batches == QuitBatches(cfg)
    ensures st.step == FirstAtLeast(cfg.restoreStep, cfg.totalStep)
  {
  }

  /**
    Unless it crashes, a rank processes min(|bs|, QuitBatches) micro-batches,
    and it quits exactly when the input lasts that long.
   */
  lemma TrainProgress(cfg: Config, bs: seq<MicroBatch>)
    ensures var o := Train(cfg, bs);
      && (!o.Crash? ==> o.state.batches == if |bs| < QuitBatches(cfg) then |bs| else QuitBatches(cfg))
      && (!o.Crash? ==> (o.Quit? <==> |bs| >= QuitBatches(cfg)))
  {
    TrainSchedule(cfg, bs);
    TrainQuitStep(cfg, bs);
  }

  /** Resuming at or past totalStep processes exactly one micro-batch. */
  lemma TrainRestoredPastTotal(cfg: Config, bs: seq<MicroBatch>)
    requires cfg.restoreStep >= cfg.totalStep
    requires |bs| >= 1
    ensures var o := Train(cfg, bs);
      && !o.Running?
      && (o.Quit? ==> o.state.batches == 1 && o.state.step == cfg.restoreStep)
      && (o.Crash? ==> o.state.batches == 0)
  {
    TrainProgress(cfg, bs);
    TrainSchedule(cfg, bs);
  }

  /**
    The micro-batch that triggers `quit()` is processed in full first: every
    action due at the final step is the last one of its kind recorded.
   */
  lemma QuitBatchFullyProcessed(cfg: Config, bs: seq<MicroBatch>, g: Gate)
    ensures var o := Train(cfg, bs);
      o.Quit? && Fires(cfg, g, o.state.step) ==>
        var tr := Trace(o.state.events, g);
        |tr| > 0 && tr[|tr| - 1] == o.state.step
  {
    TrainSchedule(cfg, bs);
    var o := Train(cfg, bs);
    if o.Quit? {
      QuitTraceEnds(cfg, o.state, g);
    }
  }

  lemma QuitTraceEnds(cfg: Config, st: State, g: Gate)
    requires AfterQuit(cfg, st)
    requires Trace(st.events, g) == FiringSteps(cfg, g, st.batches)
    ensures Fires(cfg, g, st.step) ==>
      var tr := Trace(st.events, g);
      |tr| > 0 && tr[|tr| - 1] == st.step
  {
    FiringStepsLast(cfg, g, st.batches);
  }

  /** From an odd restore step with an even gradAccStep, no update ever fires. */
  lemma TrainOddStartNeverUpdates(cfg: Config, bs: seq<MicroBatch>)
    requires cfg.restoreStep % 2 == 1 && cfg.gradAccStep % 2 == 0
    ensures var o := Train(cfg, bs);
      Trace(o.state.events, UpdateGate) == [] && o.state.lr.None?
  {
    TrainSchedule(cfg, bs);
    OddStartNoUpdateSteps(cfg, Train(cfg, bs).state.batches);
  }

  /** Ranks other than the reporter never log, synthesize or validate, so never read `lr`. */
  lemma TrainNonReporterSilent(cfg: Config, bs: seq<MicroBatch>)
    requires cfg.rank != ReporterRank
    ensures var o := Train(cfg, bs);
      && Trace(o.state.events, LogGate) == []
      && Trace(o.state.events, SynthGate) == []
      && Trace(o.state.events, ValGate) == []
      && !(o.Crash? && o.fault.UnboundLr?)
  {
    TrainSchedule(cfg, bs);
    TrainUnboundLr(cfg, bs);
    var o := Train(cfg, bs);
    NonReporterNeverReports(cfg, LogGate, o.state.batches);
    NonReporterNeverReports(cfg, SynthGate, o.state.batches);
    NonReporterNeverReports(cfg, ValGate, o.state.batches);
  }

  /**
    Saving is not gated on the rank: any two ranks that get through the same
    micro-batches write the same checkpoint records.
   */
  lemma TrainSavesIgnoreRank(cfg: Config, rank: int, bs: seq<MicroBatch>)
    ensures var o1 := Train(cfg, bs);
      var o2 := Train(cfg.(rank := rank), bs);
      !o1.Crash? && !o2.Crash? ==> Saved(o1.state.events) == Saved(o2.state.events)
  {
    var other := cfg.(rank := rank);
    InitConsistent(cfg);
    InitConsistent(other);
    RunKeeps(cfg, Init(cfg), bs);
    RunKeeps(other, Init(other), bs);
    TrainProgress(cfg, bs);
    TrainProgress(other, bs);
    var n := Train(cfg, bs).state.batches;
    assert QuitBatches(cfg) == QuitBatches(other);
    SaveStepsIgnoreRank(cfg, rank, n);
  }

  /**
    Records written at strictly increasing save steps sit at
    `<ckptPath>/<step>.pth.tar` for their own steps, carry the model and
    optimizer entries, and have pairwise distinct paths.
   */
  lemma SaveRecordsWellNamed(cfg: Config, ts: seq<int>)
    requires forall i, j | 0 <= i < j < |ts| :: ts[i] < ts[j]
    requires forall t | t in ts :: Fires(cfg, SaveGate, t)
    ensures var rs := SaveRecords(cfg.ckptPath, ts);
      && (forall k | 0 <= k < |rs| ::
            && rs[k].Save?
            && rs[k].path == Checkpoint.SavePath(cfg.ckptPath, rs[k].step)
            && Checkpoint.BaseName(rs[k].path) == Checkpoint.CheckpointName(rs[k].step)
            && Checkpoint.ParseCheckpointName(Checkpoint.BaseName(rs[k].path)) == Some(rs[k].step)
            && rs[k].keys == ["model", "optimizer"]
            && Fires(cfg, SaveGate, rs[k].step))
      && (forall i, j | 0 <= i < j < |rs| :: rs[i].step < rs[j].step && rs[i].path != rs[j].path)
  {
    var rs := SaveRecords(cfg.ckptPath, ts);
    forall k | 0 <= k < |rs|
      ensures rs[k].Save? && rs[k].keys == ["model", "optimizer"]
      ensures rs[k].path == Checkpoint.SavePath(cfg.ckptPath, rs[k].step)
      ensures Checkpoint.BaseName(rs[k].path) == Checkpoint.CheckpointName(rs[k].step)
      ensures Checkpoint.ParseCheckpointName(Checkpoint.BaseName(rs[k].path)) == Some(rs[k].step)
      ensures Fires(cfg, SaveGate, rs[k].step)
    {
      assert rs[k] == Save(ts[k], Checkpoint.SavePath(cfg.ckptPath, ts[k]), Checkpoint.RecordKeys);
      Checkpoint.SavePathIdentifiesStep(cfg.ckptPath, ts[k], ts[k]);
      assert ts[k] in ts;
    }
    forall i, j | 0 <= i < j < |rs|
      ensures rs[i].path != rs[j].path
    {
      Checkpoint.SavePathIdentifiesStep(cfg.ckptPath, ts[i], ts[j]);
    }
    assert forall i, j | 0 <= i < j < |rs| :: rs[i].step < rs[j].step;
  }

  lemma TrainConsistent(cfg: Config, bs: seq<MicroBatch>)
    ensures Consistent(cfg, Train(cfg, bs).state)
  {
    InitConsistent(cfg);
    RunKeeps(cfg, Init(cfg), bs);
  }

  /** The saved records of any consistent state are well placed and distinct. */
  lemma ConsistentSaves(cfg: Config, st: State)
    requires Consistent(cfg, st)
    ensures var rs := Saved(st.events);
      && (forall k | 0 <= k < |rs| ::
            && rs[k].Save?
            && rs[k].path == Checkpoint.SavePath(cfg.ckptPath, rs[k].step)
            && Checkpoint.BaseName(rs[k].path) == Checkpoint.CheckpointName(rs[k].step)
            && Checkpoint.ParseCheckpointName(Checkpoint.BaseName(rs[k].path)) == Some(rs[k].step)
            && rs[k].keys == ["model", "optimizer"]
            && Fires(cfg, SaveGate, rs[k].step))
      && (forall i, j | 0 <= i < j < |rs| :: rs[i].step < rs[j].step && rs[i].path != rs[j].path)
  {
    var ts := FiringSteps(cfg, SaveGate, st.batches);
    FiringStepsMembers(cfg, SaveGate, st.batches);
    var rs := SaveRecords(cfg.ckptPath, ts);
    assert Saved(st.events) == rs;
    SaveRecordsWellNamed(cfg, ts);
  }

  /**
    Every checkpoint record a run writes goes to `<ckptPath>/<step>.pth.tar`
    for its own step, a path whose file name decodes back to the step; it
    holds exactly the model and optimizer entries and sits at a multiple of
    saveStep other than 0 and the restore step; the records come in step
    order and no two of one run share a path.
   */
  lemma TrainSavedCheckpoints(cfg: Config, bs: seq<MicroBatch>)
    ensures var rs := Saved(Train(cfg, bs).state.events);
      && (forall k | 0 <= k < |rs| ::
            && rs[k].Save?
            && rs[k].path == Checkpoint.SavePath(cfg.ckptPath, rs[k].step)
            && Checkpoint.BaseName(rs[k].path) == Checkpoint.CheckpointName(rs[k].step)
            && Checkpoint.ParseCheckpointName(Checkpoint.BaseName(rs[k].path)) == Some(rs[k].step)
            && rs[k].keys == ["model", "optimizer"]
            && Fires(cfg, SaveGate, rs[k].step))
      && (forall i, j | 0 <= i < j < |rs| :: rs[i].step < rs[j].step && rs[i].path != rs[j].path)
  {
    TrainConsistent(cfg, bs);
    ConsistentSaves(cfg, Train(cfg, bs).state);
  }

  /** Every run ends with the model in training mode (validation restores it). */
  lemma TrainEndsInTrainingMode(cfg: Config, bs: seq<MicroBatch>)
    ensures Training(Train(cfg, bs).state.events)
  {
    InitConsistent(cfg);
    RunKeeps(cfg, Init(cfg), bs);
  }

  /**
    Logging fails on an unset `lr` only in this situation: the reporter
    rank reaches a logging step before any visited step so far, that one
    included, was an update step.
   */
  /** `u` is the latest of the update steps `ups` at or before step `t`. */
  predicate LatestUpTo(ups: seq<int>, t: int, u: int) {
    u in ups && u <= t && forall v | v in ups && v <= t :: v <= u
  }

  /** The last entry of a sorted list is its largest. */
  lemma LastIsMax(xs: seq<int>)
    requires |xs| > 0
    requires forall i, j | 0 <= i < j < |xs| :: xs[i] < xs[j]
    ensures forall v | v in xs :: v <= xs[|xs| - 1]
  {
  }

  /** A metrics report `p` (log step, update step) is sound for the first `n` micro-batches. */
  predicate ReportSound(cfg: Config, n: nat, p: (int, int)) {
    && Visited(cfg, p.0, n) && Fires(cfg, LogGate, p.0)
    && LatestUpTo(FiringSteps(cfg, UpdateGate, n), p.0, p.1)
  }

  /** A sound report stays sound after one more micro-batch, whose visit is past its step. */
  lemma ReportSoundStep(cfg: Config, n: nat, p: (int, int))
    requires ReportSound(cfg, n, p)
    ensures ReportSound(cfg, n + 1, p)
  {
    var t := Visit(cfg, n);
    var prev, ups := FiringSteps(cfg, UpdateGate, n), FiringSteps(cfg, UpdateGate, n + 1);
    assert ups == prev + (if Fires(cfg, UpdateGate, t) then [t] else []);
    VisitedStep(cfg, p.0, n);
    assert p.0 < t;
  }

  /** The report written at the `n`-th visit is sound. */
  lemma ReportSoundNew(cfg: Config, n: nat)
    requires n >= 1
    requires Fires(cfg, LogGate, Visit(cfg, n - 1))
    requires LastOf(FiringSteps(cfg, UpdateGate, n)).Some?
    ensures ReportSound(cfg, n, (Visit(cfg, n - 1), LastOf(FiringSteps(cfg, UpdateGate, n)).value))
  {
    var ups := FiringSteps(cfg, UpdateGate, n);
    LastIsMax(ups);
    VisitedStep(cfg, Visit(cfg, n - 1), n - 1);
  }

  /** Every metrics report of the first `n` micro-batches pairs a log step with the latest update before it. */
  lemma {:induction false} LogReportsLatest(cfg: Config, n: nat)
    ensures forall k | 0 <= k < |LogReports(cfg, n)| :: ReportSound(cfg, n, LogReports(cfg, n)[k])
  {
    if n > 0 {
      LogReportsLatest(cfg, n - 1);
      var t, lr := Visit(cfg, n - 1), LastOf(FiringSteps(cfg, UpdateGate, n));
      var prev := LogReports(cfg, n - 1);
      var tail := if Fires(cfg, LogGate, t) && lr.Some? then [(t, lr.value)] else [];
      assert LogReports(cfg, n) == prev + tail;
      forall k | 0 <= k < |prev|
        ensures ReportSound(cfg, n, prev[k])
      {
        assert ReportSound(cfg, n - 1, prev[k]);
        ReportSoundStep(cfg, n - 1, prev[k]);
      }
      if |tail| > 0 {
        ReportSoundNew(cfg, n);
      }
    }
  }

  /** In a consistent state, every metrics log reports the latest update at or before its step. */
  lemma ConsistentLogsLatest(cfg: Config, st: State)
    requires Consistent(cfg, st)
    ensures var r, ups := Reports(st.events), Trace(st.events, UpdateGate);
      forall k | 0 <= k < |r| ::
        && Visited(cfg, r[k].0, st.batches) && Fires(cfg, LogGate, r[k].0)
        && r[k].1 in ups && r[k].1 <= r[k].0
        && forall v | v in ups && v <= r[k].0 :: v <= r[k].1
  {
    LogReportsLatest(cfg, st.batches);
    var r := Reports(st.events);
    assert r == LogReports(cfg, st.batches);
    assert Trace(st.events, UpdateGate) == FiringSteps(cfg, UpdateGate, st.batches);
    forall k | 0 <= k < |r|
      ensures ReportSound(cfg, st.batches, r[k])
    {
    }
  }

  /**
    Every metrics log of a run reports the `lr` of the latest update at or
    before its own step, at a log step the run visited.
   */
  lemma TrainLogsLatestLr(cfg: Config, bs: seq<MicroBatch>)
    ensures var o := Train(cfg, bs);
      var r, ups := Reports(o.state.events), Trace(o.state.events, UpdateGate);
      forall k | 0 <= k < |r| ::
        && Visited(cfg, r[k].0, o.state.batches) && Fires(cfg, LogGate, r[k].0)
        && r[k].1 in ups && r[k].1 <= r[k].0
        && forall v | v in ups && v <= r[k].0 :: v <= r[k].1
  {
    TrainConsistent(cfg, bs);
    ConsistentLogsLatest(cfg, Train(cfg, bs).state);
  }

  lemma TrainUnboundLr(cfg: Config, bs: seq<MicroBatch>)
    ensures var o := Train(cfg, bs);
      o.Crash? && o.fault.UnboundLr? ==>
        && cfg.rank == ReporterRank
        && o.fault.step == o.state.step
        && Fires(cfg, LogGate, o.state.step)
        && FiringSteps(cfg, UpdateGate, o.state.batches + 1) == []
  {
    TrainSchedule(cfg, bs);
    RunCrashSite(cfg, Init(cfg), bs);
  }

  lemma FirstVisitUpdates(cfg: Config, n: nat)
    requires cfg.gradAccStep != 0 && cfg.restoreStep % cfg.gradAccStep == 0
    requires n >= 1
    ensures cfg.restoreStep in FiringSteps(cfg, UpdateGate, n)
  {
    FiringStepsMembers(cfg, UpdateGate, n);
    assert Visited(cfg, cfg.restoreStep, n);
  }

  /**
    A rank whose micro-batches are all aligned, whose intervals are all
    nonzero, and which either is not the reporter or starts at a multiple of
    gradAccStep, never raises.
   */
  lemma TrainNeverCrashes(cfg: Config, bs: seq<MicroBatch>)
    requires forall k | 0 <= k < |bs| :: Aligned(bs[k])
    requires forall g :: Interval(cfg, g) != 0
    requires cfg.rank != ReporterRank || (cfg.gradAccStep != 0 && cfg.restoreStep % cfg.gradAccStep == 0)
    ensures !Train(cfg, bs).Crash?
  {
    TrainSchedule(cfg, bs);
    TrainConsistent(cfg, bs);
    RunCrashSite(cfg, Init(cfg), bs);
    var st := Train(cfg, bs).state;
    UpdatedByNow(cfg, st);
    FaultFreeAt(cfg, st, bs, st.batches);
  }

  /** From a restore step that is a multiple of gradAccStep, `lr` is set whenever a log can run. */
  lemma UpdatedByNow(cfg: Config, st: State)
    ensures
      && Consistent(cfg, st)
      && st.step == Visit(cfg, st.batches)
      && cfg.gradAccStep != 0 && cfg.restoreStep % cfg.gradAccStep == 0
      ==> st.lr.Some? || Fires(cfg, UpdateGate, st.step)
  {
    if Consistent(cfg, st) && cfg.gradAccStep != 0 && cfg.restoreStep % cfg.gradAccStep == 0 && st.batches > 0 {
      FirstVisitUpdates(cfg, st.batches);
    }
  }

  /** An aligned micro-batch under nonzero intervals raises only by logging an unset `lr`. */
  lemma FaultFreeAt(cfg: Config, st: State, bs: seq<MicroBatch>, k: int)
    ensures
      && 0 <= k < |bs| && Aligned(bs[k])
      && (forall g :: Interval(cfg, g) != 0)
      && (cfg.rank != ReporterRank || st.lr.Some? || Fires(cfg, UpdateGate, st.step))
      ==> FirstFault(cfg, st, bs[k]).None?
  {
  }

  /**
    A concrete failure: the reporter rank resumed at step 2 with updates
    every 4 steps and logging every 2 logs before any update and fails on
    its first micro-batch, having written the text line.
   */
  lemma LogBeforeFirstUpdateFails()
    ensures var cfg := Config(1, 2, 100, 4, 2, 1000, 1000, 1000, "ckpt");
      Train(cfg, [MicroBatch(7, 7)]) == Crash(Init(cfg), [LogText(2)], UnboundLr(2))
  {
  }
}
