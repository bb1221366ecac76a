/**
  One rank's training loop as a state machine: a pure transition for one
  micro-batch, folded over the micro-batches the loader hands out (all
  epochs flattened into one sequence). Tensors are gone; what remains is the
  step counter, the learning-rate bookkeeping, and the side effects each
  micro-batch emits, in the order the loop body performs them.
 */
module StepEngine {
  import opened Wrappers
  import opened Schedule
  import Checkpoint

  /**
    A micro-batch, reduced to the one thing the loop inspects: the leading
    (time) dimension of the first example in field 8 (pitch) and in field 5
    (duration/alignment).
   */
  datatype MicroBatch = MicroBatch(pitchFrames: nat, durationFrames: nat)

  predicate Aligned(b: MicroBatch) {
    b.pitchFrames == b.durationFrames
  }

  /** Side effects, in the order they leave the loop body. */
  datatype Event =
    | Update(step: int)                     // clip, optimizer step, zero_grad
    | LogText(step: int)                    // line appended to train/log.txt and echoed
    | LogScalars(step: int, lrStep: int)    // metrics sink; lr came from the update at lrStep
    | Synth(step: int)                      // one synthesized sample to the metrics sink
    | ModelEval                             // model.eval()
    | Validate(step: int)                   // evaluate(...), line appended to val/log.txt
    | ModelTrain                            // model.train()
    | Save(step: int, path: string, keys: seq<string>)  // torch.save of the listed entries to `path`

  /** Why a rank stops with an exception. */
  datatype Fault =
    | Misaligned(step: int)   // the length assertion on fields 8 and 5 fails
    | ZeroInterval(gate: Gate) // `step % 0` raises ZeroDivisionError
    | UnboundLr(step: int)    // logging reads `lr` before any update assigned it

  /**
    The rank's bookkeeping between micro-batches. `lr` is None until the
    first update; afterwards it names the step of the update whose returned
    learning rate the variable holds. `batches` counts completed micro-batches.
   */
  datatype State = State(step: int, lr: Option<int>, events: seq<Event>, batches: nat)

  /**
    Running: the loop goes on. Quit: `quit()` after a fully processed
    micro-batch. Crash: an exception during a micro-batch, carrying the state
    at its start and the events it emitted before failing.
   */
  datatype Outcome =
    | Running(state: State)
    | Quit(state: State)
    | Crash(state: State, partial: seq<Event>, fault: Fault)

  function Init(cfg: Config): State {
    State(cfg.restoreStep, None, [], 0)
  }

  function UpdateEvents(cfg: Config, t: int): seq<Event> {
    if Fires(cfg, UpdateGate, t) then [Update(t)] else []
  }

  function LogEvents(cfg: Config, t: int, lr: Option<int>): seq<Event> {
    if Fires(cfg, LogGate, t) && lr.Some? then [LogText(t), LogScalars(t, lr.value)] else []
  }

  function SynthEvents(cfg: Config, t: int): seq<Event> {
    if Fires(cfg, SynthGate, t) then [Synth(t)] else []
  }

  function ValidateEvents(cfg: Config, t: int): seq<Event> {
    if Fires(cfg, ValGate, t) then [ModelEval, Validate(t), ModelTrain] else []
  }

  function SaveEvents(cfg: Config, t: int): seq<Event> {
    if Fires(cfg, SaveGate, t) then [Save(t, Checkpoint.SavePath(cfg.ckptPath, t), Checkpoint.RecordKeys)] else []
  }

  /** Everything one completed micro-batch at step `t` emits, in order. */
  function Chunk(cfg: Config, t: int, lr: Option<int>): seq<Event> {
    UpdateEvents(cfg, t) + LogEvents(cfg, t, lr) + SynthEvents(cfg, t)
    + ValidateEvents(cfg, t) + SaveEvents(cfg, t)
  }

  /** The events the checks before gate `g` emit, in a micro-batch at step `t`. */
  function EventsBefore(cfg: Config, t: int, lr: Option<int>, g: Gate): seq<Event> {
    match g
    case UpdateGate => []
    case LogGate => UpdateEvents(cfg, t)
    case SynthGate => UpdateEvents(cfg, t) + LogEvents(cfg, t, lr)
    case ValGate => UpdateEvents(cfg, t) + LogEvents(cfg, t, lr) + SynthEvents(cfg, t)
    case SaveGate => UpdateEvents(cfg, t) + LogEvents(cfg, t, lr) + SynthEvents(cfg, t) + ValidateEvents(cfg, t)
  }

  /** The value `lr` holds after the update check of a micro-batch at step `s.step`. */
  function LrAfterUpdate(cfg: Config, s: State): Option<int> {
    if Fires(cfg, UpdateGate, s.step) then Some(s.step) else s.lr
  }

  /** The state after a micro-batch at step `s.step` has run through every check. */
  function Completed(cfg: Config, s: State): State {
    var lr := LrAfterUpdate(cfg, s);
    State(s.step, lr, s.events + Chunk(cfg, s.step, lr), s.batches + 1)
  }

  /** An exception raised part-way through a micro-batch, after `partial` was emitted. */
  datatype Abort = Abort(partial: seq<Event>, fault: Fault)

  /**
    The first exception a micro-batch at step `s.step` raises, checking in
    the order of the loop body, or None when it runs through.
   */
  function FirstFault(cfg: Config, s: State, b: MicroBatch): (r: Option<Abort>)
    ensures r.None? ==> Aligned(b) && forall g :: Interval(cfg, g) != 0
    ensures r.None? ==> Fires(cfg, LogGate, s.step) ==> LrAfterUpdate(cfg, s).Some?
    ensures (r.Some? && r.value.fault.Misaligned?) <==> !Aligned(b)
    ensures r.Some? && r.value.fault.Misaligned? ==> r.value.fault.step == s.step && r.value.partial == []
    ensures r.Some? && r.value.fault.ZeroInterval? ==>
      var g := r.value.fault.gate;
      && Aligned(b)
      && Interval(cfg, g) == 0
      && (forall h | GateOrder(h) < GateOrder(g) :: Interval(cfg, h) != 0)
      && (GateOrder(LogGate) < GateOrder(g) && Fires(cfg, LogGate, s.step) ==> LrAfterUpdate(cfg, s).Some?)
      && r.value.partial == EventsBefore(cfg, s.step, LrAfterUpdate(cfg, s), g)
    ensures r.Some? && r.value.fault.UnboundLr? ==>
      && Aligned(b)
      && cfg.gradAccStep != 0 && cfg.logStep != 0
      && r.value.fault.step == s.step
      && s.lr.None?
      && !Fires(cfg, UpdateGate, s.step)
      && Fires(cfg, LogGate, s.step)
      && r.value.partial == [LogText(s.step)]
  {
    var t := s.step;
    var lr := LrAfterUpdate(cfg, s);
    var up := UpdateEvents(cfg, t);
    var log := LogEvents(cfg, t, lr);
    var synth := SynthEvents(cfg, t);
    var val := ValidateEvents(cfg, t);
    // The synth branch repeats the length assertion on the same, unchanged
    // batch; it cannot fail once the first assertion has passed.
    if !Aligned(b) then Some(Abort([], Misaligned(t)))
    else if cfg.gradAccStep == 0 then Some(Abort([], ZeroInterval(UpdateGate)))
    else if cfg.logStep == 0 then Some(Abort(up, ZeroInterval(LogGate)))
    // the text line is written before the metrics call reads `lr`
    else if Fires(cfg, LogGate, t) && lr.None? then Some(Abort(up + [LogText(t)], UnboundLr(t)))
    else if cfg.synthStep == 0 then Some(Abort(up + log, ZeroInterval(SynthGate)))
    else if cfg.valStep == 0 then Some(Abort(up + log + synth, ZeroInterval(ValGate)))
    else if cfg.saveStep == 0 then Some(Abort(up + log + synth + val, ZeroInterval(SaveGate)))
    else None
  }

  /** Processes one micro-batch: the body of the inner `for batch in batchs` loop. */
  function Transition(cfg: Config, s: State, b: MicroBatch): (o: Outcome)
    ensures o.Running? ==> s.step < cfg.totalStep && o.state.step == s.step + Increment
    ensures o.Quit? ==> s.step >= cfg.totalStep && o.state.step == s.step
    ensures !o.Crash? ==> o.state.batches == s.batches + 1 && s.events <= o.state.events
    ensures o.Crash? ==> o.state == s
    ensures o.Crash? <==> FirstFault(cfg, s, b).Some?
    ensures o.Crash? ==> FirstFault(cfg, s, b) == Some(Abort(o.partial, o.fault))
    ensures o.Quit? ==> o.state == Completed(cfg, s)
    ensures o.Running? ==> o.state == Completed(cfg, s).(step := s.step + Increment)
  {
    match FirstFault(cfg, s, b)
    case Some(abort) => Crash(s, abort.partial, abort.fault)
    case None =>
      if s.step >= cfg.totalStep then Quit(Completed(cfg, s))
      else Running(Completed(cfg, s).(step := s.step + Increment))
  }

  /** The loop over a sequence of micro-batches, stopping at quit or crash. */
  function Run(cfg: Config, s: State, bs: seq<MicroBatch>): (o: Outcome)
    ensures o.state.step >= s.step
    ensures o.state.batches <= s.batches + |bs|
    ensures s.events <= o.state.events
    ensures o.Running? ==> o.state.batches == s.batches + |bs| && o.state.step == s.step + Increment * |bs|
    decreases |bs|
  {
    if |bs| == 0 then Running(s)
    else
      match Transition(cfg, s, bs[0])
      case Running(next) => Run(cfg, next, bs[1..])
      case other => other
  }

  /** A rank's whole run from the restore step. */
  function Train(cfg: Config, bs: seq<MicroBatch>): Outcome {
    Run(cfg, Init(cfg), bs)
  }

  /** The steps of the events that record action `g`, in emission order. */
  function Trace(events: seq<Event>, g: Gate): seq<int> {
    if |events| == 0 then []
    else
      var e := events[|events| - 1];
      var here := match e
        case Update(t) => if g == UpdateGate then [t] else []
        case LogText(t) => if g == LogGate then [t] else []
        case Synth(t) => if g == SynthGate then [t] else []
        case Validate(t) => if g == ValGate then [t] else []
        case Save(t, _, _) => if g == SaveGate then [t] else []
        case _ => [];
      Trace(events[..|events| - 1], g) + here
  }

  /** The checkpoint records written, in order. */
  function Saved(events: seq<Event>): seq<Event> {
    if |events| == 0 then []
    else
      var e := events[|events| - 1];
      Saved(events[..|events| - 1]) + (if e.Save? then [e] else [])
  }

  /** The metrics logs written, in order: each log step with the step of the update its `lr` came from. */
  function Reports(events: seq<Event>): seq<(int, int)> {
    if |events| == 0 then []
    else
      var e := events[|events| - 1];
      Reports(events[..|events| - 1]) + (if e.LogScalars? then [(e.step, e.lrStep)] else [])
  }

  /** Whether the model is in training mode after the given events, starting in it. */
  function Training(events: seq<Event>): bool {
    if |events| == 0 then true
    else
      var e := events[|events| - 1];
      if e.ModelEval? then false
      else if e.ModelTrain? then true
      else Training(events[..|events| - 1])
  }
}
