/**
  The step schedule of one training rank: which step values a rank visits,
  and at which of them each periodic action (optimizer update, log, synth,
  validate, save) is due.
 */
module Schedule {

  /** The step counter rises by this much after every micro-batch. */
  const Increment: int := 2

  /** The only rank that logs, synthesizes and validates. */
  const ReporterRank: int := 1

  /** The settings one rank's training loop reads before it starts. */
  datatype Config = Config(
    rank: int,
    restoreStep: int,
    totalStep: int,
    gradAccStep: int,
    logStep: int,
    synthStep: int,
    valStep: int,
    saveStep: int,
    ckptPath: string)

  /** The periodic actions, in the order a micro-batch checks them. */
  datatype Gate = UpdateGate | LogGate | SynthGate | ValGate | SaveGate

  /** Position of a gate's check in the loop body. */
  function GateOrder(g: Gate): nat {
    match g
    case UpdateGate => 0
    case LogGate => 1
    case SynthGate => 2
    case ValGate => 3
    case SaveGate => 4
  }

  /** The modulus each action's gate divides the step by. */
  function Interval(cfg: Config, g: Gate): int {
    match g
    case UpdateGate => cfg.gradAccStep
    case LogGate => cfg.logStep
    case SynthGate => cfg.synthStep
    case ValGate => cfg.valStep
    case SaveGate => cfg.saveStep
  }

  /**
    Whether action `g` is due at step `t`. A zero interval never fires: the
    source divides by it and fails first.
   */
  predicate Fires(cfg: Config, g: Gate, t: int) {
    var m := Interval(cfg, g);
    && m != 0
    && t % m == 0
    && match g
       case UpdateGate => true
       case LogGate => cfg.rank == ReporterRank
       case SynthGate => cfg.rank == ReporterRank && t != 0 && t != cfg.restoreStep
       case ValGate => cfg.rank == ReporterRank && t != 0 && t != cfg.restoreStep
       case SaveGate => t != 0 && t != cfg.restoreStep
  }

  /** The step value seen by the `i`-th micro-batch (counting from 0). */
  function Visit(cfg: Config, i: nat): int {
    cfg.restoreStep + Increment * i
  }

  /** Whether `t` is one of the step values seen by the first `n` micro-batches. */
  predicate Visited(cfg: Config, t: int, n: nat) {
    && cfg.restoreStep <= t
    && (t - cfg.restoreStep) % Increment == 0
    && (t - cfg.restoreStep) / Increment < n
  }

  lemma VisitedStep(cfg: Config, t: int, n: nat)
    ensures Visited(cfg, t, n + 1) <==> Visited(cfg, t, n) || t == Visit(cfg, n)
  {
  }

  /**
    The steps, among those the first `n` micro-batches see, at which `g` is
    due, in the order they are reached.
   */
  function FiringSteps(cfg: Config, g: Gate, n: nat): (r: seq<int>)
    ensures forall i, j | 0 <= i < j < |r| :: r[i] < r[j]
    ensures forall i | 0 <= i < |r| :: cfg.restoreStep <= r[i] < Visit(cfg, n)
  {
    if n == 0 then []
    else
      var t := Visit(cfg, n - 1);
      FiringSteps(cfg, g, n - 1) + (if Fires(cfg, g, t) then [t] else [])
  }

  /** The last visit is the last entry of a gate's firing steps exactly when the gate fires there. */
  lemma FiringStepsLast(cfg: Config, g: Gate, n: nat)
    requires n >= 1
    ensures var r := FiringSteps(cfg, g, n);
      Fires(cfg, g, Visit(cfg, n - 1)) <==> |r| > 0 && r[|r| - 1] == Visit(cfg, n - 1)
  {
  }

  /**
    FiringSteps lists exactly the visited steps at which the action is due:
    nothing is missed and nothing else is listed.
   */
  lemma {:induction false} FiringStepsMembers(cfg: Config, g: Gate, n: nat)
    ensures forall t :: t in FiringSteps(cfg, g, n) <==> Visited(cfg, t, n) && Fires(cfg, g, t)
  {
    if n > 0 {
      FiringStepsMembers(cfg, g, n - 1);
      forall t
        ensures Visited(cfg, t, n) <==> Visited(cfg, t, n - 1) || t == Visit(cfg, n - 1)
      {
        VisitedStep(cfg, t, n - 1);
      }
    }
  }

  /**
    Micro-batches between two consecutive optimizer updates: lcm(2, m) / 2 for
    the update interval `m`, i.e. m / 2 when `m` is even and m when it is odd.
   */
  function UpdatePeriod(m: int): (p: int)
    requires m > 0
    ensures p > 0
  {
    if m % 2 == 0 then m / 2 else m
  }

  lemma MulBound(m: int, k: int)
    requires m > 0
    ensures k >= 1 ==> m * k >= m
    ensures k <= -1 ==> m * k <= -m
  {
  }

  lemma MultipleMod(m: int, q: int)
    requires m > 0
    ensures (m * q) % m == 0
  {
    var a := m * q;
    var d := a / m;
    assert m * (q - d) == a % m;
    MulBound(m, q - d);
  }

  lemma OddProduct(m: int, q: int)
    ensures m % 2 == 1 && q % 2 == 1 ==> (m * q) % 2 == 1
  {
    if m % 2 == 1 && q % 2 == 1 {
      var a := m / 2;
      var b := q / 2;
      assert m == 2 * a + 1 && q == 2 * b + 1;
      assert m * q == 2 * (2 * a * b + a + b) + 1;
    }
  }

  lemma EvenDivisor(t: int, m: int)
    requires m % 2 == 0 && m != 0
    ensures t % m == 0 ==> t % 2 == 0
  {
    var q := t / m;
    assert t == m * q + t % m;
    assert m * q == 2 * ((m / 2) * q);
  }

  lemma ModAddMultiple(a: int, b: int, m: int)
    requires m > 0 && a % m == 0
    ensures (a + b) % m == 0 <==> b % m == 0
  {
    var qa := a / m;
    assert a == m * qa;
    if b % m == 0 {
      var qb := b / m;
      assert a + b == m * (qa + qb);
      MultipleMod(m, qa + qb);
    }
    if (a + b) % m == 0 {
      var qs := (a + b) / m;
      assert b == m * (qs - qa);
      MultipleMod(m, qs - qa);
    }
  }

  lemma TwiceMultipleEven(k: int, m: int)
    requires m > 0 && m % 2 == 0
    ensures (2 * k) % m == 0 <==> k % (m / 2) == 0
  {
    var p := m / 2;
    assert m == 2 * p;
    if k % p == 0 {
      var q := k / p;
      assert k == p * q;
      assert 2 * k == m * q;
      MultipleMod(m, q);
    }
    if (2 * k) % m == 0 {
      var q := (2 * k) / m;
      assert 2 * k == m * q;
      assert k == p * q;
      MultipleMod(p, q);
    }
  }

  lemma TwiceMultipleOdd(k: int, m: int)
    requires m > 0 && m % 2 == 1
    ensures (2 * k) % m == 0 <==> k % m == 0
  {
    if k % m == 0 {
      var q := k / m;
      assert k == m * q;
      assert 2 * k == m * (2 * q);
      MultipleMod(m, 2 * q);
    }
    if (2 * k) % m == 0 {
      var q := (2 * k) / m;
      assert 2 * k == m * q;
      OddProduct(m, q);
      assert q % 2 == 0;
      assert k == m * (q / 2);
      MultipleMod(m, q / 2);
    }
  }

  lemma TwiceMultiple(k: int, m: int)
    requires m > 0
    ensures (Increment * k) % m == 0 <==> k % UpdatePeriod(m) == 0
  {
    if m % 2 == 0 {
      TwiceMultipleEven(k, m);
    } else {
      TwiceMultipleOdd(k, m);
    }
  }

  /**
    Once an update has fired at micro-batch `i`, a later micro-batch `j`
    updates exactly when `j - i` is a multiple of UpdatePeriod: updates are
    lcm(2, gradAccStep) step units apart.
   */
  lemma UpdateCadence(cfg: Config, i: nat, j: nat)
    requires cfg.gradAccStep > 0
    requires Fires(cfg, UpdateGate, Visit(cfg, i))
    requires i <= j
    ensures Fires(cfg, UpdateGate, Visit(cfg, j)) <==> (j - i) % UpdatePeriod(cfg.gradAccStep) == 0
  {
    var m := cfg.gradAccStep;
    assert Visit(cfg, j) == Visit(cfg, i) + Increment * (j - i);
    ModAddMultiple(Visit(cfg, i), Increment * (j - i), m);
    TwiceMultiple(j - i, m);
  }

  /**
    From a restore step that is a multiple of gradAccStep (a cold start from
    step 0 included), the update fires at micro-batches 0, p, 2p, ... with
    p = UpdatePeriod(gradAccStep).
   */
  lemma UpdatesFromAlignedStart(cfg: Config, j: nat)
    requires cfg.gradAccStep > 0
    requires cfg.restoreStep % cfg.gradAccStep == 0
    ensures Fires(cfg, UpdateGate, Visit(cfg, j)) <==> j % UpdatePeriod(cfg.gradAccStep) == 0
  {
    UpdateCadence(cfg, 0, j);
  }

  /** An odd restore step with an even gradAccStep never meets an update. */
  lemma OddStartNeverUpdates(cfg: Config, i: nat)
    requires cfg.restoreStep % 2 == 1
    requires cfg.gradAccStep % 2 == 0
    ensures !Fires(cfg, UpdateGate, Visit(cfg, i))
  {
    if cfg.gradAccStep != 0 {
      EvenDivisor(Visit(cfg, i), cfg.gradAccStep);
    }
  }

  /** Hence the whole update schedule of such a rank is empty. */
  lemma {:induction false} OddStartNoUpdateSteps(cfg: Config, n: nat)
    requires cfg.restoreStep % 2 == 1
    requires cfg.gradAccStep % 2 == 0
    ensures FiringSteps(cfg, UpdateGate, n) == []
  {
    if n > 0 {
      OddStartNoUpdateSteps(cfg, n - 1);
      OddStartNeverUpdates(cfg, n - 1);
    }
  }

  /**
    The first value of restoreStep, restoreStep + 2, ... that is at least
    `bound`.
   */
  function FirstAtLeast(start: int, bound: int): (r: int)
    ensures r >= bound && r >= start
    ensures (r - start) % Increment == 0
    ensures r == start || r - Increment < bound
  {
    if start >= bound then start else start + Increment * ((bound - start + 1) / 2)
  }

  /**
    How many micro-batches a rank processes before it quits: the last one is
    the first whose step is at least totalStep.
   */
  function QuitBatches(cfg: Config): (n: nat)
    ensures n >= 1
    ensures Visit(cfg, n - 1) == FirstAtLeast(cfg.restoreStep, cfg.totalStep)
    ensures Visit(cfg, n - 1) >= cfg.totalStep
    ensures n == 1 || Visit(cfg, n - 2) < cfg.totalStep
  {
    (FirstAtLeast(cfg.restoreStep, cfg.totalStep) - cfg.restoreStep) / Increment + 1
  }

  /** Whether the save gate depends on the rank: it does not. */
  lemma {:induction false} SaveStepsIgnoreRank(cfg: Config, rank: int, n: nat)
    ensures FiringSteps(cfg, SaveGate, n) == FiringSteps(cfg.(rank := rank), SaveGate, n)
  {
    if n > 0 {
      SaveStepsIgnoreRank(cfg, rank, n - 1);
      var t := Visit(cfg, n - 1);
      assert Visit(cfg.(rank := rank), n - 1) == t;
      assert Fires(cfg, SaveGate, t) == Fires(cfg.(rank := rank), SaveGate, t);
    }
  }

  /** Ranks other than the reporter never log, synthesize or validate. */
  lemma NonReporterNeverReports(cfg: Config, g: Gate, n: nat)
    requires cfg.rank != ReporterRank
    requires g == LogGate || g == SynthGate || g == ValGate
    ensures FiringSteps(cfg, g, n) == []
  {
    var r := FiringSteps(cfg, g, n);
    FiringStepsMembers(cfg, g, n);
    if |r| > 0 {
      assert r[0] in r;
    }
  }
}
