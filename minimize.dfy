/** The minimizer of naiveb/minimize.py: a guess that moves only by strictly
    improving, feasible steps; gradient-descent and Newton steps that retry
    the opposite direction once; and a round loop whose noise and learning
    rates are adjusted by the number of failed and successful steps.

    The behaviour is first given on values (`Config`, `State` and the
    functions `Attempted`, `Retried`, `PhaseRun`, `RoundRun`, `RunRounds`),
    and the class `Minimize` is then proved to follow it call by call. */
module Minimizer {
  import opened Wrappers
  import opened Vectors

  /** Why `attempt` raises. */
  datatype Reason = OutOfBoundaries | GotStuck

  datatype Outcome = Accepted | Failed(reason: Reason)

  /** A pair `(x, y)` given to a secant learner with `learner + (x, y)`. */
  datatype Observation = Observation(input: seq<real>, output: seq<real>)

  /** The answers of the two secant learners built by `Linear(dim)` when no
      gradient or no Hessian is supplied, as functions of the observations
      each has been given:
      - `estimate`: what `compute` returns from the gradient learner;
      - `at`: the gradient learner applied to a point, `self.grad(x)`;
      - `newton`: the Newton step the Hessian learner gives for a gradient. */
  datatype Learners = Learners(
    estimate: seq<Observation> -> seq<real>,
    at: (seq<Observation>, seq<real>) -> seq<real>,
    newton: (seq<Observation>, seq<real>) -> seq<real>)

  /** What a `Minimize` object never changes: the dimension, the objective,
      the optional analytic gradient and inverse Hessian, the feasibility
      test and the learners' answers. */
  datatype Config = Config(
    dim: nat,
    func: seq<real> -> real,
    grad: Option<seq<real> -> seq<real>>,
    hess: Option<(seq<real>, seq<real>) -> seq<real>>,
    constrain: seq<real> -> bool,
    learners: Learners)

  /** What `attempt` changes: the guess and what each learner has been told. */
  datatype State = State(guess: seq<real>, gradObs: seq<Observation>, hessObs: seq<Observation>)

  /** Every step source answers with a vector of the argument's dimension. */
  ghost predicate Dimensioned(c: Config)
  {
    && (forall obs :: |c.learners.estimate(obs)| == c.dim)
    && (forall obs, g :: |c.learners.newton(obs, g)| == c.dim)
    && (c.grad.Some? ==> forall x :: |c.grad.value(x)| == c.dim)
    && (c.hess.Some? ==> forall x, g :: |c.hess.value(x, g)| == c.dim)
  }

  ghost predicate Fits(c: Config, s: State)
  {
    Dimensioned(c) && |s.guess| == c.dim
  }

  /** `compute()`: the supplied gradient at the guess, or else the gradient
      learner's current estimate. */
  function Computed(c: Config, s: State): (g: seq<real>)
    requires Fits(c, s)
    ensures |g| == c.dim
  {
    if c.grad.Some? then c.grad.value(s.guess) else c.learners.estimate(s.gradObs)
  }

  /** The step `nt_step` tries: the supplied inverse Hessian applied to
      `compute()`, or else the Hessian learner's answer for it. */
  function NewtonStepAt(c: Config, s: State): (step: seq<real>)
    requires Fits(c, s)
    ensures |step| == c.dim
  {
    var gradient := Computed(c, s);
    if c.hess.Some? then c.hess.value(s.guess, gradient) else c.learners.newton(s.hessObs, gradient)
  }

  /** The step `gd_step(learn_rate, randn_rate)` tries, `compute() *
      learn_rate + draw * randn_rate`, with the draw `randn(dim) / dim` given. */
  function GdStepAt(c: Config, s: State, learnRate: real, randnRate: real, draw: seq<real>): (step: seq<real>)
    requires Fits(c, s) && |draw| == c.dim
    ensures |step| == c.dim
  {
    Add(Scale(Computed(c, s), learnRate), Scale(draw, randnRate))
  }

  /** Every draw `randn(dim) / dim` has the dimension of the guess. */
  ghost predicate DrawsFit(c: Config, draws: (nat, nat) -> seq<real>)
  {
    forall j, i :: |draws(j, i)| == c.dim
  }

  /** The end-of-round test `norm(self.grad(self.guess)) < toll`, on the
      squared norm. */
  predicate Converged(c: Config, s: State, toll: real)
  {
    var g := if c.grad.Some? then c.grad.value(s.guess) else c.learners.at(s.gradObs, s.guess);
    0.0 < toll && SqNorm(g) < toll * toll
  }

  /** What one attempt, or one retried step, does to the state. */
  datatype Transition = Transition(outcome: Outcome, state: State)

  /** `attempt(step)`: an infeasible candidate `guess - step` is out of
      boundaries, a feasible one is taken exactly when it lowers `func`, and
      otherwise the search got stuck. Only a taken step is shown to the
      learners that stand in for a missing gradient or Hessian: the gradient
      learner gets the step and the drop in `func`, then the Hessian learner
      gets the change in `compute()` and the step. */
  function Attempted(c: Config, s: State, step: seq<real>): (t: Transition)
    requires Fits(c, s) && |step| == c.dim
    ensures Fits(c, t.state)
  {
    var candidate := Sub(s.guess, step);
    if !c.constrain(candidate) then Transition(Failed(OutOfBoundaries), s)
    else if c.func(candidate) < c.func(s.guess) then
      var gradObs := if c.grad.Some? then s.gradObs
        else s.gradObs + [Observation(step, [c.func(s.guess) - c.func(candidate)])];
      var moved := State(candidate, gradObs, s.hessObs);
      var hessObs := if c.hess.Some? then s.hessObs
        else s.hessObs + [Observation(Sub(Computed(c, s), Computed(c, moved)), step)];
      Transition(Accepted, State(candidate, gradObs, hessObs))
    else Transition(Failed(GotStuck), s)
  }

  /** The three outcomes of `attempt`, what a taken step tells the learners,
      and the two invariants it keeps: the guess stays feasible and `func`
      only drops, strictly exactly when the step is taken. */
  lemma AttemptedSpec(c: Config, s: State, step: seq<real>)
    requires Fits(c, s) && |step| == c.dim
    ensures var t := Attempted(c, s, step);
      && (t.outcome == Failed(OutOfBoundaries) <==> !c.constrain(Sub(s.guess, step)))
      && (t.outcome == Accepted <==> c.constrain(Sub(s.guess, step)) && c.func(Sub(s.guess, step)) < c.func(s.guess))
      && (t.outcome == Accepted ==> t.state.guess == Sub(s.guess, step))
      && (t.outcome == Accepted ==>
            t.state.gradObs == s.gradObs + (if c.grad.Some? then [] else [Observation(step, [c.func(s.guess) - c.func(t.state.guess)])]))
      && (t.outcome == Accepted ==>
            t.state.hessObs == s.hessObs + (if c.hess.Some? then [] else [Observation(Sub(Computed(c, s), Computed(c, t.state)), step)]))
      && (t.outcome.Failed? ==> t.state == s)
      && (c.constrain(s.guess) ==> c.constrain(t.state.guess))
      && (t.outcome == Accepted <==> c.func(t.state.guess) < c.func(s.guess))
      && c.func(t.state.guess) <= c.func(s.guess)
  {
  }

  lemma SubNeg(guess: seq<real>, step: seq<real>)
    requires |step| == |guess|
    ensures Sub(guess, Neg(step)) == Add(guess, step)
  {
  }

  /** The retry policy of `gd_step` and `nt_step`: attempt the step, and
      only if that fails attempt its negation; a second failure is the
      result. At most one of the two moves is taken. */
  function Retried(c: Config, s: State, step: seq<real>): (t: Transition)
    requires Fits(c, s) && |step| == c.dim
    ensures Fits(c, t.state)
  {
    var first := Attempted(c, s, step);
    if first.outcome == Accepted then first
    else Attempted(c, s, Neg(step))
  }

  /** `Retried` tries the step and, only after a failure, its negation; at
      most one move is taken, and it keeps the guess feasible and `func`
      non-increasing, strictly exactly when the result is a success. */
  lemma RetriedSpec(c: Config, s: State, step: seq<real>)
    requires Fits(c, s) && |step| == c.dim
    ensures var t := Retried(c, s, step);
      && (t.state.guess == s.guess || t.state.guess == Sub(s.guess, step) || t.state.guess == Add(s.guess, step))
      && (c.constrain(s.guess) ==> c.constrain(t.state.guess))
      && c.func(t.state.guess) <= c.func(s.guess)
      && (t.outcome == Accepted <==> c.func(t.state.guess) < c.func(s.guess))
      && (Attempted(c, s, step).outcome == Accepted ==> t == Attempted(c, s, step))
      && (Attempted(c, s, step).outcome.Failed? ==> t == Attempted(c, s, Neg(step)))
      && (t.outcome.Failed? ==> t.state == s)
  {
    AttemptedSpec(c, s, step);
    AttemptedSpec(c, s, Neg(step));
    SubNeg(s.guess, step);
  }

  /** The state after retrying each step of a sequence in turn. */
  function Replayed(c: Config, s: State, steps: seq<seq<real>>): (r: State)
    requires Fits(c, s) && forall i :: 0 <= i < |steps| ==> |steps[i]| == c.dim
    ensures Fits(c, r)
    decreases |steps|
  {
    if |steps| == 0 then s
    else Replayed(c, Retried(c, s, steps[0]).state, steps[1..])
  }

  /** Along any sequence of steps the guess stays feasible and `func` never
      increases. */
  lemma {:induction false} ReplayedMonotone(c: Config, s: State, steps: seq<seq<real>>)
    requires Fits(c, s) && forall i :: 0 <= i < |steps| ==> |steps[i]| == c.dim
    requires c.constrain(s.guess)
    ensures c.constrain(Replayed(c, s, steps).guess)
    ensures c.func(Replayed(c, s, steps).guess) <= c.func(s.guess)
    decreases |steps|
  {
    if |steps| > 0 {
      RetriedSpec(c, s, steps[0]);
      var next := Retried(c, s, steps[0]).state;
      assert forall i :: 0 <= i < |steps| - 1 ==> |steps[1..][i]| == c.dim;
      ReplayedMonotone(c, next, steps[1..]);
    }
  }

  /** The number of failed steps among the outcomes. */
  function Failures(outcomes: seq<Outcome>): nat
  {
    multiset(outcomes)[Failed(OutOfBoundaries)] + multiset(outcomes)[Failed(GotStuck)]
  }

  /** The number of successful steps among the outcomes. */
  function Successes(outcomes: seq<Outcome>): nat
  {
    multiset(outcomes)[Accepted]
  }

  /** Every step either succeeds or fails. */
  lemma {:induction false} Partition(outcomes: seq<Outcome>)
    ensures Successes(outcomes) + Failures(outcomes) == |outcomes|
  {
    if |outcomes| > 0 {
      var init := outcomes[..|outcomes| - 1];
      assert outcomes == init + [outcomes[|outcomes| - 1]];
      Partition(init);
      CountsNext(init, outcomes[|outcomes| - 1]);
    }
  }

  /** One more outcome adds to exactly one of the two counts. */
  lemma CountsNext(outcomes: seq<Outcome>, outcome: Outcome)
    ensures Failures(outcomes + [outcome]) == Failures(outcomes) + (if outcome.Failed? then 1 else 0)
    ensures Successes(outcomes + [outcome]) == Successes(outcomes) + (if outcome == Accepted then 1 else 0)
  {
    assert multiset(outcomes + [outcome]) == multiset(outcomes) + multiset{outcome};
    match outcome
    case Accepted =>
    case Failed(reason) =>
      assert reason == OutOfBoundaries || reason == GotStuck;
  }

  function Max0(x: int): nat
  {
    if x < 0 then 0 else x
  }

  /** The two inner loops of a round: `gd_step(0, rate)` with the noise rate,
      then `gd_step(rate, 0)` with the learning rate. */
  datatype Phase = Noise | Descent

  function PhaseStep(c: Config, s: State, phase: Phase, rate: real, draw: seq<real>): (step: seq<real>)
    requires Fits(c, s) && |draw| == c.dim
    ensures |step| == c.dim
  {
    match phase
    case Noise => GdStepAt(c, s, 0.0, rate, draw)
    case Descent => GdStepAt(c, s, rate, 0.0, draw)
  }

  /** How a phase moves its rate after an outcome, with `base / d` as the
      unit: the noise rate drops at a failure; the learning rate rises at a
      success and drops at a failure. */
  function NextRate(phase: Phase, rate: real, base: real, d: real, outcome: Outcome): real
    requires d != 0.0
  {
    match phase
    case Noise => if outcome.Failed? then rate - base / d else rate
    case Descent => if outcome == Accepted then rate + base / d else rate - base / d
  }

  /** The rate of a phase started at `base` once the first n outcomes have
      moved it. */
  function RateAt(phase: Phase, base: real, d: real, outcomes: seq<Outcome>, n: nat): real
    requires n <= |outcomes| && (n == 0 || d != 0.0)
  {
    if n == 0 then base
    else NextRate(phase, RateAt(phase, base, d, outcomes, n - 1), base, d, outcomes[n - 1])
  }

  /** The rate after n outcomes depends on those n only. */
  lemma {:induction false} RateAtPrefix(phase: Phase, base: real, d: real, outcomes: seq<Outcome>, more: seq<Outcome>, n: nat)
    requires n <= |outcomes| && (n == 0 || d != 0.0)
    ensures RateAt(phase, base, d, outcomes + more, n) == RateAt(phase, base, d, outcomes, n)
  {
    if n > 0 {
      RateAtPrefix(phase, base, d, outcomes, more, n - 1);
      assert (outcomes + more)[n - 1] == outcomes[n - 1];
    }
  }

  /** The closed form of a phase's rate in the counts of its outcomes: after
      f failures the noise rate is `base - f * base / d`, and after s
      successes and f failures the learning rate is
      `base + (s - f) * base / d`. */
  function ClosedRate(phase: Phase, base: real, d: real, failures: nat, successes: nat): real
    requires d != 0.0
  {
    match phase
    case Noise => base - failures as real * (base / d)
    case Descent => base + (successes as real - failures as real) * (base / d)
  }

  function PhaseRate(phase: Phase, base: real, d: real, outcomes: seq<Outcome>): real
    requires d != 0.0
  {
    ClosedRate(phase, base, d, Failures(outcomes), Successes(outcomes))
  }

  /** One more outcome moves the closed form as `NextRate` moves the rate. */
  lemma ClosedRateNext(phase: Phase, base: real, d: real, failures: nat, successes: nat, outcome: Outcome)
    requires d != 0.0
    ensures NextRate(phase, ClosedRate(phase, base, d, failures, successes), base, d, outcome)
      == ClosedRate(phase, base, d, failures + (if outcome.Failed? then 1 else 0),
                    successes + (if outcome == Accepted then 1 else 0))
  {
  }

  /** The rate the source keeps updating step by step is the closed form. */
  lemma {:induction false} RateClosed(phase: Phase, base: real, d: real, outcomes: seq<Outcome>)
    requires d != 0.0
    ensures RateAt(phase, base, d, outcomes, |outcomes|) == PhaseRate(phase, base, d, outcomes)
    decreases |outcomes|
  {
    if outcomes == [] {
      assert Failures(outcomes) == 0 && Successes(outcomes) == 0;
    } else {
      var init := outcomes[..|outcomes| - 1];
      var last := outcomes[|outcomes| - 1];
      assert outcomes == init + [last];
      RateClosed(phase, base, d, init);
      RateAtPrefix(phase, base, d, init, [last], |init|);
      CountsNext(init, last);
      ClosedRateNext(phase, base, d, Failures(init), Successes(init), last);
    }
  }

  /** So the `rate0` a round hands on, the final noise rate times d, is
      `rate0 * (d - f)` after f failures. */
  lemma NoiseRateHandedOn(rate0: real, d: real, outcomes: seq<Outcome>)
    requires d != 0.0
    ensures PhaseRate(Noise, rate0, d, outcomes) * d == rate0 * (d - Failures(outcomes) as real)
  {
    var f := Failures(outcomes) as real;
    var q := rate0 / d;
    assert q * d == rate0;
    calc {
      (rate0 - f * q) * d;
      rate0 * d - f * (q * d);
      rate0 * d - f * rate0;
      rate0 * (d - f);
    }
  }

  /** The steps of a phase taken so far, the state they lead to and the rate
      the next step would use. */
  datatype PhaseResult = PhaseResult(outcomes: seq<Outcome>, state: State, rate: real)

  /** The first k steps of a phase of round `round`, started from s with the
      rate `rate` and `d = steps + 1`: step i is tried at the rate the earlier
      outcomes left, with the draw `draws(round, i)`. */
  function PhaseRun(c: Config, s: State, phase: Phase, rate: real, d: real,
                    draws: (nat, nat) -> seq<real>, round: nat, k: nat): (r: PhaseResult)
    requires Fits(c, s) && (k == 0 || d != 0.0)
    requires DrawsFit(c, draws)
    ensures |r.outcomes| == k && Fits(c, r.state)
    decreases k, 0
  {
    if k == 0 then PhaseResult([], s, rate)
    else
      var prev := PhaseRun(c, s, phase, rate, d, draws, round, k - 1);
      var t := PhaseStepAt(c, s, phase, rate, d, draws, round, k - 1);
      PhaseResult(prev.outcomes + [t.outcome], t.state, NextRate(phase, prev.rate, rate, d, t.outcome))
  }

  /** Step j of a phase on its own: the step tried from the state the first
      j steps leave, at the rate they leave, with the draw `draws(round, j)`. */
  function PhaseStepAt(c: Config, s: State, phase: Phase, rate: real, d: real,
                       draws: (nat, nat) -> seq<real>, round: nat, j: nat): (t: Transition)
    requires Fits(c, s) && d != 0.0
    requires DrawsFit(c, draws)
    ensures Fits(c, t.state)
    decreases j, 1
  {
    var prev := PhaseRun(c, s, phase, rate, d, draws, round, j);
    Retried(c, prev.state, PhaseStep(c, prev.state, phase, prev.rate, draws(round, j)))
  }

  /** r is what the first k steps of the phase leave. */
  ghost predicate PhaseReached(c: Config, s: State, phase: Phase, rate: real, d: real,
                               draws: (nat, nat) -> seq<real>, round: nat, k: nat, r: PhaseResult)
    requires Fits(c, s) && (k == 0 || d != 0.0) && DrawsFit(c, draws)
  {
    PhaseRun(c, s, phase, rate, d, draws, round, k) == r
  }

  /** The last step of a run of k > 0 steps: if `prev` and `r` are what the
      first k - 1 and the first k steps leave, r extends `prev` by one
      outcome and moves its rate by it. */
  lemma PhaseRunLast(c: Config, s: State, phase: Phase, rate: real, d: real,
                     draws: (nat, nat) -> seq<real>, round: nat, k: nat, prev: PhaseResult, r: PhaseResult)
    requires Fits(c, s) && d != 0.0 && k > 0
    requires DrawsFit(c, draws)
    requires PhaseReached(c, s, phase, rate, d, draws, round, k - 1, prev)
    requires PhaseReached(c, s, phase, rate, d, draws, round, k, r)
    ensures r.outcomes == prev.outcomes + [r.outcomes[k - 1]]
    ensures r.rate == NextRate(phase, prev.rate, rate, d, r.outcomes[k - 1])
  {
  }

  /** The rate a phase carries after k steps is the rate its outcomes give. */
  lemma {:induction false} PhaseRunRate(c: Config, s: State, phase: Phase, rate: real, d: real,
                                        draws: (nat, nat) -> seq<real>, round: nat, k: nat, r: PhaseResult)
    requires Fits(c, s) && d != 0.0
    requires DrawsFit(c, draws)
    requires PhaseReached(c, s, phase, rate, d, draws, round, k, r)
    ensures r.rate == RateAt(phase, rate, d, r.outcomes, k)
    decreases k
  {
    if k > 0 {
      var prev := PhaseRun(c, s, phase, rate, d, draws, round, k - 1);
      PhaseRunRate(c, s, phase, rate, d, draws, round, k - 1, prev);
      PhaseRunLast(c, s, phase, rate, d, draws, round, k, prev, r);
      RateAtPrefix(phase, rate, d, prev.outcomes, [r.outcomes[k - 1]], k - 1);
    }
  }

  /** So the rate a phase ends with is the closed form in the numbers of
      its failed and successful steps. */
  lemma PhaseRunClosed(c: Config, s: State, phase: Phase, rate: real, d: real,
                       draws: (nat, nat) -> seq<real>, round: nat, k: nat, r: PhaseResult)
    requires Fits(c, s) && d != 0.0
    requires DrawsFit(c, draws)
    requires PhaseReached(c, s, phase, rate, d, draws, round, k, r)
    ensures r.rate == PhaseRate(phase, rate, d, r.outcomes)
  {
    PhaseRunRate(c, s, phase, rate, d, draws, round, k, r);
    RateClosed(phase, rate, d, r.outcomes);
  }

  /** One more step of a phase: the step tried from the state reached, at
      the rate reached, extends the run by its outcome. */
  lemma PhaseRunNext(c: Config, s: State, phase: Phase, rate: real, d: real,
                     draws: (nat, nat) -> seq<real>, round: nat, k: nat,
                     outcomes: seq<Outcome>, before: State, at: real,
                     learnRate: real, randnRate: real, outcome: Outcome, after: State)
    requires Fits(c, s) && d != 0.0
    requires DrawsFit(c, draws)
    requires PhaseReached(c, s, phase, rate, d, draws, round, k, PhaseResult(outcomes, before, at))
    requires phase == Noise ==> learnRate == 0.0 && randnRate == at
    requires phase == Descent ==> learnRate == at && randnRate == 0.0
    requires Transition(outcome, after) == Retried(c, before, GdStepAt(c, before, learnRate, randnRate, draws(round, k)))
    ensures PhaseReached(c, s, phase, rate, d, draws, round, k + 1,
                         PhaseResult(outcomes + [outcome], after, NextRate(phase, at, rate, d, outcome)))
  {
  }

  /** A phase keeps the guess feasible and never increases `func`; it lowers
      `func` when one of its steps was accepted and changes nothing, the
      learners included, when none was. */
  lemma {:induction false} PhaseRunMonotone(c: Config, s: State, phase: Phase, rate: real, d: real,
                                            draws: (nat, nat) -> seq<real>, round: nat, k: nat)
    requires Fits(c, s) && (k == 0 || d != 0.0)
    requires DrawsFit(c, draws)
    requires c.constrain(s.guess)
    ensures var r := PhaseRun(c, s, phase, rate, d, draws, round, k);
      && c.constrain(r.state.guess)
      && c.func(r.state.guess) <= c.func(s.guess)
      && (Accepted in r.outcomes ==> c.func(r.state.guess) < c.func(s.guess))
      && (Accepted !in r.outcomes ==> r.state == s)
    decreases k
  {
    if k > 0 {
      PhaseRunMonotone(c, s, phase, rate, d, draws, round, k - 1);
      var prev := PhaseRun(c, s, phase, rate, d, draws, round, k - 1);
      RetriedSpec(c, prev.state, PhaseStep(c, prev.state, phase, prev.rate, draws(round, k - 1)));
      var r := PhaseRun(c, s, phase, rate, d, draws, round, k);
      assert r.outcomes[..k - 1] == prev.outcomes;
      assert Accepted in r.outcomes <==> Accepted in prev.outcomes || r.outcomes[k - 1] == Accepted;
    }
  }

  /** The rates a round hands on, the state it ends in and the guesses it
      passes to `update`. */
  datatype Progress = Progress(state: State, rate0: real, rate1: real, updates: seq<seq<real>>)

  /** One round of `__call__`: the noise phase (after which `rate0` becomes
      the final noise rate times `steps[0] + 1`), the descent phase (whose
      final rate becomes `rate1`), one retried Newton step, then one `update`
      call when a callback is given and the gradient at the guess is small. */
  function RoundRun(c: Config, s: State, rate0: real, rate1: real, steps0: int, steps1: int,
                    toll: real, hasUpdate: bool, draws: (nat, nat) -> seq<real>, round: nat): (p: Progress)
    requires Fits(c, s) && DrawsFit(c, draws)
    ensures Fits(c, p.state)
  {
    var d0 := (steps0 + 1) as real;
    var d1 := (steps1 + 1) as real;
    var one := PhaseRun(c, s, Noise, rate0, d0, draws, round, Max0(steps0));
    var two := PhaseRun(c, one.state, Descent, rate1, d1, draws, round, Max0(steps1));
    var newton := Retried(c, two.state, NewtonStepAt(c, two.state));
    var fired := hasUpdate && Converged(c, newton.state, toll);
    Progress(newton.state, one.rate * d0, two.rate,
             if fired then [newton.state.guess] else [])
  }

  /** A round keeps the guess feasible and never increases `func`; it passes
      `update` at most its own final guess, and nothing without a callback. */
  lemma RoundRunMonotone(c: Config, s: State, rate0: real, rate1: real, steps0: int, steps1: int,
                         toll: real, hasUpdate: bool, draws: (nat, nat) -> seq<real>, round: nat)
    requires Fits(c, s) && DrawsFit(c, draws)
    requires c.constrain(s.guess)
    ensures var p := RoundRun(c, s, rate0, rate1, steps0, steps1, toll, hasUpdate, draws, round);
      && c.constrain(p.state.guess)
      && c.func(p.state.guess) <= c.func(s.guess)
      && (p.updates == [] || p.updates == [p.state.guess])
      && (!hasUpdate ==> p.updates == [])
  {
    var d0 := (steps0 + 1) as real;
    var d1 := (steps1 + 1) as real;
    var one := PhaseRun(c, s, Noise, rate0, d0, draws, round, Max0(steps0));
    PhaseRunMonotone(c, s, Noise, rate0, d0, draws, round, Max0(steps0));
    PhaseRunMonotone(c, one.state, Descent, rate1, d1, draws, round, Max0(steps1));
    var two := PhaseRun(c, one.state, Descent, rate1, d1, draws, round, Max0(steps1));
    RetriedSpec(c, two.state, NewtonStepAt(c, two.state));
  }

  /** The first k rounds of `__call__`, each starting from the rates and the
      state the previous one left; round j uses the draws `draws(j, _)`. */
  function RunRounds(c: Config, s: State, rate0: real, rate1: real, steps0: int, steps1: int,
                     toll: real, hasUpdate: bool, draws: (nat, nat) -> seq<real>, k: nat): (p: Progress)
    requires Fits(c, s) && DrawsFit(c, draws)
    ensures Fits(c, p.state)
    decreases k, 0
  {
    if k == 0 then Progress(s, rate0, rate1, [])
    else
      var prev := RunRounds(c, s, rate0, rate1, steps0, steps1, toll, hasUpdate, draws, k - 1);
      var last := RoundAt(c, s, rate0, rate1, steps0, steps1, toll, hasUpdate, draws, k - 1);
      Progress(last.state, last.rate0, last.rate1, prev.updates + last.updates)
  }

  /** Round j on its own, run on what the j rounds before it left. */
  function RoundAt(c: Config, s: State, rate0: real, rate1: real, steps0: int, steps1: int,
                   toll: real, hasUpdate: bool, draws: (nat, nat) -> seq<real>, j: nat): (p: Progress)
    requires Fits(c, s) && DrawsFit(c, draws)
    ensures Fits(c, p.state)
    decreases j, 1
  {
    var prev := RunRounds(c, s, rate0, rate1, steps0, steps1, toll, hasUpdate, draws, j);
    RoundRun(c, prev.state, prev.rate0, prev.rate1, steps0, steps1, toll, hasUpdate, draws, j)
  }

  /** p is what the first k rounds leave. */
  ghost predicate Reached(c: Config, s: State, rate0: real, rate1: real, steps0: int, steps1: int,
                          toll: real, hasUpdate: bool, draws: (nat, nat) -> seq<real>, k: nat, p: Progress)
    requires Fits(c, s) && DrawsFit(c, draws)
  {
    RunRounds(c, s, rate0, rate1, steps0, steps1, toll, hasUpdate, draws, k) == p
  }

  /** If `prev` is what the first k rounds leave, the first k + 1 rounds
      leave what round k does from `prev`. */
  lemma RunRoundsNext(c: Config, s: State, rate0: real, rate1: real, steps0: int, steps1: int,
                      toll: real, hasUpdate: bool, draws: (nat, nat) -> seq<real>, k: nat, prev: Progress)
    requires Fits(c, s) && DrawsFit(c, draws)
    requires Reached(c, s, rate0, rate1, steps0, steps1, toll, hasUpdate, draws, k, prev)
    ensures var last := RoundRun(c, prev.state, prev.rate0, prev.rate1, steps0, steps1, toll, hasUpdate, draws, k);
      Reached(c, s, rate0, rate1, steps0, steps1, toll, hasUpdate, draws, k + 1,
              Progress(last.state, last.rate0, last.rate1, prev.updates + last.updates))
  {
    assert RoundAt(c, s, rate0, rate1, steps0, steps1, toll, hasUpdate, draws, k)
      == RoundRun(c, prev.state, prev.rate0, prev.rate1, steps0, steps1, toll, hasUpdate, draws, k);
  }

  /** What `update` has been given and where the guess is after some rounds
      from s: the guess is feasible and no worse than at s, and every guess
      passed to `update` is feasible and lies between the two. */
  ghost predicate Monotone(c: Config, s: State, p: Progress)
  {
    && c.constrain(p.state.guess)
    && c.func(p.state.guess) <= c.func(s.guess)
    && (forall i :: 0 <= i < |p.updates| ==>
          c.constrain(p.updates[i]) && c.func(p.state.guess) <= c.func(p.updates[i]) <= c.func(s.guess))
  }

  /** Adding one more round to `prev` keeps `Monotone`. */
  lemma MonotoneNext(c: Config, s: State, prev: Progress, last: Progress)
    requires Monotone(c, s, prev)
    requires c.constrain(last.state.guess) && c.func(last.state.guess) <= c.func(prev.state.guess)
    requires last.updates == [] || last.updates == [last.state.guess]
    ensures Monotone(c, s, Progress(last.state, last.rate0, last.rate1, prev.updates + last.updates))
  {
    var p := Progress(last.state, last.rate0, last.rate1, prev.updates + last.updates);
    forall i | 0 <= i < |p.updates|
      ensures c.constrain(p.updates[i]) && c.func(p.state.guess) <= c.func(p.updates[i]) <= c.func(s.guess)
    {
      if i < |prev.updates| {
        assert p.updates[i] == prev.updates[i];
      } else {
        assert p.updates[i] == p.state.guess;
      }
    }
  }

  /** Round j, from a feasible state, behaves as `RoundRunMonotone` says. */
  lemma RoundAtMonotone(c: Config, s: State, rate0: real, rate1: real, steps0: int, steps1: int,
                        toll: real, hasUpdate: bool, draws: (nat, nat) -> seq<real>, j: nat)
    requires Fits(c, s) && DrawsFit(c, draws)
    requires c.constrain(RunRounds(c, s, rate0, rate1, steps0, steps1, toll, hasUpdate, draws, j).state.guess)
    ensures var prev := RunRounds(c, s, rate0, rate1, steps0, steps1, toll, hasUpdate, draws, j);
      var p := RoundAt(c, s, rate0, rate1, steps0, steps1, toll, hasUpdate, draws, j);
      && c.constrain(p.state.guess)
      && c.func(p.state.guess) <= c.func(prev.state.guess)
      && (p.updates == [] || p.updates == [p.state.guess])
      && (!hasUpdate ==> p.updates == [])
  {
    var prev := RunRounds(c, s, rate0, rate1, steps0, steps1, toll, hasUpdate, draws, j);
    RoundRunMonotone(c, prev.state, prev.rate0, prev.rate1, steps0, steps1, toll, hasUpdate, draws, j);
  }

  /** After k rounds the guess has stayed feasible and `func` has not
      increased; `update` has been called at most once a round, never
      without a callback, and only with feasible guesses no worse than the
      end and no better than the start. */
  lemma {:induction false} RunRoundsMonotone(c: Config, s: State, rate0: real, rate1: real,
                                             steps0: int, steps1: int, toll: real, hasUpdate: bool,
                                             draws: (nat, nat) -> seq<real>, k: nat)
    requires Fits(c, s) && DrawsFit(c, draws)
    requires c.constrain(s.guess)
    ensures var p := RunRounds(c, s, rate0, rate1, steps0, steps1, toll, hasUpdate, draws, k);
      Monotone(c, s, p) && |p.updates| <= k && (!hasUpdate ==> p.updates == [])
    decreases k
  {
    if k > 0 {
      RunRoundsMonotone(c, s, rate0, rate1, steps0, steps1, toll, hasUpdate, draws, k - 1);
      RoundAtMonotone(c, s, rate0, rate1, steps0, steps1, toll, hasUpdate, draws, k - 1);
      MonotoneNext(c, s, RunRounds(c, s, rate0, rate1, steps0, steps1, toll, hasUpdate, draws, k - 1),
                   RoundAt(c, s, rate0, rate1, steps0, steps1, toll, hasUpdate, draws, k - 1));
    }
  }

  /** `Minimize(dim, func, grad, hess, guess, constrain, update)`. An absent
      gradient or Hessian is replaced by a secant learner, whose answers are
      `learners` and whose observations are `gradObs` and `hessObs`; the
      `update` callback is recorded by the guesses it is called with. */
  class Minimize {
    const dim: nat
    const func: seq<real> -> real
    const grad: Option<seq<real> -> seq<real>>
    const hess: Option<(seq<real>, seq<real>) -> seq<real>>
    const constrain: seq<real> -> bool
    const hasUpdate: bool
    const gradAvail: bool
    const hessAvail: bool
    const learners: Learners
    var guess: seq<real>
    var gradObs: seq<Observation>
    var hessObs: seq<Observation>
    var updates: seq<seq<real>>

    function Cfg(): Config
    {
      Config(dim, func, grad, hess, constrain, learners)
    }

    function Snapshot(): State
      reads this
    {
      State(guess, gradObs, hessObs)
    }

    ghost predicate Valid()
      reads this
    {
      && Fits(Cfg(), Snapshot())
      && constrain(guess)
      && (gradAvail <==> grad.Some?)
      && (hessAvail <==> hess.Some?)
      && (gradAvail ==> gradObs == [])
      && (hessAvail ==> hessObs == [])
    }

    constructor (dim: nat, func: seq<real> -> real, grad: Option<seq<real> -> seq<real>>,
                 hess: Option<(seq<real>, seq<real>) -> seq<real>>, guess: seq<real>,
                 constrain: seq<real> -> bool, hasUpdate: bool, learners: Learners)
      requires |guess| == dim && constrain(guess)
      requires Dimensioned(Config(dim, func, grad, hess, constrain, learners))
      ensures Valid()
      ensures this.dim == dim && this.func == func && this.grad == grad && this.hess == hess
      ensures this.constrain == constrain && this.hasUpdate == hasUpdate && this.learners == learners
      ensures gradAvail == grad.Some? && hessAvail == hess.Some?
      ensures this.guess == guess && gradObs == [] && hessObs == [] && updates == []
    {
      this.dim := dim;
      this.func := func;
      this.grad := grad;
      gradAvail := grad.Some?;
      this.hess := hess;
      hessAvail := hess.Some?;
      this.guess := guess;
      this.constrain := constrain;
      this.hasUpdate := hasUpdate;
      this.learners := learners;
      gradObs := [];
      hessObs := [];
      updates := [];
    }

    /** `compute()` on the object's current state. */
    function Compute(): seq<real>
      reads this
      requires Valid()
    {
      Computed(Cfg(), Snapshot())
    }

    /** `attempt(step)`. */
    method Attempt(step: seq<real>) returns (outcome: Outcome)
      requires Valid() && |step| == dim
      modifies this
      ensures Valid()
      ensures Transition(outcome, Snapshot()) == Attempted(Cfg(), old(Snapshot()), step)
      ensures updates == old(updates)
    {
      var candidate := Sub(guess, step);
      if !constrain(candidate) {
        return Failed(OutOfBoundaries);
      }
      var oldFunc := func(guess);
      var oldGrad := Compute();
      if func(candidate) < oldFunc {
        guess := candidate;
        if !gradAvail {
          gradObs := gradObs + [Observation(step, [oldFunc - func(guess)])];
        }
        if !hessAvail {
          hessObs := hessObs + [Observation(Sub(oldGrad, Compute()), step)];
        }
        outcome := Accepted;
      } else {
        outcome := Failed(GotStuck);
      }
    }

    /** `try: attempt(step) except: attempt(-step)`, as both steppers do. */
    method Retry(step: seq<real>) returns (outcome: Outcome)
      requires Valid() && |step| == dim
      modifies this
      ensures Valid()
      ensures Transition(outcome, Snapshot()) == Retried(Cfg(), old(Snapshot()), step)
      ensures updates == old(updates)
    {
      outcome := Attempt(step);
      if outcome.Failed? {
        outcome := Attempt(Neg(step));
      }
    }

    /** `gd_step(learn_rate, randn_rate)`, with the draw `randn(dim) / dim`
        given as `draw`. */
    method GdStep(learnRate: real, randnRate: real, draw: seq<real>) returns (outcome: Outcome)
      requires Valid() && |draw| == dim
      modifies this
      ensures Valid()
      ensures Transition(outcome, Snapshot())
        == Retried(Cfg(), old(Snapshot()), GdStepAt(Cfg(), old(Snapshot()), learnRate, randnRate, draw))
      ensures updates == old(updates)
    {
      var step := Add(Scale(Compute(), learnRate), Scale(draw, randnRate));
      outcome := Retry(step);
    }

    /** `nt_step()`. */
    method NtStep() returns (outcome: Outcome)
      requires Valid()
      modifies this
      ensures Valid()
      ensures Transition(outcome, Snapshot()) == Retried(Cfg(), old(Snapshot()), NewtonStepAt(Cfg(), old(Snapshot())))
      ensures updates == old(updates)
    {
      var gradient := Compute();
      var step := if hessAvail then hess.value(guess, gradient) else learners.newton(hessObs, gradient);
      outcome := Retry(step);
    }

    /** The first phase of a round: `steps0` noise-only steps at a rate that
        drops by `rate0 / (steps0 + 1)` at every failure. */
    method NoisePhase(rate0: real, steps0: int, draws: (nat, nat) -> seq<real>, round: nat)
      returns (rate: real, ghost outcomes: seq<Outcome>)
      requires Valid() && DrawsFit(Cfg(), draws)
      modifies this
      ensures Valid()
      ensures PhaseResult(outcomes, Snapshot(), rate)
        == PhaseRun(Cfg(), old(Snapshot()), Noise, rate0, (steps0 + 1) as real, draws, round, Max0(steps0))
      ensures updates == old(updates)
    {
      var d := (steps0 + 1) as real;
      rate := rate0;
      outcomes := [];
      var iter := 0;
      while iter < steps0
        invariant Valid()
        invariant 0 <= iter <= Max0(steps0)
        invariant PhaseReached(Cfg(), old(Snapshot()), Noise, rate0, d, draws, round, iter, PhaseResult(outcomes, Snapshot(), rate))
        invariant updates == old(updates)
        decreases steps0 - iter
      {
        ghost var before := Snapshot();
        var outcome := GdStep(0.0, rate, draws(round, iter));
        PhaseRunNext(Cfg(), old(Snapshot()), Noise, rate0, d, draws, round, iter, outcomes, before, rate, 0.0, rate, outcome, Snapshot());
        if outcome.Failed? {
          rate := rate - rate0 / d;
        }
        outcomes := outcomes + [outcome];
        iter := iter + 1;
      }
    }

    /** The second phase: `steps1` gradient steps at a rate that grows by
        `rate1 / (steps1 + 1)` at every success and drops by as much at every
        failure. */
    method GradientPhase(rate1: real, steps1: int, draws: (nat, nat) -> seq<real>, round: nat)
      returns (rate: real, ghost outcomes: seq<Outcome>)
      requires Valid() && DrawsFit(Cfg(), draws)
      modifies this
      ensures Valid()
      ensures PhaseResult(outcomes, Snapshot(), rate)
        == PhaseRun(Cfg(), old(Snapshot()), Descent, rate1, (steps1 + 1) as real, draws, round, Max0(steps1))
      ensures updates == old(updates)
    {
      var d := (steps1 + 1) as real;
      rate := rate1;
      outcomes := [];
      var iter := 0;
      while iter < steps1
        invariant Valid()
        invariant 0 <= iter <= Max0(steps1)
        invariant PhaseReached(Cfg(), old(Snapshot()), Descent, rate1, d, draws, round, iter, PhaseResult(outcomes, Snapshot(), rate))
        invariant updates == old(updates)
        decreases steps1 - iter
      {
        ghost var before := Snapshot();
        var outcome := GdStep(rate, 0.0, draws(round, iter));
        PhaseRunNext(Cfg(), old(Snapshot()), Descent, rate1, d, draws, round, iter, outcomes, before, rate, rate, 0.0, outcome, Snapshot());
        if outcome == Accepted {
          rate := rate + rate1 / d;
        } else {
          rate := rate - rate1 / d;
        }
        outcomes := outcomes + [outcome];
        iter := iter + 1;
      }
    }

    /** The end of a round: a Newton step whose failure is ignored, then the
        `update` callback when one is given and the gradient is small. */
    method EndRound(toll: real) returns (ghost newton: Outcome)
      requires Valid()
      modifies this
      ensures Valid()
      ensures Transition(newton, Snapshot()) == Retried(Cfg(), old(Snapshot()), NewtonStepAt(Cfg(), old(Snapshot())))
      ensures updates == old(updates) + (if hasUpdate && Converged(Cfg(), Snapshot(), toll) then [guess] else [])
    {
      newton := NtStep();
      if hasUpdate && Converged(Cfg(), Snapshot(), toll) {
        updates := updates + [guess];
      }
    }

    /** One round of `__call__`, returning the rates the next round starts
        from. */
    method Round(rate0: real, rate1: real, steps0: int, steps1: int, toll: real,
                 draws: (nat, nat) -> seq<real>, round: nat)
      returns (nextRate0: real, nextRate1: real)
      requires Valid() && DrawsFit(Cfg(), draws)
      modifies this
      ensures Valid()
      ensures var p := RoundRun(Cfg(), old(Snapshot()), rate0, rate1, steps0, steps1, toll, hasUpdate, draws, round);
        && Snapshot() == p.state && nextRate0 == p.rate0 && nextRate1 == p.rate1
        && updates == old(updates) + p.updates
    {
      var rate;
      ghost var phase1, phase2, newton;
      rate, phase1 := NoisePhase(rate0, steps0, draws, round);
      nextRate0 := rate * (steps0 + 1) as real;
      nextRate1, phase2 := GradientPhase(rate1, steps1, draws, round);
      newton := EndRound(toll);
    }

    /** `__call__((rate0, rate1), (steps0, steps1), toll, max_iter)`: exactly
        `max_iter` rounds, each starting from the rates the previous one left.
        `draws(k, i)` is the i-th draw of round k. */
    method Run(rate0: real, rate1: real, steps0: int, steps1: int, toll: real, maxIter: int,
               draws: (nat, nat) -> seq<real>)
      requires Valid() && DrawsFit(Cfg(), draws)
      modifies this
      ensures Valid()
      ensures var p := RunRounds(Cfg(), old(Snapshot()), rate0, rate1, steps0, steps1, toll, hasUpdate, draws, Max0(maxIter));
        Snapshot() == p.state && updates == old(updates) + p.updates
    {
      var r0, r1 := rate0, rate1;
      var k: nat := 0;
      ghost var p := Progress(Snapshot(), r0, r1, []);
      while k < maxIter
        invariant Valid()
        invariant k <= Max0(maxIter)
        invariant Reached(Cfg(), old(Snapshot()), rate0, rate1, steps0, steps1, toll, hasUpdate, draws, k, p)
        invariant Snapshot() == p.state && r0 == p.rate0 && r1 == p.rate1 && updates == old(updates) + p.updates
        decreases maxIter - k
      {
        RunRoundsNext(Cfg(), old(Snapshot()), rate0, rate1, steps0, steps1, toll, hasUpdate, draws, k, p);
        ghost var q := RoundRun(Cfg(), p.state, p.rate0, p.rate1, steps0, steps1, toll, hasUpdate, draws, k);
        r0, r1 := Round(r0, r1, steps0, steps1, toll, draws, k);
        p := Progress(q.state, q.rate0, q.rate1, p.updates + q.updates);
        k := k + 1;
      }
    }
  }
}
