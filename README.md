# NaiveB minimizer and clusterer, modelled in Dafny

This project models two pieces of the NaiveB repository and proves properties of them.

**The `Minimize` class (naiveb/minimize.py).** It keeps a current guess that moves only by feasible, strictly improving steps. `attempt` applies one step. `gd_step` and `nt_step` try a step and then its negation. `__call__` runs rounds of three parts:
- a noise-only phase;
- a gradient phase;
- a Newton step and an optional `update` callback.

The noise rate drops at each failure. The learning rate rises at each success and drops at each failure.

**The `cluster` function (build/lib/naiveb/cluster.py).** It is an EM-style fixed-point loop. Each pass does three things:
- turns every sample's likelihood vector into a responsibility row;
- replaces the posterior by the column sums of those rows;
- records the squared distance between the old and new posterior.

The loop stops at the first pass whose distance is at most `tol / (n * sqrt(N))`, or after `maxiter` passes.

All numbers are exact reals. The project has four modules:
- `Wrappers` holds `Option`, `Result` and the one numeric error.
- `Vectors` holds the element-wise numpy operations and lemmas about sums.
- `Cluster` models build/lib/naiveb/cluster.py.
- `Minimizer` models naiveb/minimize.py.

`Minimizer` first gives the behaviour on values:
- `Config` holds what an object never changes.
- `State` holds the guess and the two learners' observation histories.
- Plain definitions give the steps: `Computed` is `compute()`, `NewtonStepAt` is the step `nt_step` tries, `GdStepAt` is the step `gd_step` tries, and `Converged` is the end-of-round test.
- Functions give the transitions: `Attempted` for `attempt`, `Retried` for the retry policy, `PhaseRun` for the first k steps of a phase, `RoundRun` for one round, and `RunRounds` for the first k rounds.

The class `Minimizer.Minimize` has the source's fields, with `guess`, the observation histories and the `update` calls as mutable fields. Each of its methods is proved to change the state exactly as the matching function says. The lemmas about those functions then carry over to the methods.

Facts the proofs establish about the code:
- After a pass, the posterior sums to N, the number of samples, which is one only when N = 1. Every responsibility row sums to one, and the posterior is the sum of the N rows. The comment at build/lib/naiveb/cluster.py:6 calls the prior an array of probabilities, but the posterior after a pass is not one unless N = 1.
- For the same reason, a prior that is a distribution is not in general a fixed point of the loop.
- The rate a phase ends with depends only on how many of its steps failed and succeeded, not on their order.

## Model

| member | source | states |
|---|---|---|
| Cluster.Normalize | build/lib/naiveb/cluster.py:3 | fails exactly when `x` is non-empty and `x.sum()` is zero, where numpy gives NaN or infinities; the empty vector normalises to itself; otherwise the result has the length of `x`, sums to one when `x.sum()` is non-zero, satisfies `r[i] * x.sum() == x[i]` at every index, and is non-negative when `x` is |
| Cluster.Classify | build/lib/naiveb/cluster.py:13-14 | the responsibility matrix exists exactly when no sample has zero marginal likelihood; then it has one row per sample, and row K sums to one, is proportional to `conditional(sample[K]) * posterior` by the factor `1 / likelihoods[K]`, and is non-negative when its inputs are |
| Cluster.Row | build/lib/naiveb/cluster.py:14 | for a sample of non-zero likelihood, the row has n entries summing to one, is proportional to the joint weights, and is non-negative when they are |
| Cluster.RowIsResponsibility | build/lib/naiveb/cluster.py:13-14 | normalising the joint weights of a sample with non-zero likelihood succeeds and gives such a row |
| Cluster.RowProportional | build/lib/naiveb/cluster.py:14 | each normalised entry times the likelihood is the joint weight `conditional(x)[k] * posterior[k]` |
| Cluster.EmStep | build/lib/naiveb/cluster.py:13-16 | one pass succeeds exactly when every likelihood is non-zero; the new posterior (`classification.sum(axis=0)`) has n entries, they add up to N, and they are non-negative when the posterior and the likelihoods are |
| Vectors.ColumnSumsOfDistributions | build/lib/naiveb/cluster.py:14-16 | the column sums of rows that each sum to one add up to the number of rows |
| Vectors.ColumnSums | build/lib/naiveb/cluster.py:16 | summing over axis 0 gives n entries, non-negative when every row is |
| Vectors.SqNorm | build/lib/naiveb/cluster.py:15 | the gap `((a - b)**2).sum()` is never negative |
| Cluster.IteratePosterior | build/lib/naiveb/cluster.py:12-17 | after any number of passes without failure, the posterior has n entries; after at least one pass they add up to N; they stay non-negative when the prior and the likelihoods are |
| Cluster.GuardAtStart | build/lib/naiveb/cluster.py:10-12 | since `gap` starts at `tol`, the guard `gap > tol / (n * sqrt(N))` first holds exactly when `tol > 0` and not `n == N == 1` |
| Cluster.Loop | build/lib/naiveb/cluster.py:10-17 | the body runs at most `maxiter` times; it does not run at all, and the prior is returned, when `maxiter <= 0` or the guard fails at the start; otherwise it runs at least once; the result is the posterior after the passes that ran; a failure stops the loop at the pass that produced it; every pass before the last succeeded and moved the posterior by more than the threshold; `gap` is the squared distance between the last two posteriors; and stopping before `maxiter` means that distance is at most the threshold, so the loop stops at the first pass that comes that close |
| Cluster.Cluster | build/lib/naiveb/cluster.py:5-18 | `cluster(...)`: at most `maxiter` passes; the prior itself comes back when `maxiter <= 0`, `tol <= 0` or `n == N == 1`; otherwise, with `maxiter > 0`, at least one pass runs; every pass but the last moved the posterior by more than `tol / (n * sqrt(N))`; the result is the posterior after the passes that ran; it has n entries, adds up to N once a pass has run, and is non-negative for non-negative inputs; the final gap is the non-negative squared distance from the previous posterior, and it is at most `tol / (n * sqrt(N))` when the loop stopped early |
| Minimizer.AttemptedSpec | naiveb/minimize.py:95-110 | `attempt(step)`: out of boundaries exactly when `guess - step` is infeasible; accepted exactly when it is feasible and strictly lowers `func`, and then the guess becomes `guess - step`; an accepted step gives a learner standing in for a missing gradient `(step, [old func - new func])`, and a learner standing in for a missing Hessian `(old compute() - new compute(), step)`; a failure changes nothing; feasibility is kept; `func` never increases, and strictly decreases exactly when the step is accepted |
| Minimizer.RetriedSpec | naiveb/minimize.py:126-129 | the retry policy: when the first attempt is accepted, that is the result; when it fails, the result is that of attempting `-step` from the same state; the guess ends at `guess`, `guess - step` or `guess + step`; a final failure changes nothing; accepted exactly when `func` strictly decreased; feasibility kept |
| Minimizer.ReplayedMonotone | naiveb/minimize.py:97-103 | along any sequence of retried steps, each a vector fixed in advance rather than computed from the current state, the guess stays feasible and `func` never increases |
| Minimizer.Partition | naiveb/minimize.py:157-173 | every step of a phase is either a success or a failure |
| Minimizer.CountsNext | naiveb/minimize.py:159-173 | one more outcome adds one to exactly one of the failure and success counts |
| Minimizer.ClosedRateNext | naiveb/minimize.py:159-173 | one more outcome moves the closed-form rate exactly as the loop updates the rate |
| Minimizer.RateClosed | naiveb/minimize.py:155-174 | the rate updated step by step equals the closed form: after f failures the noise rate is `rate0 - f * rate0 / (steps[0] + 1)`, and after s successes and f failures the learning rate is `rate1 + (s - f) * rate1 / (steps[1] + 1)` |
| Minimizer.NoiseRateHandedOn | naiveb/minimize.py:163 | the next round's `rate0`, the final noise rate times `steps[0] + 1`, equals `rate0 * (steps[0] + 1 - f)` |
| Minimizer.PhaseRunRate | naiveb/minimize.py:155-174 | the rate a phase carries after k steps is the rate its k outcomes give |
| Minimizer.PhaseRunClosed | naiveb/minimize.py:155-174 | the rate a run phase ends with is the closed form in its numbers of failures and successes |
| Minimizer.PhaseRunNext | naiveb/minimize.py:157-173 | if k steps of a phase reach some outcomes, state and rate, then the `gd_step` tried from that state at that rate with draw k extends the run by its outcome and moves the rate by it |
| Minimizer.PhaseRunMonotone | naiveb/minimize.py:155-174 | a phase keeps the guess feasible and never increases `func`; `func` strictly decreases when any step was accepted; the guess and both learners are unchanged when none was |
| Minimizer.RoundRunMonotone | naiveb/minimize.py:153-181 | a round keeps the guess feasible and never increases `func`; it calls `update` at most once, with its final guess, and never without a callback |
| Minimizer.RunRoundsNext | naiveb/minimize.py:153-181 | the first k + 1 rounds leave what round k does from where the first k rounds left off, with the rates they handed on |
| Minimizer.MonotoneNext | naiveb/minimize.py:153-181 | appending a round that keeps the guess feasible, does not increase `func`, and calls `update` at most with its final guess keeps the whole run monotone |
| Minimizer.RunRoundsMonotone | naiveb/minimize.py:149-181 | after k rounds the guess is feasible and `func` is no higher than at the start; `update` has been called at most k times, never without a callback, and only with feasible guesses no worse than the final one and no better than the first |
| Minimizer.Minimize.constructor | naiveb/minimize.py:55-78 | construction needs a feasible initial guess; `grad_avail` holds exactly when a gradient was supplied and `hess_avail` exactly when a Hessian was; both learners start empty and `update` has not been called |
| Minimizer.Minimize.Attempt | naiveb/minimize.py:95-110 | the outcome and the whole new state (guess and both learner histories) are those of `Attempted` from the old state; `update` is not called |
| Minimizer.Minimize.Retry | naiveb/minimize.py:126-129 | the outcome and the whole new state are those of `Retried` from the old state |
| Minimizer.Minimize.GdStep | naiveb/minimize.py:131-147 | `gd_step(learn_rate, randn_rate)`: the outcome and the new state are those of retrying `compute() * learn_rate + draw * randn_rate`, computed in the state before the call |
| Minimizer.Minimize.NtStep | naiveb/minimize.py:113-129 | `nt_step()`: the outcome and the new state are those of retrying the Newton step computed in the state before the call |
| Minimizer.Minimize.NoisePhase | naiveb/minimize.py:155-163 | the ghost outcomes, the new state and the final rate are those of `PhaseRun` over `max(steps[0], 0)` noise steps `gd_step(0, rate)`; step i uses the draw `draws(round, i)` and the rate the earlier outcomes left; `update` is not called |
| Minimizer.Minimize.GradientPhase | naiveb/minimize.py:165-174 | the same for `max(steps[1], 0)` gradient steps `gd_step(rate, 0)`, with the learning rate moved up at every success and down at every failure |
| Minimizer.Minimize.EndRound | naiveb/minimize.py:175-181 | the Newton step's outcome and the new state are those of retrying it from the old state, and a failure is swallowed; the new guess is appended to the `update` calls exactly when a callback was given and the gradient norm at the new guess is below `toll` |
| Minimizer.Minimize.Round | naiveb/minimize.py:153-181 | the new state, the two rates handed on and the `update` calls are those of `RoundRun`: the noise phase, the gradient phase, the retried Newton step and the convergence test, in that order |
| Minimizer.Minimize.Run | naiveb/minimize.py:149-181 | `__call__`: the new state and the `update` calls are those of `RunRounds` over `max(max_iter, 0)` rounds, each run from the state and rates the previous one left |

## Left out

- The secant learner `Linear` (naiveb/linear.py) is not part of this model. The learners are their observation histories (`gradObs`, `hessObs`), which `attempt` extends only on success. Their answers are the supplied functions of those histories (`Learners`).
- The random probes inside the learner branches are not parameters. These are the draw at naiveb/minimize.py:90, in the warm-up branch of `compute`, and the draw at naiveb/minimize.py:124, in the fallback branch of `nt_step`. They are folded into the deterministic `Learners` functions. So in a given state the model's `compute()` and Newton step always return the same value, which the source's branches do not.
- The other random draws are parameters. `GdStep` takes the draw `randn(dim) / dim`. The phases, `Round` and `Run` take `draws(k, i)`, the draw of step i in round k.
- Minimizer.Minimize.GradientPhase: the step's random draw is multiplied by zero. The model passes `draws(round, i)` there as well, so the step is the same.
- Minimizer.Minimize.Round: the round's rates are returned to the caller. The source keeps them in the locals of `__call__`.
- Floating point is not modelled; all arithmetic is exact over reals.
  - `np.linalg.norm(v) < toll` is written as `0 < toll && |v|^2 < toll^2`.
  - `np.sqrt(N)` is a supplied `sqrtN > 0` with `sqrtN * sqrtN == N`.
- The analytic Hessian product `self.hess(self.guess) @ gradient` is a supplied function of the guess and the gradient.
- Cluster.Cluster: a zero marginal likelihood gives NaN in numpy. The model turns it into the error value `DivisionByZero` and stops the loop at that pass. In the source the NaN gap makes the guard false, so the loop also ends there. The source then returns the NaN posterior. Its iteration count includes that pass, as the model's does.
- Cluster.Cluster: with likelihood vectors or a prior that have negative entries, a zero marginal likelihood can give infinities rather than NaN. The source's loop then goes on; the model stops at that pass.
- Cluster.Cluster: the model also returns the last gap and the number of passes. The source computes both and returns only the posterior.
- The loop body `Pass` maps a vector of the wrong length to the error value. The loop only ever hands it vectors of n entries (`IteratePosterior`), so that case cannot happen.
- Cluster.Cluster: some defaults are not modelled, and the caller passes every argument.
  - These are `prior=1`, broadcast by numpy, `tol=1` and `maxiter=16`.
  - The prior must have n entries. Likewise `|sample| == N`, `n >= 1`, `N >= 1` and likelihood vectors of n entries are required.
- Minimizer.Minimize.constructor: the defaults are not modelled, and the caller passes every argument. These are `guess = 0` (a scalar broadcast by numpy) and `constrain = lambda x: True`. The `None` defaults of `grad`, `hess` and `update` are modelled as `None` and as `hasUpdate == false`. The guess is a vector of `dim` entries, and every supplied gradient, Hessian and learner answer has `dim` entries.
- Minimizer.Minimize.Attempt: `self.guess -= step` updates the numpy array in place, so a caller holding the initial guess array sees it change. Likewise `update(self.guess)` passes the live array, so a callback that stores the guesses it receives sees every later accepted step change them all. Aliasing is not modelled: the guess is a value, and `updates` records each guess as it was when `update` was called.
- `calibration` (build/lib/naiveb/cluster.py:20-32) is not modelled, for three reasons:
  - its loop never updates `gap` or `iter`, so once entered it does not end;
  - it calls `conditional(x)` with one argument, where its own comment gives two;
  - it returns nothing.
- Not modelled, because they do not affect the state:
  - the `print` at naiveb/minimize.py:147;
  - the unused imports;
  - the unused `self.rate`;
  - the `called` diagnostic tag;
  - the unused `classification=np.ndarray([N,n])` at build/lib/naiveb/cluster.py:9.
- Bare `except:` clauses are not modelled, apart from the two named failures of `attempt`, which are the `Outcome` value.
  - The learners, the oracles and `update` are taken not to raise.
  - `update(self.guess)` is recorded in `updates` as the list of the guesses it was called with.
