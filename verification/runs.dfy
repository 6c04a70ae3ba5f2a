/**
  Sequences of `query` calls on one learner, and the end-to-end behaviour
  they have: the experience log grows by one transition per call, each
  logged transition starts where the previous one ended, and the
  random-action rate decays geometrically, once per call.
 */
module Runs {
  import opened Tables
  import opened QLearner

  /** `x` to the power `n`. */
  function Pow(x: real, n: nat): real {
    if n == 0 then 1.0 else x * Pow(x, n - 1)
  }

  /** The exploration rate after `n` calls of `query` that started from `r`. */
  function Decayed(cfg: Config, r: real, n: nat): real {
    if n == 0 then r else Decay(cfg, Decayed(cfg, r, n - 1))
  }

  /** The schedule is geometric: after `n` calls the rate is `r * radr^n`. */
  lemma {:induction false} DecayedIsPow(cfg: Config, r: real, n: nat)
    ensures Decayed(cfg, r, n) == r * Pow(cfg.radr, n)
  {
    if n > 0 {
      DecayedIsPow(cfg, r, n - 1);
      calc {
        Decayed(cfg, r, n);
        Decayed(cfg, r, n - 1) * cfg.radr;
        r * Pow(cfg.radr, n - 1) * cfg.radr;
        r * Pow(cfg.radr, n);
      }
    }
  }

  /** The arguments and random draws of one `query(next, reward)` call. */
  datatype Draws = Draws(next: nat, reward: real, picks: seq<nat>, u: real, randAction: nat)

  /** The draws of a `query` call made when the log holds `logLen` transitions are possible ones. */
  predicate Fit(cfg: Config, logLen: nat, d: Draws) {
    && |d.picks| == cfg.dyna
    && (forall i :: 0 <= i < |d.picks| ==> d.picks[i] <= logLen)
    && 0.0 <= d.u < 1.0
    && d.randAction <= 2
  }

  /** Every call of the run, the `k`-th made on a log of `logLen + k` transitions, has possible draws. */
  predicate AllFit(cfg: Config, logLen: nat, ds: seq<Draws>) {
    forall k :: 0 <= k < |ds| ==> Fit(cfg, logLen + k, ds[k])
  }

  /**
    The last `n` transitions of `log`, the ones after position `base`, are
    those a run of `n` calls of `query` with draws `ds` logs when it starts
    at state `s`: one per call, in order, each carrying the next state and
    reward of its call and starting where the previous call ended.
   */
  predicate Walk(log: seq<Experience>, base: nat, s: nat, ds: seq<Draws>, n: nat)
    requires n <= |ds|
  {
    && |log| == base + n
    && (n > 0 ==>
      && Walk(log[..|log| - 1], base, s, ds, n - 1)
      && log[|log| - 1].next == ds[n - 1].next
      && log[|log| - 1].reward == ds[n - 1].reward
      && log[|log| - 1].s == (if n == 1 then s else ds[n - 2].next))
  }

  /** Read position by position: the `k`-th transition after `base` belongs to the `k`-th call. */
  lemma {:induction false} WalkSteps(log: seq<Experience>, base: nat, s: nat, ds: seq<Draws>, n: nat)
    requires n <= |ds| && Walk(log, base, s, ds, n)
    ensures |log| == base + n
    ensures forall k :: base <= k < |log| ==>
      && log[k].next == ds[k - base].next
      && log[k].reward == ds[k - base].reward
      && log[k].s == (if k == base then s else ds[k - base - 1].next)
  {
    if n > 0 {
      var prefix := log[..|log| - 1];
      WalkSteps(prefix, base, s, ds, n - 1);
      forall k | base <= k < |prefix| ensures log[k] == prefix[k] {
      }
    }
  }

  /** Appending to a log leaves the part before `base` alone. */
  lemma AppendSlices(log: seq<Experience>, e: Experience, base: nat)
    requires base <= |log|
    ensures (log + [e])[..base] == log[..base]
    ensures (log + [e])[..|log|] == log
    ensures base < |log| ==> (log + [e])[base] == log[base]
  {
  }

  /**
    The pointer starts inside the table, every next state of the run is a
    state, and the learner has at least the three actions `query` can draw
    at random.
   */
  predicate InTable(ag: Agent, ds: seq<Draws>) {
    && ag.cfg.numActions >= 3
    && ag.s < ag.cfg.numStates && ag.a < ag.cfg.numActions
    && forall k :: 0 <= k < |ds| ==> ds[k].next < ag.cfg.numStates
  }

  /**
    One `query` call with the draws `d`, as a run sees it: it fails, with
    `IndexError`, exactly when the pointer or the next state is outside the
    table; otherwise the invariant holds, the configuration is the same, the
    transition from the pointer to `d.next` is appended to the log, the
    pointer moves to `d.next`, `rar` decays once, and with at least three
    actions the new action is one of them.
   */
  function Call(ag: Agent, d: Draws): (res: Result<Agent>)
    requires Valid(ag) && Fit(ag.cfg, |ag.mem.log|, d)
    ensures res.Err? <==> !(ag.s < ag.cfg.numStates && ag.a < ag.cfg.numActions && d.next < ag.cfg.numStates)
    ensures res.Err? ==> res.error == IndexError
    ensures res.Ok? ==>
      && Valid(res.value) && res.value.cfg == ag.cfg
      && res.value.mem.log == ag.mem.log + [Experience(ag.s, ag.a, d.next, d.reward)]
      && res.value.s == d.next
      && res.value.rar == Decay(ag.cfg, ag.rar)
    ensures res.Ok? && ag.cfg.numActions >= 3 ==> res.value.a < ag.cfg.numActions
  {
    var step := Step(ag, d.next, d.reward, d.picks, d.u, d.randAction);
    if step.Err? then Err(step.error) else Ok(step.value.agent)
  }

  /**
    The first `n` calls of `query` with the draws `ds`, in order, stopping
    at the first call that fails, which fails with `IndexError`. When all
    succeed: the invariant holds, the configuration is the same, the old
    log is untouched and followed by the walk of the run, whose first
    transition leaves the pointer the run began with; the pointer ends at
    the last next state, and `rar` has decayed once per call. A run that
    starts `InTable` never fails, and its pointer stays inside the table.
   */
  function Run(ag: Agent, ds: seq<Draws>, n: nat): (res: Result<Agent>)
    requires Valid(ag)
    requires AllFit(ag.cfg, |ag.mem.log|, ds)
    requires n <= |ds|
    ensures res.Err? ==> res.error == IndexError
    ensures res.Ok? ==> Valid(res.value) && res.value.cfg == ag.cfg
    ensures res.Ok? ==> res.value.rar == Decayed(ag.cfg, ag.rar, n)
    ensures res.Ok? ==> |res.value.mem.log| == |ag.mem.log| + n && res.value.mem.log[..|ag.mem.log|] == ag.mem.log
    ensures res.Ok? ==> Walk(res.value.mem.log, |ag.mem.log|, ag.s, ds, n)
    ensures res.Ok? && n > 0 ==> res.value.mem.log[|ag.mem.log|].a == ag.a
    ensures res.Ok? ==> res.value.s == (if n == 0 then ag.s else ds[n - 1].next)
    ensures InTable(ag, ds) ==> res.Ok? && res.value.a < ag.cfg.numActions
  {
    if n == 0 then Ok(ag)
    else
      var prev := Run(ag, ds, n - 1);
      if prev.Err? then prev
      else
        var ag0 := prev.value;
        var d := ds[n - 1];
        assert Fit(ag.cfg, |ag.mem.log| + (n - 1), d);
        AppendSlices(ag0.mem.log, Experience(ag0.s, ag0.a, d.next, d.reward), |ag.mem.log|);
        Call(ag0, d)
  }

  /**
    The worked example of a learner with 4 states, 2 actions, alpha 0.5,
    gamma 0.9, no exploration and no planning: priming in state 0 picks
    action 0 (all of row 0 is zero, so the lowest index wins), and the step
    to state 1 with reward 10 sets `Q[0, 0]` to exactly
    `0.5 * 0 + 0.5 * (10 + 0.9 * 0) = 5`, whatever the draws.
   */
  lemma FirstStepScenario(radr: real, u0: real, r0: nat, u1: real, r1: nat)
    requires 0.0 <= u0 < 1.0 && r0 <= 3
    requires 0.0 <= u1 < 1.0 && r1 <= 2
    ensures
      var ag := Construct(4, 2, 0.5, 0.9, 0.0, radr, 0);
      var primed := Prime(ag, 0, u0, r0);
      && primed.Ok? && primed.value.action == 0
      && var stepped := Step(primed.value.agent, 1, 10.0, [], u1, r1);
      && stepped.Ok? && stepped.value.agent.mem.q[0][0] == 5.0
  {
  }

  /**
    The random action of `querysetstate` is drawn from [0, 3] whatever the
    number of actions: on a learner with 2 actions that always explores,
    priming can store action 3, and the `query` that follows then fails
    with `IndexError` on `Q[s, 3]`, whatever its own draws.
   */
  lemma RandomPrimeCanLeaveTable(ag: Agent, s: nat, u: real, d: Draws)
    requires Valid(ag) && ag.cfg.numActions == 2 && ag.rar == 1.0
    requires 0.0 <= u < 1.0
    requires Fit(ag.cfg, |ag.mem.log|, d)
    ensures
      var primed := Prime(ag, s, u, 3);
      && primed.Ok? && primed.value.action == 3
      && Step(primed.value.agent, d.next, d.reward, d.picks, d.u, d.randAction) == Err(IndexError)
  {
  }
}
