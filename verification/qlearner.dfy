/**
  The tabular Q-learner with Dyna-Q planning (class `QLearner`), as an
  immutable agent record and three pure operations:

  - `Construct` (`__init__`): zero-filled Q and R, empty T and log;
  - `Prime` (`querysetstate`): pick an action for a state, no learning;
  - `Step` (`query`): real TD update, log append, R/T model update, `dyna`
    planning replays, next action, pointer move and one `rar` decay.

  Random draws are parameters: `u` is the uniform draw in [0, 1) compared
  with `rar`; `randAction` is the random action; `picks` are the `dyna`
  log indices the planning loop replays, each drawn below the log length.
  numpy's `IndexError` on an out-of-table index and its `ValueError` on the
  argmax of an empty row are the `Err` results.
 */
module QLearner {
  import opened Tables
  import opened Transitions

  datatype Error = IndexError | EmptyArgmax

  datatype Result<T> = Ok(value: T) | Err(error: Error)

  /** One logged real transition `(s, a, s_prime, r)`. */
  datatype Experience = Experience(s: nat, a: nat, next: nat, reward: real)

  function Key(e: Experience): Pair {
    (e.s, e.a)
  }

  /**
    The constructor arguments the learner keeps: table sizes, learning rate
    `alpha`, discount `gamma`, the decay `radr` of the random-action rate and
    the number `dyna` of planning replays per real step.
   */
  datatype Config = Config(numStates: nat, numActions: nat, alpha: real, gamma: real, radr: real, dyna: nat)

  /** What the learner accumulates: Q table, reward model R, transition counts T and the experience list. */
  datatype Memory = Memory(q: Table, r: Table, t: Model, log: seq<Experience>)

  /** The learner's whole state: `(s, a)` is the pointer the next real update applies to, `rar` the random-action rate. */
  datatype Agent = Agent(cfg: Config, mem: Memory, s: nat, a: nat, rar: real)

  /** What `querysetstate` and `query` leave behind: the new agent and the returned action. */
  datatype Reply = Reply(agent: Agent, action: nat)

  // ---------------------------------------------------------------------
  // The transition model as a function of the experience log
  // ---------------------------------------------------------------------

  /** T obtained by recording every logged transition, oldest first. */
  function ModelOf(log: seq<Experience>): Model {
    if log == [] then map[]
    else
      var e := log[|log| - 1];
      Record(ModelOf(log[..|log| - 1]), Key(e), e.next)
  }

  /** The (state, action) pairs that occur in the log. */
  function Pairs(log: seq<Experience>): set<Pair> {
    set i | 0 <= i < |log| :: Key(log[i])
  }

  /** How many logged transitions went from pair `k` to next state `n`. */
  function LogCount(log: seq<Experience>, k: Pair, n: nat): nat {
    if log == [] then 0
    else
      var e := log[|log| - 1];
      LogCount(log[..|log| - 1], k, n) + (if Key(e) == k && e.next == n then 1 else 0)
  }

  predicate LogInRange(log: seq<Experience>, numStates: nat, numActions: nat) {
    forall i :: 0 <= i < |log| ==> log[i].s < numStates && log[i].a < numActions && log[i].next < numStates
  }

  /** The keys of the recorded model are exactly the pairs of the log. */
  lemma {:induction false} ModelOfKeys(log: seq<Experience>)
    ensures ModelOf(log).Keys == Pairs(log)
  {
    if log != [] {
      var prefix := log[..|log| - 1];
      ModelOfKeys(prefix);
      assert Pairs(log) == Pairs(prefix) + {Key(log[|log| - 1])} by {
        forall k | k in Pairs(log) ensures k in Pairs(prefix) + {Key(log[|log| - 1])} {
          var i :| 0 <= i < |log| && Key(log[i]) == k;
          if i < |log| - 1 {
            assert prefix[i] == log[i];
          }
        }
        forall k | k in Pairs(prefix) ensures k in Pairs(log) {
          var i :| 0 <= i < |prefix| && Key(prefix[i]) == k;
          assert log[i] == prefix[i];
        }
      }
    }
  }

  /** Every count in the recorded model is the number of matching log entries. */
  lemma {:induction false} ModelOfCounts(log: seq<Experience>)
    ensures forall k, n :: k in ModelOf(log) ==> CountOf(ModelOf(log)[k], n) == LogCount(log, k, n)
  {
    if log != [] {
      var prefix := log[..|log| - 1];
      var e := log[|log| - 1];
      ModelOfCounts(prefix);
      forall k, n | k in ModelOf(log) ensures CountOf(ModelOf(log)[k], n) == LogCount(log, k, n) {
        if k != Key(e) {
          assert ModelOf(log)[k] == ModelOf(prefix)[k];
        } else if k !in ModelOf(prefix) {
          ModelOfKeys(prefix);
          assert k !in Pairs(prefix);
          LogCountAbsent(prefix, k, n);
        }
      }
    }
  }

  /** A pair that never occurs in the log has count 0 for every next state. */
  lemma {:induction false} LogCountAbsent(log: seq<Experience>, k: Pair, n: nat)
    requires k !in Pairs(log)
    ensures LogCount(log, k, n) == 0
  {
    if log != [] {
      var prefix := log[..|log| - 1];
      assert Pairs(prefix) <= Pairs(log) by {
        forall k' | k' in Pairs(prefix) ensures k' in Pairs(log) {
          var i :| 0 <= i < |prefix| && Key(prefix[i]) == k';
          assert log[i] == prefix[i];
        }
      }
      LogCountAbsent(prefix, k, n);
      assert Key(log[|log| - 1]) in Pairs(log);
    }
  }

  /** A log inside the tables records into a well-formed model. */
  lemma {:induction false} ModelOfWellFormed(log: seq<Experience>, numStates: nat, numActions: nat)
    requires LogInRange(log, numStates, numActions)
    ensures WellFormed(ModelOf(log), numStates, numActions)
  {
    if log != [] {
      var prefix := log[..|log| - 1];
      var e := log[|log| - 1];
      assert LogInRange(prefix, numStates, numActions) by {
        forall i | 0 <= i < |prefix| ensures prefix[i] == log[i] { }
      }
      ModelOfWellFormed(prefix, numStates, numActions);
      RecordWellFormed(ModelOf(prefix), Key(e), e.next, numStates, numActions);
    }
  }

  // ---------------------------------------------------------------------
  // The agent invariant
  // ---------------------------------------------------------------------

  /**
    What the memory of every agent reachable from `Construct` satisfies: the
    tables keep their shape, every logged transition indexes inside them,
    and T is the model recorded from the log when Dyna is on, and empty
    when it is off.
   */
  predicate Fits(cfg: Config, mem: Memory) {
    && Shaped(mem.q, cfg.numStates, cfg.numActions)
    && Shaped(mem.r, cfg.numStates, cfg.numActions)
    && LogInRange(mem.log, cfg.numStates, cfg.numActions)
    && mem.t == (if cfg.dyna > 0 then ModelOf(mem.log) else map[])
  }

  /**
    The agent invariant. The pointer `(s, a)` is NOT part of it: `Prime` may
    store an action outside the table, which the next `Step` reports.
   */
  predicate Valid(ag: Agent) {
    Fits(ag.cfg, ag.mem)
  }

  /**
    The lookup of a logged pair in T during a planning replay never fails: with Dyna
    on, every logged pair is a key of T, its dictionary is non-empty, and T
    only names states and actions inside the tables.
   */
  lemma PlanningLookupSucceeds(cfg: Config, mem: Memory)
    requires Fits(cfg, mem) && cfg.dyna > 0
    ensures forall i :: 0 <= i < |mem.log| ==> Key(mem.log[i]) in mem.t && |mem.t[Key(mem.log[i])]| > 0
    ensures WellFormed(mem.t, cfg.numStates, cfg.numActions)
  {
    ModelOfKeys(mem.log);
    ModelOfWellFormed(mem.log, cfg.numStates, cfg.numActions);
    forall i | 0 <= i < |mem.log| ensures Key(mem.log[i]) in Pairs(mem.log) { }
  }

  /**
    The next state a replay infers for a logged pair is a mode of that
    pair's logged successors: no next state was observed after the pair
    more often.
   */
  lemma ReplayTargetIsMode(cfg: Config, mem: Memory, k: Pair)
    requires Fits(cfg, mem) && cfg.dyna > 0 && k in mem.t
    ensures WellFormed(mem.t, cfg.numStates, cfg.numActions)
    ensures forall m :: LogCount(mem.log, k, m) <= LogCount(mem.log, k, InferNext(mem.t, k, cfg.numStates, cfg.numActions))
  {
    ModelOfWellFormed(mem.log, cfg.numStates, cfg.numActions);
    ModelOfCounts(mem.log);
  }

  // ---------------------------------------------------------------------
  // Construct and Prime
  // ---------------------------------------------------------------------

  /**
    `__init__`: Q and R of shape `numStates x numActions` filled with 0, an
    empty T and an empty log, the pointer at `(0, 0)`, the arguments kept.
    The parameters default to the constructor's defaults: 100 states, 4
    actions, alpha 0.2, gamma 0.9, rar 0.5, radr 0.99 and no planning.
   */
  function Construct(numStates: nat := 100, numActions: nat := 4, alpha: real := 0.2, gamma: real := 0.9,
                     rar: real := 0.5, radr: real := 0.99, dyna: nat := 0): (ag: Agent)
    ensures Valid(ag)
    ensures ag.cfg == Config(numStates, numActions, alpha, gamma, radr, dyna) && ag.rar == rar
    ensures forall i, j :: 0 <= i < numStates && 0 <= j < numActions ==> ag.mem.q[i][j] == 0.0 && ag.mem.r[i][j] == 0.0
    ensures ag.mem.t == map[] && ag.mem.log == []
    ensures ag.s == 0 && ag.a == 0
  {
    var cfg := Config(numStates, numActions, alpha, gamma, radr, dyna);
    Agent(cfg, Memory(Zeros(numStates, numActions), Zeros(numStates, numActions), map[], []), 0, 0, rar)
  }

  /**
    `querysetstate(s)`. When `u < rar` the random action `randAction`, drawn
    from the inclusive range [0, 3] whatever `numActions` is, is taken as is; otherwise the first-max action of row `s`. Only the
    pointer moves. The greedy branch fails like numpy does when `s` is not a
    row of Q or the row is empty; the random branch never reads Q and so
    accepts any `s`.
   */
  function Prime(ag: Agent, s: nat, u: real, randAction: nat): (res: Result<Reply>)
    requires Shaped(ag.mem.q, ag.cfg.numStates, ag.cfg.numActions)
    requires 0.0 <= u < 1.0
    requires randAction <= 3
    ensures res.Err? <==> u >= ag.rar && (s >= ag.cfg.numStates || ag.cfg.numActions == 0)
    ensures res.Err? ==> res.error == (if s >= ag.cfg.numStates then IndexError else EmptyArgmax)
    ensures res.Ok? ==> res.value.agent == ag.(s := s, a := res.value.action)
    ensures res.Ok? && u < ag.rar ==> res.value.action == randAction
    ensures res.Ok? && u >= ag.rar ==> s < ag.cfg.numStates && IsFirstMax(ag.mem.q[s], res.value.action)
  {
    if u < ag.rar then
      Ok(Reply(ag.(s := s, a := randAction), randAction))
    else if s >= ag.cfg.numStates then
      Err(IndexError)
    else if ag.cfg.numActions == 0 then
      Err(EmptyArgmax)
    else
      var action := Argmax(ag.mem.q[s]);
      Ok(Reply(ag.(s := s, a := action), action))
  }

  // ---------------------------------------------------------------------
  // The pieces of Step
  // ---------------------------------------------------------------------

  /**
    The real update of `query`: `Q[s, a]` becomes
    `(1 - alpha) * Q[s, a] + alpha * (reward + gamma * max Q[next, :])`, the
    maximum taken over the row of `next` before the write; no other cell
    changes.
   */
  function RealUpdate(cfg: Config, q: Table, s: nat, a: nat, next: nat, reward: real): (q': Table)
    requires Shaped(q, cfg.numStates, cfg.numActions)
    requires s < cfg.numStates && a < cfg.numActions && next < cfg.numStates
    ensures Shaped(q', cfg.numStates, cfg.numActions)
    ensures q'[s][a] == Blend(cfg.alpha, q[s][a], reward + cfg.gamma * MaxOf(q[next]))
    ensures Agree(q, q', cfg.numStates, cfg.numActions, {(s, a)})
  {
    SetCell(q, s, a, Blend(cfg.alpha, q[s][a], reward + cfg.gamma * MaxOf(q[next])))
  }

  /**
    The reward-model update of `query`: with Dyna on, `R[s, a]` becomes
    `(1 - alpha) * R[s, a] + alpha * reward` and no other cell changes;
    with Dyna off R is untouched.
   */
  function SmoothReward(cfg: Config, r: Table, s: nat, a: nat, reward: real): (r': Table)
    requires Shaped(r, cfg.numStates, cfg.numActions)
    requires s < cfg.numStates && a < cfg.numActions
    ensures Shaped(r', cfg.numStates, cfg.numActions)
    ensures cfg.dyna == 0 ==> r' == r
    ensures cfg.dyna > 0 ==> r'[s][a] == Blend(cfg.alpha, r[s][a], reward)
    ensures Agree(r, r', cfg.numStates, cfg.numActions, {(s, a)})
  {
    if cfg.dyna > 0 then SetCell(r, s, a, Blend(cfg.alpha, r[s][a], reward)) else r
  }

  /**
    The transition-model update of `query`: with Dyna on, the count of
    `(s, a) -> next` in T grows by one (a new key or next state starts at
    1) and every other key and count stays as it was; with Dyna off T is
    untouched.
   */
  function CountTransition(cfg: Config, t: Model, s: nat, a: nat, next: nat): (t': Model)
    ensures cfg.dyna == 0 ==> t' == t
    ensures cfg.dyna > 0 ==>
      && t'.Keys == t.Keys + {(s, a)}
      && (forall k :: k in t && k != (s, a) ==> t'[k] == t[k])
      && CountOf(t'[(s, a)], next) == (if (s, a) in t then CountOf(t[(s, a)], next) else 0) + 1
      && (forall m :: m != next ==> CountOf(t'[(s, a)], m) == (if (s, a) in t then CountOf(t[(s, a)], m) else 0))
  {
    if cfg.dyna > 0 then Record(t, (s, a), next) else t
  }

  /**
    The learning part of `query`: the real update, the log append of
    `(s, a, next, reward)`, and the model update. The invariant is kept.
   */
  function Learn(cfg: Config, mem: Memory, s: nat, a: nat, next: nat, reward: real): (mem': Memory)
    requires Fits(cfg, mem)
    requires s < cfg.numStates && a < cfg.numActions && next < cfg.numStates
    ensures Fits(cfg, mem')
    ensures mem'.log == mem.log + [Experience(s, a, next, reward)]
  {
    var log' := mem.log + [Experience(s, a, next, reward)];
    assert log'[..|log'| - 1] == mem.log;
    assert LogInRange(log', cfg.numStates, cfg.numActions) by {
      forall i | 0 <= i < |log'| ensures log'[i] == (if i < |mem.log| then mem.log[i] else Experience(s, a, next, reward)) { }
    }
    Memory(RealUpdate(cfg, mem.q, s, a, next, reward),
           SmoothReward(cfg, mem.r, s, a, reward),
           CountTransition(cfg, mem.t, s, a, next),
           log')
  }

  /**
    One planning iteration: for the logged pair of `e`, infer the most
    visited next state from T and update exactly the cell `Q[e.s, e.a]`,
    with the learned reward `R[e.s, e.a]` in place of an observed one and
    the maximum over the current row of the inferred next state. The logged
    next state and reward of `e` are not used.
   */
  function Replay(cfg: Config, r: Table, t: Model, q: Table, e: Experience): (q': Table)
    requires Shaped(q, cfg.numStates, cfg.numActions) && Shaped(r, cfg.numStates, cfg.numActions)
    requires WellFormed(t, cfg.numStates, cfg.numActions) && Key(e) in t
    ensures Shaped(q', cfg.numStates, cfg.numActions)
    ensures
      var n := InferNext(t, Key(e), cfg.numStates, cfg.numActions);
      q'[e.s][e.a] == Blend(cfg.alpha, q[e.s][e.a], r[e.s][e.a] + cfg.gamma * MaxOf(q[n]))
    ensures Agree(q, q', cfg.numStates, cfg.numActions, {Key(e)})
  {
    var n := InferNext(t, Key(e), cfg.numStates, cfg.numActions);
    SetCell(q, e.s, e.a, Blend(cfg.alpha, q[e.s][e.a], r[e.s][e.a] + cfg.gamma * MaxOf(q[n])))
  }

  /** The cells the replays of the first `n` picks write. */
  function Replayed(log: seq<Experience>, picks: seq<nat>, n: nat): set<Pair>
    requires n <= |picks|
    requires forall i :: 0 <= i < |picks| ==> picks[i] < |log|
  {
    set i | 0 <= i < n :: Key(log[picks[i]])
  }

  /** Every drawn index is a log position whose pair is a key of T. */
  predicate PicksReady(t: Model, log: seq<Experience>, picks: seq<nat>) {
    forall i :: 0 <= i < |picks| ==> picks[i] < |log| && Key(log[picks[i]]) in t
  }

  /**
    The first `n` iterations of the planning loop over Q: one `Replay` per
    drawn log index, in order, each on the table the earlier ones left.
    Only the cells of the replayed pairs can change, and the table keeps its
    shape.
   */
  function Plan(cfg: Config, r: Table, t: Model, log: seq<Experience>, q: Table, picks: seq<nat>, n: nat): (q': Table)
    requires Shaped(q, cfg.numStates, cfg.numActions) && Shaped(r, cfg.numStates, cfg.numActions)
    requires WellFormed(t, cfg.numStates, cfg.numActions)
    requires PicksReady(t, log, picks) && n <= |picks|
    ensures Shaped(q', cfg.numStates, cfg.numActions)
    ensures Agree(q, q', cfg.numStates, cfg.numActions, Replayed(log, picks, n))
  {
    if n == 0 then q
    else
      var prior := Plan(cfg, r, t, log, q, picks, n - 1);
      var e := log[picks[n - 1]];
      var q' := Replay(cfg, r, t, prior, e);
      assert Replayed(log, picks, n - 1) + {Key(e)} <= Replayed(log, picks, n);
      AgreeChain(q, prior, q', cfg.numStates, cfg.numActions, Replayed(log, picks, n - 1), {Key(e)});
      q'
  }

  /**
    The planning loop of `query` on a memory that satisfies the invariant: the
    `dyna` replays change only Q, and only at the replayed pairs.
   */
  function Replan(cfg: Config, mem: Memory, picks: seq<nat>): (mem': Memory)
    requires Fits(cfg, mem)
    requires |picks| == cfg.dyna && forall i :: 0 <= i < |picks| ==> picks[i] < |mem.log|
    ensures Fits(cfg, mem')
    ensures mem' == mem.(q := mem'.q)
    ensures Agree(mem.q, mem'.q, cfg.numStates, cfg.numActions, Replayed(mem.log, picks, |picks|))
    ensures cfg.dyna == 0 ==> mem' == mem
  {
    assert PicksReady(mem.t, mem.log, picks) by {
      if cfg.dyna > 0 {
        PlanningLookupSucceeds(cfg, mem);
      }
    }
    ModelOfWellFormed(mem.log, cfg.numStates, cfg.numActions);
    mem.(q := Plan(cfg, mem.r, mem.t, mem.log, mem.q, picks, |picks|))
  }

  // ---------------------------------------------------------------------
  // Step
  // ---------------------------------------------------------------------

  /**
    The learning and planning part of `query`, once the indices are in
    range: the real update, the model update and the planning replays. The log grows
    by the one transition `(s, a, next, reward)`. With `dyna == 0` Q is the
    real update alone and R and T stay as they were; with `dyna > 0` `R[s, a]`
    is smoothed towards `reward`, and besides `Q[s, a]` only the cells of
    replayed pairs change.
   */
  function Update(cfg: Config, mem: Memory, s: nat, a: nat, next: nat, reward: real, picks: seq<nat>): (mem': Memory)
    requires Fits(cfg, mem)
    requires s < cfg.numStates && a < cfg.numActions && next < cfg.numStates
    requires |picks| == cfg.dyna && forall i :: 0 <= i < |picks| ==> picks[i] <= |mem.log|
    ensures Fits(cfg, mem')
    ensures mem'.log == mem.log + [Experience(s, a, next, reward)]
    ensures cfg.dyna == 0 ==> mem'.q == RealUpdate(cfg, mem.q, s, a, next, reward) && mem'.r == mem.r && mem'.t == mem.t
    ensures cfg.dyna > 0 ==> Agree(mem.q, mem'.q, cfg.numStates, cfg.numActions, {(s, a)} + Replayed(mem'.log, picks, |picks|))
    ensures cfg.dyna > 0 ==> mem'.r[s][a] == Blend(cfg.alpha, mem.r[s][a], reward)
    ensures Agree(mem.r, mem'.r, cfg.numStates, cfg.numActions, {(s, a)})
  {
    var learned := Learn(cfg, mem, s, a, next, reward);
    assert learned.q == RealUpdate(cfg, mem.q, s, a, next, reward);
    assert learned.r == SmoothReward(cfg, mem.r, s, a, reward);
    var planned := Replan(cfg, learned, picks);
    assert planned.r == SmoothReward(cfg, mem.r, s, a, reward);
    assert cfg.dyna > 0 ==> Agree(mem.q, planned.q, cfg.numStates, cfg.numActions, {(s, a)} + Replayed(learned.log, picks, |picks|)) by {
      if cfg.dyna > 0 {
        AgreeChain(mem.q, learned.q, planned.q, cfg.numStates, cfg.numActions, {(s, a)}, Replayed(learned.log, picks, |picks|));
      }
    }
    planned
  }

  /** One step of the exploration schedule: `rar` is multiplied by `radr`. */
  function Decay(cfg: Config, rar: real): real {
    rar * cfg.radr
  }

  /** The draws a `query` call consumes are possible ones. */
  predicate DrawsFit(ag: Agent, picks: seq<nat>, u: real, randAction: nat) {
    && |picks| == ag.cfg.dyna
    && (forall i :: 0 <= i < |picks| ==> picks[i] <= |ag.mem.log|)
    && 0.0 <= u < 1.0
    && randAction <= 2
  }

  /**
    `query(next, reward)`. Fails with `IndexError`, before changing
    anything, exactly when the pointer or `next` falls outside the table.
    Otherwise the memory is `Update`d with the transition from the pointer;
    the action is `randAction` (drawn from the half-open range [0, 3), so
    in [0, 2]) when `u < rar`, else the first max of the updated Q row of
    `next`; the pointer becomes `(next, action)` and `rar` is multiplied by
    `radr` once, however many replays ran.
   */
  function Step(ag: Agent, next: nat, reward: real, picks: seq<nat>, u: real, randAction: nat): (res: Result<Reply>)
    requires Valid(ag)
    requires DrawsFit(ag, picks, u, randAction)
    ensures res.Err? <==> !(ag.s < ag.cfg.numStates && ag.a < ag.cfg.numActions && next < ag.cfg.numStates)
    ensures res.Err? ==> res.error == IndexError
    ensures res.Ok? ==>
      var ag' := res.value.agent;
      && Valid(ag')
      && ag'.cfg == ag.cfg
      && ag'.mem == Update(ag.cfg, ag.mem, ag.s, ag.a, next, reward, picks)
      && ag'.s == next && ag'.a == res.value.action
      && ag'.rar == Decay(ag.cfg, ag.rar)
      && (u < ag.rar ==> res.value.action == randAction)
      && (u >= ag.rar ==> IsFirstMax(ag'.mem.q[next], res.value.action))
    ensures res.Ok? && randAction < ag.cfg.numActions ==> res.value.action < ag.cfg.numActions
  {
    if ag.s >= ag.cfg.numStates || ag.a >= ag.cfg.numActions || next >= ag.cfg.numStates then
      Err(IndexError)
    else
      var mem' := Update(ag.cfg, ag.mem, ag.s, ag.a, next, reward, picks);
      var action := if u < ag.rar then randAction else Argmax(mem'.q[next]);
      Ok(Reply(Agent(ag.cfg, mem', next, action, Decay(ag.cfg, ag.rar)), action))
  }
}
