# A Dafny model of the Dyna-Q `QLearner`

`QLearner.py` is a tabular Q-learning agent with the Dyna-Q planning extension.
It holds the following state:

- a Q table and a reward model R, both `num_states x num_actions`;
- a transition-count model T that maps `(s, a)` to a dictionary `next state -> count`. The dictionary keeps its keys in insertion order;
- an append-only experience log;
- the pointer `(s, a)`;
- the random-action rate `rar`.

Each method is modelled as a pure function on an immutable `Agent` record:

- `__init__` is `QLearner.Construct`.
- `querysetstate` is `QLearner.Prime`.
- `query` is `QLearner.Step`. It does these things in order:
  1. the real temporal-difference update;
  2. the log append;
  3. the R and T model updates;
  4. the `dyna` planning replays;
  5. the choice of the next action;
  6. the pointer move;
  7. one decay of `rar`.

The random draws become parameters, so every property holds for all draws:

- `u` is the `rand.uniform(0.0, 1.0)` that is compared with `rar`.
- `randAction` is the random action. It is in [0, 3] for `querysetstate` (`rand.randint` is inclusive) and in [0, 2] for `query` (`np.random.randint` is exclusive).
- `picks` are the `dyna` log indices.

Python's errors are modelled as values of the `Result` datatype. An index outside the Q table gives `IndexError`. The argmax of an empty row gives `EmptyArgmax`.

The files are:

- `tables.dfy` (module `Tables`): the dense tables, numpy's first-max `argmax`, row maximum, cell write, and the frame predicate `Agree`.
- `transitions.dfy` (module `Transitions`): T. Each inner dictionary is an association list in insertion order. The module holds the count increment and the most-visited next state. Ties go to the earliest inserted key, as in `max(d, key=d.get)`.
- `qlearner.dfy` (module `QLearner`): the agent and its operations. It also holds the invariant `Valid`. `Valid` says:
  - the tables keep their shape;
  - every logged transition lies inside the tables;
  - T is the model recorded from the log when Dyna is on, and empty when it is off.
- `runs.dfy` (module `Runs`): sequences of `query` calls. It holds the geometric decay of `rar`, the shape of the log as a walk, and worked examples.

Behaviour of the code that the model keeps as it is:

- The random action of `querysetstate` is drawn from [0, 3] (QLearner.py:78), and that of `query` from [0, 2] (QLearner.py:130), whatever `num_actions` is. `Runs.RandomPrimeCanLeaveTable` shows a consequence: on a learner with 2 actions, priming can store action 3, and the next `query` then fails with `IndexError`.
- Zero-size tables are accepted at construction (QLearner.py:55-57). With 0 actions, the greedy `querysetstate` fails the way numpy's `argmax` of an empty row does (QLearner.py:80).
- An out-of-range state or action makes numpy raise `IndexError` at the first table read of `query` (QLearner.py:100-101), before anything is written. The model returns `IndexError` there.
- Ties between most-visited next states go to the earliest inserted next state, because Python's `max` over an insertion-ordered dict keeps the first maximum (QLearner.py:123).

## Model

| member | source | states |
|---|---|---|
| Tables.Zeros | QLearner.py:55-57 | The table has `rows` rows of `cols` entries each, and every entry is 0. |
| Tables.Argmax | QLearner.py:80 | The returned index holds a maximum of the row, and every earlier index holds a strictly smaller value. This is numpy's first-max tie rule. |
| Tables.MaxOf | QLearner.py:101 | The value `Q[s', argmax]` is an entry of the row, and no entry of the row exceeds it. |
| Tables.SetCell | QLearner.py:100 | After `t[i, j] = v`, cell `(i, j)` holds `v`. Every other cell and the shape are unchanged. |
| Transitions.Bump | QLearner.py:112-115 | The count of the next state grows by one, starting from 0 when the key is new. No other count moves. A new key goes to the end of the insertion order, and an existing key keeps its place. |
| Transitions.MostVisitedAt | QLearner.py:123 | The chosen entry's count is at least every other count, and every earlier entry's count is strictly smaller. This is the first-max rule of `max(d, key=d.get)`. |
| Transitions.InferNext | QLearner.py:122-123 | The next state `max(T[k], key=T[k].get)` is a state, and no next state was counted more often after `k`. Every next state inserted before it was counted strictly less often, so ties go to the earliest inserted one. |
| Transitions.Record | QLearner.py:109-115 | The key set gains `(s, a)`. Every other key's dictionary is unchanged. The count of `(s, a) -> s'` grows by one, starting at 1 for a new key or a new next state. The other counts of `(s, a)` are unchanged. The insertion order is extended only by a new next state. |
| Transitions.RecordWellFormed | QLearner.py:109-115 | Recording an in-table transition keeps T well formed: in-table keys, non-empty dictionaries, distinct next states, and in-table next states. |
| QLearner.ModelOfKeys | QLearner.py:103-115 | The keys of the model recorded from a log are exactly the `(s, a)` pairs that occur in the log. |
| QLearner.ModelOfCounts | QLearner.py:103-115 | Every count in the recorded model equals the number of logged transitions with that pair and next state. |
| QLearner.ModelOfWellFormed | QLearner.py:103-115 | A log whose transitions lie inside the tables records into a well-formed T. |
| QLearner.PlanningLookupSucceeds | QLearner.py:120-122 | Under the invariant, with Dyna on, every logged pair is a key of T with a non-empty dictionary. So the lookup `self.T[(s, a)]` of a planning replay never fails. |
| QLearner.ReplayTargetIsMode | QLearner.py:120-123 | Under the invariant, for every next state `m`, the replayed next state was logged after the pair at least as often as `m`. |
| QLearner.Construct | QLearner.py:29-62 | The new agent satisfies the invariant and keeps its arguments, which default to those of `__init__`. Q and R are 0 everywhere, T and the log are empty, and the pointer is `(0, 0)`. |
| QLearner.Prime | QLearner.py:76-86 | The result is an error exactly on the greedy branch when the state is outside Q or the row is empty. It is `IndexError` or `EmptyArgmax` accordingly. Otherwise only the pointer moves, to `(s, action)`. The random branch returns the drawn action in [0, 3]. The greedy branch returns the first-max action of row `s`. |
| QLearner.RealUpdate | QLearner.py:100-101 | `Q[s, a]` becomes `(1-alpha)*Q[s, a] + alpha*(r + gamma*max Q[s', :])`, with the maximum taken over the row before the write. No other cell changes. |
| QLearner.SmoothReward | QLearner.py:105-107 | With Dyna on, `R[s, a]` becomes `(1-alpha)*R[s, a] + alpha*r`, and with Dyna off R is unchanged. No other cell of R changes. |
| QLearner.CountTransition | QLearner.py:105-115 | With Dyna on, the count of `(s, a) -> s'` in T grows by one and every other key and count stays. With Dyna off, T is unchanged. |
| QLearner.Learn | QLearner.py:100-115 | The real update, log append and model update keep the invariant. The log grows by exactly `(s, a, s', r)` at its end. |
| QLearner.Replay | QLearner.py:120-126 | One planning iteration writes exactly the cell of the replayed pair. It uses `R[s, a]` and the current row of the most-visited next state, not the logged next state and reward. |
| QLearner.Plan | QLearner.py:117-126 | After the first `n` replays, the table keeps its shape and differs from the input only at replayed pairs. |
| QLearner.Replan | QLearner.py:117-126 | The planning loop keeps the invariant and changes only Q, and only at the pairs of the drawn log entries. With `dyna == 0` nothing changes. |
| QLearner.Update | QLearner.py:99-126 | One learning phase keeps the invariant and appends exactly one transition. With `dyna == 0`, Q gets the real update alone and R and T stay. With Dyna on, `R[s, a]` is smoothed towards `r`, and only `(s, a)` and replayed pairs change in Q. |
| QLearner.Step | QLearner.py:99-141 | `query` fails with `IndexError` exactly when the pointer or `s'` lies outside the tables. Otherwise the invariant holds and the memory is the learning phase. The pointer becomes `(s', action)` and `rar` is multiplied by `radr` once. The action is the drawn one in [0, 2] when exploring, and the first-max action of the updated row of `s'` otherwise. |
| Runs.Call | QLearner.py:99-141 | Seen from a sequence of calls, `query` appends the transition from the pointer to `s'`, moves the pointer to `s'` and decays `rar` once. With at least three actions, the new action is one of them. |
| Runs.Run | QLearner.py:99-141 | `n` calls in a row stop only with `IndexError`. When they succeed, the invariant and configuration are kept, the old log is an untouched prefix, and the log has grown by exactly `n` transitions that form a walk. `rar` has decayed `n` times. A run that starts inside the tables, with at least three actions, never fails. |
| Runs.DecayedIsPow | QLearner.py:137 | After `n` calls, `rar` equals `rar0 * radr^n`. |
| Runs.WalkSteps | QLearner.py:103 | The `k`-th transition a run logs carries the `k`-th call's next state and reward. It starts at the state the previous call moved to, or at the starting pointer for the first call. |
| Runs.FirstStepScenario | QLearner.py:76-101 | With 4 states, 2 actions, alpha 0.5, gamma 0.9, no exploration and no planning, priming in state 0 picks action 0, and the step to state 1 with reward 10 sets `Q[0, 0]` to exactly 5. |
| Runs.RandomPrimeCanLeaveTable | QLearner.py:77-101 | With 2 actions and `rar = 1`, priming can store action 3, and the `query` that follows fails with `IndexError` whatever its draws. |

## Left out

- Floating point: Q, R, `alpha`, `gamma`, `rar` and `radr` are Dafny reals, so rounding, NaN and infinities are not modelled.
- The random number generators: their draws are parameters constrained to their ranges. Claims about distributions, such as uniformity of the drawn indices, are not stated.
- Convergence of Q to discounted returns: this is a statistical property, not a property of one call.
- `verbose` printing, `author()` and the `__main__` banner: these are I/O and boilerplate.
- QLearner.Construct: table sizes and `dyna` are `nat`, so the `ValueError` that `np.zeros` raises for a negative dimension (QLearner.py:55) is not modelled. The other constructor arguments and all defaults are kept.
- Negative indices and a negative `dyna`: states, actions and `dyna` are `nat`. numpy would wrap a negative index, and `np.random.randint` raises on a negative size only after Q and the log have been written.
- The exception raised by `self.T[(s, a)]` for a pair missing from T: under the invariant `PlanningLookupSucceeds` shows it cannot happen, so `Replay` requires the pair to be a key.
- numpy's acceptance of non-integer or array indices, and the numpy integer type of the returned action: not modelled.
- QLearner.Plan: states the shape and the frame of the whole loop, not the final value of each replayed cell. A later replay of the same pair overwrites an earlier one, so that value is stated one iteration at a time by `QLearner.Replay`.
- QLearner.Update: with Dyna on, states where Q may change, not the final value of `Q[s, a]`. A replay of `(s, a)` can overwrite the real update, so that value is stated by `QLearner.RealUpdate` and `QLearner.Replay`.
- Runs.Run: never failing is proved for runs that start inside the tables with at least three actions. That condition is sufficient, not necessary: with fewer actions a run fails only if it draws an exploring action outside the table.
