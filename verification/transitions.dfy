/**
  The transition-count model T of Dyna-Q: for every visited (state, action)
  pair, how often each next state followed it. The inner dictionary of the
  learner is insertion ordered, and that order decides ties when the most
  visited next state is picked, so it is modelled as an association list.
 */
module Transitions {
  import opened Tables

  /** One entry `next: count` of an inner dictionary. */
  datatype Visit = Visit(next: nat, count: nat)

  /** An inner dictionary, entries in insertion order. */
  type Counts = seq<Visit>

  /** A (state, action) key of T. */
  type Pair = (nat, nat)

  type Model = map<Pair, Counts>

  /** The keys of an inner dictionary, in insertion order. */
  function Nexts(c: Counts): (ns: seq<nat>)
    ensures |ns| == |c|
    ensures forall i :: 0 <= i < |c| ==> ns[i] == c[i].next
  {
    seq(|c|, i requires 0 <= i < |c| => c[i].next)
  }

  /** The count recorded for next state `n`; 0 when `n` is not a key. */
  function CountOf(c: Counts, n: nat): nat {
    if c == [] then 0
    else CountOf(c[..|c| - 1], n) + (if c[|c| - 1].next == n then c[|c| - 1].count else 0)
  }

  predicate Distinct(xs: seq<nat>) {
    forall i, j :: 0 <= i < j < |xs| ==> xs[i] != xs[j]
  }

  /** Where the entry for `n` sits: the first index whose key is `n`, or `|c|` when there is none. */
  function Position(c: Counts, n: nat): (i: nat)
    ensures i <= |c|
    ensures i < |c| ==> c[i].next == n
    ensures forall j :: 0 <= j < i ==> c[j].next != n
  {
    if c == [] then 0
    else
      var i := Position(c[..|c| - 1], n);
      if i < |c| - 1 then i
      else if c[|c| - 1].next == n then |c| - 1
      else |c|
  }

  /** Replacing one entry moves the counts of its old key and of its new key, and no other. */
  lemma {:induction false} CountOfReplace(c: Counts, i: nat, v: Visit, m: nat)
    requires i < |c|
    ensures CountOf(c[i := v], m) + (if c[i].next == m then c[i].count else 0)
         == CountOf(c, m) + (if v.next == m then v.count else 0)
  {
    var c' := c[i := v];
    var last := |c| - 1;
    if i == last {
      assert c'[..last] == c[..last];
    } else {
      assert c'[..last] == c[..last][i := v];
      CountOfReplace(c[..last], i, v, m);
    }
  }

  /**
    `d[n] += 1` on an inner dictionary, or `d[n] = 1` when `n` is new: the
    count of `n` grows by one, no other count moves, and a new key goes to
    the end of the insertion order.
   */
  function Bump(c: Counts, n: nat): (c': Counts)
    ensures CountOf(c', n) == CountOf(c, n) + 1
    ensures forall m :: m != n ==> CountOf(c', m) == CountOf(c, m)
    ensures Nexts(c') == if n in Nexts(c) then Nexts(c) else Nexts(c) + [n]
  {
    var i := Position(c, n);
    if i < |c| then
      var v := Visit(n, c[i].count + 1);
      assert forall m :: CountOf(c[i := v], m) == CountOf(c, m) + (if m == n then 1 else 0) by {
        forall m ensures CountOf(c[i := v], m) == CountOf(c, m) + (if m == n then 1 else 0) {
          CountOfReplace(c, i, v, m);
        }
      }
      assert Nexts(c)[i] == n;
      c[i := v]
    else
      var c' := c + [Visit(n, 1)];
      assert c'[..|c|] == c;
      assert n !in Nexts(c) by {
        forall j | 0 <= j < |c| ensures Nexts(c)[j] != n { }
      }
      c'
  }

  /**
    Python's `max(d, key=d.get)` keeps the first key whose count is largest:
    the index returned has a count no other entry beats, and every earlier
    entry has a strictly smaller count.
   */
  function MostVisitedAt(c: Counts): (i: nat)
    requires |c| > 0
    ensures i < |c|
    ensures forall j :: 0 <= j < |c| ==> c[j].count <= c[i].count
    ensures forall j :: 0 <= j < i ==> c[j].count < c[i].count
  {
    if |c| == 1 then 0
    else
      var i := MostVisitedAt(c[..|c| - 1]);
      if c[|c| - 1].count > c[i].count then |c| - 1 else i
  }

  /** On a dictionary without repeated keys, each entry's count is the count of its key. */
  lemma {:induction false} CountOfDistinct(c: Counts)
    requires Distinct(Nexts(c))
    ensures forall i :: 0 <= i < |c| ==> CountOf(c, c[i].next) == c[i].count
    ensures forall m :: m !in Nexts(c) ==> CountOf(c, m) == 0
  {
    if c != [] {
      var last := |c| - 1;
      var prefix := c[..last];
      assert Distinct(Nexts(prefix)) by {
        forall i, j | 0 <= i < j < |prefix| ensures Nexts(prefix)[i] != Nexts(prefix)[j] {
          assert Nexts(c)[i] != Nexts(c)[j];
        }
      }
      CountOfDistinct(prefix);
      assert c[last].next !in Nexts(prefix) by {
        forall j | 0 <= j < |prefix| ensures Nexts(prefix)[j] != c[last].next {
          assert Nexts(c)[j] != Nexts(c)[last];
        }
      }
      forall i | 0 <= i < |c| ensures CountOf(c, c[i].next) == c[i].count {
        if i < last {
          assert c[i] == prefix[i];
          assert c[i].next != c[last].next by { assert Nexts(c)[i] != Nexts(c)[last]; }
        }
      }
      forall m | m !in Nexts(c) ensures CountOf(c, m) == 0 {
        assert m != Nexts(c)[last];
        assert m !in Nexts(prefix) by {
          forall j | 0 <= j < |prefix| ensures Nexts(prefix)[j] != m {
            assert Nexts(prefix)[j] == Nexts(c)[j];
          }
        }
      }
    }
  }

  /**
    The model update of a real step: the count of `n` under key `k` grows by one
    (starting at 1 for a new key or a new next state), nothing else in T moves.
   */
  function Record(t: Model, k: Pair, n: nat): (t': Model)
    ensures t'.Keys == t.Keys + {k}
    ensures forall k' :: k' in t && k' != k ==> t'[k'] == t[k']
    ensures CountOf(t'[k], n) == (if k in t then CountOf(t[k], n) else 0) + 1
    ensures forall m :: m != n ==> CountOf(t'[k], m) == (if k in t then CountOf(t[k], m) else 0)
    ensures Nexts(t'[k]) == if k !in t then [n] else if n in Nexts(t[k]) then Nexts(t[k]) else Nexts(t[k]) + [n]
  {
    if k !in t then t[k := [Visit(n, 1)]]
    else t[k := Bump(t[k], n)]
  }

  /**
    Every key of T is a (state, action) inside the tables, its dictionary is
    non-empty with distinct keys, and every next state in it is a state.
   */
  predicate WellFormed(t: Model, numStates: nat, numActions: nat) {
    forall k :: k in t ==>
      && k.0 < numStates && k.1 < numActions
      && |t[k]| > 0
      && Distinct(Nexts(t[k]))
      && forall j :: 0 <= j < |t[k]| ==> t[k][j].next < numStates
  }

  /**
    `max(T[k], key=T[k].get)`: the next state a planning replay uses for
    key `k`. It is a state, no next state was counted more often after `k`,
    and every next state inserted before it was counted strictly less
    often, so ties go to the earliest inserted one.
   */
  function InferNext(t: Model, k: Pair, numStates: nat, numActions: nat): (n: nat)
    requires WellFormed(t, numStates, numActions) && k in t
    ensures n < numStates
    ensures forall m :: CountOf(t[k], m) <= CountOf(t[k], n)
    ensures forall j :: 0 <= j < Position(t[k], n) ==> t[k][j].count < CountOf(t[k], n)
  {
    var c := t[k];
    var i := MostVisitedAt(c);
    CountOfDistinct(c);
    assert forall m :: CountOf(c, m) <= CountOf(c, c[i].next) by {
      forall m ensures CountOf(c, m) <= CountOf(c, c[i].next) {
        if m in Nexts(c) {
          var j :| 0 <= j < |c| && Nexts(c)[j] == m;
          assert CountOf(c, m) == c[j].count;
        }
      }
    }
    c[i].next
  }

  /** Recording a transition inside the tables keeps T well formed. */
  lemma RecordWellFormed(t: Model, k: Pair, n: nat, numStates: nat, numActions: nat)
    requires WellFormed(t, numStates, numActions)
    requires k.0 < numStates && k.1 < numActions && n < numStates
    ensures WellFormed(Record(t, k, n), numStates, numActions)
  {
    var t' := Record(t, k, n);
    var ns := Nexts(t'[k]);
    assert |t'[k]| > 0;
    if k in t && n !in Nexts(t[k]) {
      var prior := Nexts(t[k]);
      assert ns == prior + [n];
      forall i, j | 0 <= i < j < |ns| ensures ns[i] != ns[j] {
        if j == |prior| {
          assert ns[i] == prior[i];
        } else {
          assert ns[i] == prior[i] && ns[j] == prior[j];
        }
      }
    }
    forall j | 0 <= j < |t'[k]| ensures t'[k][j].next < numStates {
      assert t'[k][j].next == ns[j];
      if k in t {
        var prior := Nexts(t[k]);
        if j < |prior| {
          assert ns[j] == prior[j] == t[k][j].next;
        }
      }
    }
  }
}
