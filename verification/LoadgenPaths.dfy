/** Finite schedules of the load engine, step by step. */
module LoadgenPaths {
  import opened Loadgen
  import opened LoadgenWorkers

  /** The states that the schedule `acts` visits on its way from s to t. */
  ghost predicate Trace(c: Config, s: State, states: seq<State>, acts: seq<Action>, t: State)
    requires c.Valid()
  {
    && |states| == |acts| + 1
    && states[0] == s && states[|acts|] == t
    && forall i :: 0 <= i < |acts| ==> Link(c, states, acts, i)
  }

  /** The schedule `acts` leads from s to t. */
  ghost predicate Path(c: Config, s: State, acts: seq<Action>, t: State)
    requires c.Valid()
  {
    exists states :: Trace(c, s, states, acts, t)
  }

  lemma EmptyPath(c: Config, s: State)
    requires c.Valid()
    ensures Path(c, s, [], s)
  {
    assert Trace(c, s, [s], [], s);
  }

  lemma {:induction false} TraceReachable(c: Config, s: State, states: seq<State>, acts: seq<Action>, t: State, i: nat)
    requires c.Valid() && Trace(c, s, states, acts, t) && Reachable(c, s) && i <= |acts|
    ensures Reachable(c, states[i])
  {
    if i > 0 {
      TraceReachable(c, s, states, acts, t, i - 1);
      assert Link(c, states, acts, i - 1);
      ReachableStep(c, states[i - 1], acts[i - 1]);
    }
  }

  lemma PathReachable(c: Config, s: State, acts: seq<Action>, t: State)
    requires c.Valid() && Path(c, s, acts, t) && Reachable(c, s)
    ensures Reachable(c, t)
  {
    var states :| Trace(c, s, states, acts, t);
    TraceReachable(c, s, states, acts, t, |acts|);
  }

  lemma Extend(c: Config, s0: State, acts: seq<Action>, s: State, a: Action, t: State)
    requires c.Valid() && Path(c, s0, acts, s) && PoolShape(c, s.pool) && Step(c, s, a) == t
    ensures Path(c, s0, acts + [a], t)
  {
    var states :| Trace(c, s0, states, acts, s);
    ExtendTrace(c, s0, states, acts, s, a, t);
  }

  lemma ExtendTrace(c: Config, s0: State, states: seq<State>, acts: seq<Action>, s: State, a: Action, t: State)
    requires c.Valid() && Trace(c, s0, states, acts, s) && PoolShape(c, s.pool) && Step(c, s, a) == t
    ensures Trace(c, s0, states + [t], acts + [a], t)
  {
    var states', acts' := states + [t], acts + [a];
    forall i | 0 <= i < |acts'| ensures Link(c, states', acts', i) {
      if i < |acts| {
        assert Link(c, states, acts, i);
      }
    }
  }

  /** A step of one trace is a step of any other that has the same states around it. */
  lemma LinkMoves(c: Config, states: seq<State>, acts: seq<Action>, i: nat, states': seq<State>, acts': seq<Action>,
                  j: nat)
    requires c.Valid() && |states| == |acts| + 1 && |states'| == |acts'| + 1 && i < |acts| && j < |acts'|
    requires states'[j] == states[i] && states'[j + 1] == states[i + 1] && acts'[j] == acts[i]
    requires Link(c, states, acts, i)
    ensures Link(c, states', acts', j)
  {
  }

  lemma ConcatTrace(c: Config, s: State, states: seq<State>, acts: seq<Action>, t: State,
                    states': seq<State>, acts': seq<Action>, u: State)
    requires c.Valid() && Trace(c, s, states, acts, t) && Trace(c, t, states', acts', u)
    ensures Trace(c, s, states + states'[1..], acts + acts', u)
  {
    var all := states + states'[1..];
    forall i | 0 <= i < |acts + acts'| ensures Link(c, all, acts + acts', i) {
      if i < |acts| {
        LinkMoves(c, states, acts, i, all, acts + acts', i);
      } else {
        LinkMoves(c, states', acts', i - |acts|, all, acts + acts', i);
      }
    }
  }

  lemma PathConcat(c: Config, s: State, acts: seq<Action>, t: State, acts': seq<Action>, u: State)
    requires c.Valid() && Path(c, s, acts, t) && Path(c, t, acts', u)
    ensures Path(c, s, acts + acts', u)
  {
    var states :| Trace(c, s, states, acts, t);
    var states' :| Trace(c, t, states', acts', u);
    ConcatTrace(c, s, states, acts, t, states', acts', u);
  }

  /** What holds at the start of a path and passes along each of its steps holds at its end. */
  lemma {:induction false} AlongTrace(states: seq<State>, n: nat, p: State -> bool)
    requires n < |states| && p(states[0])
    requires forall i :: 0 <= i < n && p(states[i]) ==> p(states[i + 1])
    ensures p(states[n])
  {
    if n > 0 {
      AlongTrace(states, n - 1, p);
      assert p(states[n - 1]);
    }
  }

  /** Evaluate one more action. */
  lemma Do(c: Config, s0: State, acts: seq<Action>, s: State, a: Action) returns (t: State)
    requires c.Valid() && Path(c, s0, acts, s) && PoolShape(c, s.pool)
    ensures t == Step(c, s, a) && Path(c, s0, acts + [a], t)
  {
    t := Step(c, s, a);
    Extend(c, s0, acts, s, a, t);
  }
}
