/**
 The database as the services share it. A ghost history records which steps of the protocol
 machine have been taken, so that whatever is proved of every reachable state of the machine
 holds of the store between any two calls.
 */
module Store {
  import opened Domain
  import opened Tables
  import opened Transitions
  import opened Protocol
  import opened ProtocolInvariant
  import opened Guarantees
  import opened Liveness
  import Quota

  class Database {
    const config: Config
    var state: State
    ghost var history: seq<Step>

    ghost predicate Valid()
      reads this
    {
      ValidConfig(config) && state == After(config, history)
    }

    constructor (c: Config)
      requires ValidConfig(c)
      ensures Valid() && config == c && history == []
    {
      config := c;
      state := INITIAL;
      history := [];
    }

    /** A transaction becomes durable; `steps` says what it amounts to. */
    method Commit(next: State, ghost steps: seq<Step>)
      requires Valid() && next == Execute(config, state, steps)
      modifies this
      ensures Valid() && state == next && history == old(history) + steps
    {
      ExecuteConcat(config, INITIAL, history, steps);
      state := next;
      history := history + steps;
    }

    /** While a caller waits, other sessions, the broker and the clock take any steps. */
    method Wait(others: seq<Step>)
      requires Valid()
      modifies this
      ensures Valid() && state == Execute(config, old(state), others) && history == old(history) + others
    {
      var next := state;
      for i := 0 to |others|
        invariant next == Execute(config, state, others[..i])
        modifies {}
      {
        assert others[..i + 1] == others[..i] + [others[i]];
        ExecuteConcat(config, state, others[..i], [others[i]]);
        One(config, next, others[i]);
        next := Apply(config, next, others[i]);
      }
      assert others[..|others|] == others;
      Commit(next, others);
    }
  }

  // ---------------------------------------------------------------------------------------
  // Queries that several services make
  // ---------------------------------------------------------------------------------------

  method CountRunning(entries: seq<Entry>, scope: Quota.Scope) returns (count: nat)
    ensures count == RunningIn(entries, scope)
  {
    count := 0;
    for i := 0 to |entries|
      invariant count == RunningIn(entries[..i], scope)
    {
      assert entries[..i + 1][..i] == entries[..i];
      if In(entries[i], scope) && entries[i].run.status.Running? {
        count := count + 1;
      }
    }
    assert entries[..|entries|] == entries;
  }

  method CountActive(entries: seq<Entry>, scope: Quota.Scope) returns (count: nat)
    ensures count == ActiveIn(entries, scope)
  {
    count := 0;
    for i := 0 to |entries|
      invariant count == ActiveIn(entries[..i], scope)
    {
      assert entries[..i + 1][..i] == entries[..i];
      if In(entries[i], scope) && Active(entries[i].run.status) {
        count := count + 1;
      }
    }
    assert entries[..|entries|] == entries;
  }

  /** What a batch query returns: the eligible rows with the smallest keys, in order, up to a limit. */
  ghost predicate IsBatch(keys: seq<Option<Time>>, limit: nat, picked: seq<nat>) {
    && |picked| <= limit
    && (forall i :: 0 <= i < |picked| ==> picked[i] < |keys| && keys[picked[i]].Some?)
    && (forall i, j :: 0 <= i < j < |picked| ==> picked[i] != picked[j] && keys[picked[i]].value <= keys[picked[j]].value)
    && (forall k: nat :: k < |keys| && keys[k].Some? && k !in picked ==>
          |picked| == limit && forall i :: 0 <= i < |picked| ==> keys[picked[i]].value <= keys[k].value)
  }

  /** The rows a batch has not taken yet. */
  method Earliest(keys: seq<Option<Time>>) returns (best: Option<nat>)
    ensures best.Some? ==> best.value < |keys| && keys[best.value].Some?
    ensures best.Some? ==> forall k: nat :: k < |keys| && keys[k].Some? ==> keys[best.value].value <= keys[k].value
    ensures best.None? ==> forall k: nat :: k < |keys| ==> keys[k].None?
  {
    best := None;
    for i := 0 to |keys|
      invariant best.Some? ==> best.value < i && keys[best.value].Some?
      invariant best.Some? ==> forall k: nat :: k < i && keys[k].Some? ==> keys[best.value].value <= keys[k].value
      invariant best.None? ==> forall k: nat :: k < i ==> keys[k].None?
    {
      if keys[i].Some? && (best.None? || keys[i].value < keys[best.value].value) {
        best := Some(i);
      }
    }
  }

  method SelectBatch(keys: seq<Option<Time>>, limit: nat) returns (picked: seq<nat>)
    ensures IsBatch(keys, limit, picked)
  {
    picked := [];
    var left := keys;
    while |picked| < limit
      invariant |picked| <= limit && |left| == |keys|
      invariant forall i :: 0 <= i < |picked| ==> picked[i] < |keys| && keys[picked[i]].Some?
      invariant forall i, j :: 0 <= i < j < |picked| ==> picked[i] != picked[j] && keys[picked[i]].value <= keys[picked[j]].value
      invariant forall k: nat :: k < |keys| ==> left[k] == if k in picked then None else keys[k]
      invariant forall k: nat, i: nat :: k < |keys| && i < |picked| && left[k].Some? ==> keys[picked[i]].value <= left[k].value
    {
      var best := Earliest(left);
      if best.None? {
        assert forall k: nat :: k < |keys| && keys[k].Some? ==> k in picked;
        return;
      }
      assert best.value !in picked;
      picked := picked + [best.value];
      left := left[best.value := None];
    }
  }
}
