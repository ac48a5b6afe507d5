/** A run that prunes a row of a new spool's first batch before its batch was acknowledged: the
    query allows it, and the bytes are counted twice. */
module UsageExamples {
  import opened Types
  import opened Usage
  import opened UsageSafety
  import opened UsagePruning

  const I := Item(7, 1, 0)
  const B := Batch(1, 1, 0, [I])
  const K := Key(1, 1, 7)
  const P := PeriodId(1, 0)
  const M := Mark(Result.Applied, P, 1, 0)
  const Sender := Agent(1, 1, {B}, Cursor(0, 0))

  /** Spool 1 holds batch B, the stored cursor names no spool yet. */
  function Idle(registry: set<Key>, bytes: nat, seen: map<Key, Mark>): State {
    State(Sender, Cursor(0, 0), map[], registry, if bytes == 0 then map[] else map[P := Counter(bytes, 0)], seen)
  }

  /** A run with one puller at a time. */
  ghost predicate OneAtATime(ss: seq<State>, steps: seq<Step>) {
    Run(ss, steps) && forall k | 0 <= k < |steps| && steps[k].Claim? :: ss[k].pullers == map[]
  }

  lemma Then(ss: seq<State>, steps: seq<Step>, x: Step, t: State) returns (ss': seq<State>, steps': seq<Step>)
    requires OneAtATime(ss, steps) && |ss| > 0 && Enabled(ss[|ss| - 1], x) && After(ss[|ss| - 1], x) == t
    requires x.Claim? ==> ss[|ss| - 1].pullers == map[]
    ensures OneAtATime(ss', steps') && ss' == ss + [t] && steps' == steps + [x]
  {
    ss', steps' := ss + [t], steps + [x];
  }

  lemma AddsOne(registry: set<Key>, bytes: nat, seen: map<Key, Mark>)
    requires K !in registry
    ensures Charged(Idle(registry, bytes, seen), B, [I], Result.Applied, P)
         == Idle(registry + {K}, bytes + 1, seen[K := M])
  {
    OneNew(registry);
    OneSum();
    assert Marks(seen, registry, B, [I], Result.Applied, P) == seen[K := M] by {
      assert [I][1..] == [];
    }
    assert Rows(B, [I]) == {K} by { assert I in [I]; }
    hide Plus, Marks, Registered, Sum, Rows;
    PlusOne(bytes);
  }

  lemma OneNew(registry: set<Key>)
    requires K !in registry
    ensures Registered(registry, B, [I]) == [I]
  {
    RegisteredIsNew(registry, B, [I]);
    assert [I][1..] == [];
  }

  lemma OneSum()
    ensures Sum([I]) == Counter(1, 0)
  {
    assert [I][1..] == [];
  }

  lemma PlusOne(bytes: nat)
    ensures Plus(Counter(bytes, 0), Counter(1, 0)) == Counter(bytes + 1, 0)
  {
  }

  function At(s: State, answered: bool, batches: seq<Batch>, pending: Option<seq<seq<Item>>>): State {
    s.(pullers := map[0 := Puller(Cursor(0, 0), answered, batches, pending)])
  }

  lemma Pulls(s: State)
    requires s.agent == Sender && s.stored == Cursor(0, 0) && s.pullers == map[]
    ensures Enabled(s, Claim(0)) && After(s, Claim(0)) == At(s, false, [], None)
    ensures Enabled(At(s, false, [], None), Respond(0, [B]))
    ensures After(At(s, false, [], None), Respond(0, [B])) == At(s, true, [B], None)
    ensures Enabled(At(s, true, [B], None), Begin(0, [[I]]))
    ensures After(At(s, true, [B], None), Begin(0, [[I]])) == At(s, true, [B], Some([[I]]))
    ensures Enabled(At(s, true, [B], Some([])), Stop(0)) && After(At(s, true, [B], Some([])), Stop(0)) == s
  {
    assert [[I]][0] == [I];
    assert At(s, true, [B], Some([])).pullers - {0} == s.pullers;
  }

  /** The batch is pulled and charged; then the puller crashes before it can advance. */
  lemma PulledOnce(ss: seq<State>, steps: seq<Step>, registry: set<Key>, bytes: nat, seen: map<Key, Mark>)
    returns (ss': seq<State>, steps': seq<Step>)
    requires OneAtATime(ss, steps) && |ss| > 0 && ss[|ss| - 1] == Idle(registry, bytes, seen) && K !in registry
    ensures OneAtATime(ss', steps') && |ss'| > 0 && ss'[|ss'| - 1] == Idle(registry + {K}, bytes + 1, seen[K := M])
    ensures ss <= ss' && steps <= steps'
  {
    AddsOne(registry, bytes, seen);
    ss', steps' := PulledFrom(ss, steps, Idle(registry, bytes, seen), Idle(registry + {K}, bytes + 1, seen[K := M]));
  }

  lemma PulledFrom(ss: seq<State>, steps: seq<Step>, s: State, t: State) returns (ss': seq<State>, steps': seq<Step>)
    requires OneAtATime(ss, steps) && |ss| > 0 && ss[|ss| - 1] == s && t == Charged(s, B, [I], Result.Applied, P)
    requires s.agent == Sender && s.stored == Cursor(0, 0) && s.pullers == map[]
    ensures OneAtATime(ss', steps') && |ss'| > 0 && ss'[|ss'| - 1] == t
    ensures ss <= ss' && steps <= steps'
  {
    hide Registered, Sum, Marks, Plus, Enabled, After, OneAtATime, Path, PullStates;
    ChargedBy(s, t);
    PullPath(s, t);
    Joined(ss, steps, PullStates(s, t), PullSteps);
    ss', steps' := ss + PullStates(s, t)[1..], steps + PullSteps;
  }

  function PullStates(s: State, t: State): (ts: seq<State>)
    ensures |ts| == 6 && ts[0] == s && ts[5] == t
  {
    [s, At(s, false, [], None), At(s, true, [B], None), At(s, true, [B], Some([[I]])), At(t, true, [B], Some([])), t]
  }

  const PullSteps := [Claim(0), Respond(0, [B]), Begin(0, [[I]]), Charge(0, Result.Applied, P), Stop(0)]

  lemma PullPath(s: State, t: State)
    requires s.agent == Sender && s.stored == Cursor(0, 0) && s.pullers == map[]
    requires t.agent == Sender && t.stored == Cursor(0, 0) && t.pullers == map[]
    requires Enabled(At(s, true, [B], Some([[I]])), Charge(0, Result.Applied, P))
    requires After(At(s, true, [B], Some([[I]])), Charge(0, Result.Applied, P)) == At(t, true, [B], Some([]))
    ensures Path(PullStates(s, t), PullSteps)
  {
    hide Enabled, After, Path;
    Pulls(s);
    Pulls(t);
    PathOf5(PullStates(s, t), PullSteps);
  }

  lemma PathOf5(ts: seq<State>, xs: seq<Step>)
    requires |ts| == 6 && |xs| == 5
    requires Enabled(ts[0], xs[0]) && ts[1] == After(ts[0], xs[0])
    requires Enabled(ts[1], xs[1]) && ts[2] == After(ts[1], xs[1])
    requires Enabled(ts[2], xs[2]) && ts[3] == After(ts[2], xs[2])
    requires Enabled(ts[3], xs[3]) && ts[4] == After(ts[3], xs[3])
    requires Enabled(ts[4], xs[4]) && ts[5] == After(ts[4], xs[4])
    ensures Path(ts, xs)
  {
    hide Enabled, After;
    forall i | 0 <= i < |xs| ensures Enabled(ts[i], xs[i]) && ts[i + 1] == After(ts[i], xs[i]) {
      assert i == 0 || i == 1 || i == 2 || i == 3 || i == 4;
    }
  }

  lemma Joined(ss: seq<State>, steps: seq<Step>, ts: seq<State>, xs: seq<Step>)
    requires OneAtATime(ss, steps) && Path(ts, xs) && |ss| > 0 && ss[|ss| - 1] == ts[0]
    requires forall k | 0 <= k < |xs| && xs[k].Claim? :: ts[k].pullers == map[]
    ensures OneAtATime(ss + ts[1..], steps + xs)
  {
    hide Enabled, After;
    var us, ys := ss + ts[1..], steps + xs;
    forall i | 0 <= i < |ys|
      ensures Enabled(us[i], ys[i]) && us[i + 1] == After(us[i], ys[i]) && (ys[i].Claim? ==> us[i].pullers == map[])
    {
      if i >= |steps| {
        var k := i - |steps|;
        assert us[i] == ts[k] && us[i + 1] == ts[k + 1] && ys[i] == xs[k];
      } else {
        assert us[i] == ss[i] && us[i + 1] == ss[i + 1] && ys[i] == steps[i];
      }
    }
  }

  lemma ChargedBy(s: State, t: State)
    requires t == Charged(s, B, [I], Result.Applied, P)
    ensures Enabled(At(s, true, [B], Some([[I]])), Charge(0, Result.Applied, P))
    ensures After(At(s, true, [B], Some([[I]])), Charge(0, Result.Applied, P)) == At(t, true, [B], Some([]))
  {
    hide Marks, Registered, Sum, Plus;
    assert [[I]][1..] == [];
  }

  /** One byte is sent, two are counted - and the query allowed the prune. */
  lemma CountedTwice() returns (ss: seq<State>, steps: seq<Step>)
    ensures OneAtATime(ss, steps)
    ensures exists k :: 0 <= k < |steps| && steps[k] == Prune({K}) && Prunable(ss[k], K)
    ensures var s := ss[|ss| - 1];
            s.agent.produced == {B} && CounterAt(s.counters, P) == Counter(2, 0) && Total(s.seen, P) == Counter(1, 0)
  {
    ss, steps := [State(Agent(1, 0, {}, Cursor(0, 0)), Cursor(0, 0), map[], {}, map[], map[])], [];
    ss, steps := Then(ss, steps, Produce(0, [I]), Idle({}, 0, map[]));
    ss, steps := PulledOnce(ss, steps, {}, 0, map[]);
    var k := |steps|;
    var seen: map<Key, Mark> := map[K := M];
    assert ss[|ss| - 1] == Idle({K}, 1, seen);
    ss, steps := ss + [Idle({}, 1, seen)], steps + [Prune({K})];
    var ss', steps' := PulledOnce(ss, steps, {}, 1, seen);
    assert steps'[k] == Prune({K}) && ss'[k] == ss[k];
    ss, steps := ss', steps';
    OnlyMark();
  }

  lemma OnlyMark()
    ensures var seen: map<Key, Mark> := map[K := M]; Total(seen[K := M], P) == Counter(1, 0)
  {
    hide Plus;
    var seen: map<Key, Mark> := map[K := M];
    assert seen[K := M] == seen;
    SumSplit(seen, seen.Keys, P, K);
    assert seen.Keys - {K} == {};
    PlusZero(Share(M, P));
  }
}
