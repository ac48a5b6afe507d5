/** Exactness and idempotence: materialization leaves one live access per target, and
    repeating a materialization or an Apply plans nothing. */
module CustomerRepeat {
  import opened Types
  import opened Targets
  import opened Customers
  import opened CustomerRules
  import opened CustomerDesired

  /** For an unexpired customer the live accesses are in one-to-one correspondence with the
      targets, each with its target's egress; the live generation is the latest of its target. */
  lemma MaterializeIsExact(c: CustomerId, s: Customer, env: Env)
    requires Sound(s, env.now) && Supplied(s, env) && (s.ent.lifecycle.Active? || s.ent.lifecycle.Blocked?)
    requires env.now < s.ent.expiresAt
    ensures var rows, t := Next(s, Materialize(c, s, env)).rows, TopologyOf(env, s.ent.fleet);
            && (forall k :: IsTarget(t, k) <==> Covered(rows, k))
            && (forall a, b | Live(rows, a) && Live(rows, b) && rows[a].target == rows[b].target :: a == b)
            && (forall a | Live(rows, a) :: InSync(t, rows[a]))
            && (forall a, b | Live(rows, a) && b in rows && rows[b].target == rows[a].target && b != a ::
                  rows[b].generation < rows[a].generation)
  {
    MaterializeSettles(c, s, env);
    MaterializeSound(c, s, env);
    ExactRows(Next(s, Materialize(c, s, env)).rows, TopologyOf(env, s.ent.fleet));
  }

  lemma ExactRows(rows: map<AccessId, Access>, t: Topology)
    requires Shape(rows) && Matches(t, rows) && Complete(t, rows)
    ensures forall k :: IsTarget(t, k) <==> Covered(rows, k)
    ensures forall a, b | Live(rows, a) && Live(rows, b) && rows[a].target == rows[b].target :: a == b
    ensures forall a, b | Live(rows, a) && b in rows && rows[b].target == rows[a].target && b != a ::
              rows[b].generation < rows[a].generation
  {
    forall a, b | Live(rows, a) && Live(rows, b) && rows[a].target == rows[b].target ensures a == b {
      OneLive(rows, a, b);
    }
  }

  // ------------------------------------------------------------ the plan and its no-op

  /** The plan updates a row exactly when the row is not already as prescribed. */
  lemma UpdatesNeeded(s: Customer, env: Env, a: AccessId)
    requires OpenPeriod(s.periods).Some? && a in s.rows
    ensures var t, p := TopologyOf(env, s.ent.fleet), OpenPeriod(s.periods).value;
            a in Realigned(t, s.rows, s.ent, env.now, p, env.live) <==>
              !s.rows[a].retired && !(InSync(t, s.rows[a]) && s.rows[a].desired == Want(s.ent, env.now, p, s.rows[a].node))
  {
  }

  /** With nothing planned the plan is a no-op, and only then. */
  lemma CreatesNeeded(c: CustomerId, s: Customer, env: Env)
    requires Supplied(s, env) && OpenPeriod(s.periods).Some?
    ensures var t, p := TopologyOf(env, s.ent.fleet), OpenPeriod(s.periods).value;
            IsEmpty(Creates(c, t, s.rows, s.ent, env.now, p, env.ids)) <==> Complete(t, s.rows)
  {
    var t, p := TopologyOf(env, s.ent.fleet), OpenPeriod(s.periods).value;
    var creates := Creates(c, t, s.rows, s.ent, env.now, p, env.ids);
    if IsEmpty(creates) {
      forall k | IsTarget(t, k) ensures Covered(s.rows, k) {
        var a :| a in env.ids.targets && env.ids.targets[a] == k;
        assert a !in creates;
      }
    } else {
      var a :| a in creates;
      assert Missing(t, s.rows, env.ids.targets[a]);
    }
  }

  /** Materializing again while the customer stays on the same side of its expiry does nothing. */
  lemma MaterializeAgain(c: CustomerId, s: Customer, env: Env, again: Env)
    requires Sound(s, env.now) && Supplied(s, env)
    requires again.fleets == env.fleets && (again.now < s.ent.expiresAt <==> env.now < s.ent.expiresAt)
    requires !Materialize(c, s, env).Rejected?
    ensures Materialize(c, Next(s, Materialize(c, s, env)), again).Ignored?
  {
    var x := Materialize(c, s, env);
    if x.Committed? {
      MaterializeNext(c, s, env);
      SettledNoOp(c, s, Next(s, x), env, again);
    } else if !s.ent.lifecycle.Deleting? && !s.ent.lifecycle.Deleted? {
      SameNoOp(s, env, again);
    }
  }

  lemma SameNoOp(s: Customer, env: Env, again: Env)
    requires OpenPeriod(s.periods).Some? && MaterializeNoOp(s, env) && again.fleets == env.fleets
    requires again.now < s.ent.expiresAt <==> env.now < s.ent.expiresAt
    ensures MaterializeNoOp(s, again)
  {
  }

  lemma SettledNoOp(c: CustomerId, s: Customer, s': Customer, env: Env, again: Env)
    requires Sound(s, env.now) && Supplied(s, env) && OpenPeriod(s.periods).Some?
    requires var m := PlanMaterialize(c, s, env);
             && s'.ent == s.ent.(version := s'.ent.version)
             && s'.periods == WithOpen(s.periods, WithCounters(OpenPeriod(s.periods).value, m.inits))
             && s'.rows == WrittenAccesses(s.rows, MaterializedWrite(c, s, m, env))
    requires !s.ent.lifecycle.Deleted? && again.fleets == env.fleets
    requires again.now < s.ent.expiresAt <==> env.now < s.ent.expiresAt
    ensures OpenPeriod(s'.periods).Some? && MaterializeNoOp(s', again)
  {
    var t, p := TopologyOf(env, s.ent.fleet), OpenPeriod(s.periods).value;
    var inits := PlanMaterialize(c, s, env).inits;
    assert OpenPeriod(s'.periods) == Some(WithCounters(p, inits));
    forall a | a in s'.rows && !s'.rows[a].retired
      ensures InSync(t, s'.rows[a]) && s'.rows[a].desired == Want(s'.ent, again.now, WithCounters(p, inits), s'.rows[a].node)
    {
      SettledRow(c, s, env, a);
      CountersExhaust(p, inits, s'.rows[a].node);
    }
    if env.now < s.ent.expiresAt { SettledComplete(c, s, env); }
  }

  // ------------------------------------------------------------------ repeated Apply

  /** An Apply repeated under a new number, with the same expiry and quota, on the same side
      of the expiry, is planned as a no-op: only the command number moves. */
  lemma ApplyAgain(c: CustomerId, s: Customer, cmd: Command, env: Env, number: nat, again: Env)
    requires Sound(s, env.now) && Supplied(s, env) && cmd.Apply? && Valid(cmd)
    requires ExecuteApply(c, s, cmd, env).Committed? && number > cmd.number
    requires again.fleets == env.fleets && (again.now < cmd.expiresAt <==> env.now < cmd.expiresAt)
    ensures var s1, second := Next(s, ExecuteApply(c, s, cmd, env)), Command.Apply(number, cmd.fleet, cmd.expiresAt, cmd.quota);
            var x := ExecuteApply(c, s1, second, again);
            && x.Committed? && ApplyNoOp(s1, second, QuotaChange, again)
            && x.ent == s1.ent.(lastCommand := number, fingerprint := Some(second))
  {
    var d := ClassifyApply(env.now, cmd, s.ent);
    var s1, second := Next(s, ExecuteApply(c, s, cmd, env)), Command.Apply(number, cmd.fleet, cmd.expiresAt, cmd.quota);
    PlannedNext(c, s, cmd, d, env);
    ApplyAccounts(c, s, cmd, d, env);
    var periods := AppliedPeriods(s, cmd, d, env);
    var open := periods[|periods| - 1];
    FirstCounters(s, cmd, d, env, again.now);
    PlannedMatches(c, s, cmd, open, env);
    FirstRows(c, s, cmd, open, env);
    RepeatNoOp(s, s1, cmd, second, open, env, again);
    RepeatCommits(c, s1, second, again);
  }

  lemma FirstCounters(s: Customer, cmd: Command, d: Decision, env: Env, later: int)
    requires cmd.Apply? && Valid(cmd) && !d.Refused? && (d.QuotaChange? ==> OpenPeriod(s.periods).Some?)
    ensures var periods := AppliedPeriods(s, cmd, d, env);
            var open := periods[|periods| - 1];
            open.quota == cmd.quota && forall n | n in open.usage :: Recomputed(open.usage[n], cmd.quota, later) == open.usage[n]
  {
  }

  lemma FirstRows(c: CustomerId, s: Customer, cmd: Command, open: Period, env: Env)
    requires cmd.Apply?
    ensures var rows', t := WrittenAccesses(s.rows, PlannedWrite(c, s, cmd, open, env)), TopologyOf(env, cmd.fleet);
            forall a | a in rows' && InSync(t, rows'[a]) :: rows'[a].desired == Want(Granted(s, cmd), env.now, open, rows'[a].node)
  {
    var w, t := PlannedWrite(c, s, cmd, open, env), TopologyOf(env, cmd.fleet);
    var rows' := WrittenAccesses(s.rows, w);
    forall a | a in rows' && InSync(t, rows'[a]) ensures rows'[a].desired == Want(Granted(s, cmd), env.now, open, rows'[a].node) {
      if a in s.rows {
        ChangedRow(s.rows, t, Granted(s, cmd), env.now, open, w, a);
      } else {
        CreatedRow(c, s.rows, t, Granted(s, cmd), env.now, open, env.ids, w, a);
      }
    }
  }

  lemma RepeatNoOp(s: Customer, s1: Customer, cmd: Command, second: Command, open: Period, env: Env, again: Env)
    requires cmd.Apply? && second.Apply? && second.fleet == cmd.fleet && second.expiresAt == cmd.expiresAt && second.quota == cmd.quota
    requires OpenPeriod(s1.periods) == Some(open) && open.quota == cmd.quota
    requires forall n | n in open.usage :: Recomputed(open.usage[n], cmd.quota, again.now) == open.usage[n]
    requires s1.ent.lifecycle == AppliedLifecycle(s.ent) && again.fleets == env.fleets
    requires again.now < cmd.expiresAt <==> env.now < cmd.expiresAt
    requires Complete(TopologyOf(env, cmd.fleet), s1.rows)
    requires forall a | a in s1.rows && InSync(TopologyOf(env, cmd.fleet), s1.rows[a]) ::
               s1.rows[a].desired == Want(Granted(s, cmd), env.now, open, s1.rows[a].node)
    ensures ApplyNoOp(s1, second, QuotaChange, again)
  {
  }

  lemma RepeatCommits(c: CustomerId, s1: Customer, second: Command, again: Env)
    requires second.Apply? && second.number > s1.ent.lastCommand && second.fleet in again.fleets
    requires (s1.ent.lifecycle.Active? || s1.ent.lifecycle.Blocked?) && s1.ent.fleet == second.fleet && s1.ent.expiresAt == second.expiresAt
    requires ApplyNoOp(s1, second, QuotaChange, again)
    ensures var x := ExecuteApply(c, s1, second, again);
            x.Committed? && x.ent == s1.ent.(lastCommand := second.number, fingerprint := Some(second))
  {
  }

  /** A no-op plan creates nothing. */
  lemma NoOpCreatesNothing(c: CustomerId, s: Customer, cmd: Command, env: Env)
    requires cmd.Apply? && ApplyNoOp(s, cmd, QuotaChange, env)
    ensures IsEmpty(Creates(c, TopologyOf(env, cmd.fleet), s.rows, Granted(s, cmd), env.now, OpenPeriod(s.periods).value, env.ids))
  {
  }

  /** A no-op plan changes nothing. */
  lemma NoOpChangesNothing(s: Customer, cmd: Command, env: Env)
    requires cmd.Apply? && ApplyNoOp(s, cmd, QuotaChange, env)
    ensures IsEmpty(Changes(TopologyOf(env, cmd.fleet), s.rows, Granted(s, cmd), env.now, OpenPeriod(s.periods).value))
  {
  }

  /** Where the rule stops: an Apply leaves a live access PRESENT on an exhausted node exactly
      when it was PRESENT and out of sync with the topology, waiting to be materialized. */
  lemma ApplyExhaustion(c: CustomerId, s: Customer, cmd: Command, open: Period, env: Env, a: AccessId)
    requires cmd.Apply? && Supplied(s, env) && a in s.rows && !s.rows[a].retired
    ensures var row := WrittenAccesses(s.rows, PlannedWrite(c, s, cmd, open, env))[a];
            (row.desired.Present? && Exhausted(open, row.node)) <==>
              (s.rows[a].desired.Present? && Exhausted(open, s.rows[a].node) && !InSync(TopologyOf(env, cmd.fleet), s.rows[a]))
  {
    var t, w := TopologyOf(env, cmd.fleet), PlannedWrite(c, s, cmd, open, env);
    ChangedRow(s.rows, t, Granted(s, cmd), env.now, open, w, a);
    ExhaustedWant(Granted(s, cmd), env.now, open, s.rows[a].node);
  }

  lemma ExhaustedWant(ent: Entitlement, now: int, p: Period, n: NodeId)
    ensures Exhausted(p, n) ==> Want(ent, now, p, n).Absent?
  {
  }
}
