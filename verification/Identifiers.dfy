/** Fresh identifiers always exist, so no customer transaction of the plane is ever blocked. */
module Identifiers {
  import opened Types
  import opened Targets
  import C = Customers
  import D = Delivery
  import F = CustomerFits
  import P = Plane

  lemma {:induction false} Above(used: set<nat>) returns (n: nat)
    ensures forall x | x in used :: x < n
  {
    if used == {} {
      n := 0;
    } else {
      var x :| x in used;
      var m := Above(used - {x});
      n := if m > x then m else x + 1;
      forall y | y in used ensures y < n {
        assert y == x || y in used - {x};
      }
    }
  }

  /** An injective naming of finitely many things by numbers not used before. */
  lemma {:induction false} Named<K>(things: set<K>, used: set<nat>) returns (m: map<nat, K>)
    ensures m.Keys !! used
    ensures forall a, b | a in m && b in m && m[a] == m[b] :: a == b
    ensures forall k :: k in things <==> exists a :: a in m && m[a] == k
    decreases things
  {
    if things == {} {
      m := map[];
    } else {
      var k :| k in things;
      var rest := Named(things - {k}, used);
      var n := Above(used + rest.Keys);
      m := rest[n := k];
      forall x ensures x in things <==> exists a :: a in m && m[a] == x {
        if x == k {
          assert m[n] == k;
        } else if x in things {
          assert x in things - {k};
          var a :| a in rest && rest[a] == x;
          assert a in m && m[a] == x;
        }
        if a :| a in m && m[a] == x {
          if a != n { assert a in rest && rest[a] == x; }
        }
      }
      forall a, b | a in m && b in m && m[a] == m[b] ensures a == b {
        assert a != n ==> rest[a] in things - {k};
        assert b != n ==> rest[b] in things - {k};
      }
    }
  }

  function AllTargets(fleets: map<FleetId, Topology>): set<TargetKey> {
    (set f, n | f in fleets && n in fleets[f].nodes :: Freedom(n))
    + (set f, r | f in fleets && r in fleets[f].bridges :: Bridge(r))
  }

  lemma Listed(fleets: map<FleetId, Topology>, f: FleetId, k: TargetKey)
    requires f in fleets && IsTarget(fleets[f], k)
    ensures k in AllTargets(fleets)
  {
    if k.Freedom? { assert k.node in fleets[f].nodes; } else { assert k.routingKey in fleets[f].bridges; }
  }

  lemma Supplied(w: D.World, s: C.Customer, env: C.Env) returns (ids: C.Ids)
    ensures F.FreshIds(w, s, C.Env(env.now, env.fleets, env.live, env.grace, ids))
  {
    var targets := Named(AllTargets(env.fleets), w.usedAccesses);
    var owners := Named(s.rows.Keys + targets.Keys, w.usedOps);
    ids := C.Ids(targets, owners);
    forall f, k | f in env.fleets && IsTarget(env.fleets[f], k) ensures exists a :: a in targets && targets[a] == k {
      Listed(env.fleets, f, k);
    }
    forall a | a in s.rows.Keys + targets.Keys ensures F.Owned(ids, a) {
      var o :| o in owners && owners[o] == a;
    }
  }

  /** Whatever was used so far, a transaction of any customer finds the identifiers it needs. */
  lemma AlwaysSupplied(p: P.Plane, c: CustomerId, grace: nat) returns (ids: C.Ids)
    ensures F.FreshIds(p.world, P.CustomerOf(p, c), P.EnvOf(p, grace, ids))
  {
    ids := Supplied(p.world, P.CustomerOf(p, c), P.EnvOf(p, grace, C.Ids(map[], map[])));
  }
}
