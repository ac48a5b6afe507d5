/** Comparing a node's observed users with its desired set. */
module Inventory {
  import opened Types

  type Account = nat

  datatype User = User(account: Account, credential: nat, flow: string, egress: Egress)

  datatype Observed = Observed(user: User, managed: bool)

  datatype Observation = Observation(complete: bool, observedAt: Option<int>, users: seq<Observed>)

  datatype Reason = Incomplete | NotObserved | Stale | ClockSkewed | Fine

  datatype Verdict = Verdict(reason: Reason, missing: nat, extra: nat, mismatch: nat) {
    predicate Usable() { reason.Fine? }
    predicate Drifted() { missing + extra + mismatch > 0 }
  }

  predicate SameUser(want: User, got: User) {
    want.credential == got.credential && want.flow == got.flow && want.egress == got.egress
  }

  predicate Distinct(users: seq<User>) {
    forall i, j | 0 <= i < j < |users| :: users[i].account != users[j].account
  }

  /** Whether an observation may be compared at all, and why not. */
  function Judge(o: Observation, now: int, maxAge: nat): Reason {
    if !o.complete then Incomplete
    else if o.observedAt.None? then NotObserved
    else if now - o.observedAt.value > maxAge then Stale
    else if o.observedAt.value - now > maxAge then ClockSkewed
    else Fine
  }

  /** The backend-managed users by account; a repeated account keeps its last entry. */
  function Managed(users: seq<Observed>): map<Account, User> {
    if |users| == 0 then map[]
    else
      var last, rest := users[|users| - 1], Managed(users[..|users| - 1]);
      if last.managed then rest[last.user.account := last.user] else rest
  }

  function Wanted(users: seq<User>): map<Account, User> {
    if |users| == 0 then map[]
    else Wanted(users[..|users| - 1])[users[|users| - 1].account := users[|users| - 1]]
  }

  function Missing(want: map<Account, User>, got: map<Account, User>): set<Account> {
    want.Keys - got.Keys
  }

  function Extra(want: map<Account, User>, got: map<Account, User>): set<Account> {
    got.Keys - want.Keys
  }

  function Mismatched(want: map<Account, User>, got: map<Account, User>): set<Account> {
    set a | a in want && a in got && !SameUser(want[a], got[a])
  }

  lemma {:induction false} WantedKeys(users: seq<User>)
    ensures forall a :: a in Wanted(users) <==> exists i :: 0 <= i < |users| && users[i].account == a
    ensures forall a | a in Wanted(users) :: Wanted(users)[a].account == a
  {
    if |users| > 0 {
      var n := |users| - 1;
      WantedKeys(users[..n]);
      forall a ensures a in Wanted(users) <==> exists i :: 0 <= i < |users| && users[i].account == a {
        if a in Wanted(users[..n]) {
          var i :| 0 <= i < n && users[..n][i].account == a;
          assert users[i].account == a;
        }
        if i :| 0 <= i < |users| && users[i].account == a {
          if i < n { assert users[..n][i].account == a; }
        }
      }
    }
  }

  lemma {:induction false} ManagedAccounts(users: seq<Observed>)
    ensures forall a | a in Managed(users) :: Managed(users)[a].account == a
  {
    if |users| > 0 { ManagedAccounts(users[..|users| - 1]); }
  }

  /** No drift means the two user sets are the same. */
  lemma NoDriftIsEqual(want: map<Account, User>, got: map<Account, User>)
    requires forall a | a in want :: want[a].account == a
    requires forall a | a in got :: got[a].account == a
    ensures |Missing(want, got)| + |Extra(want, got)| + |Mismatched(want, got)| == 0 <==> want == got
  {
    if want == got {
      assert Missing(want, got) == {} && Extra(want, got) == {} && Mismatched(want, got) == {};
    }
    if |Missing(want, got)| + |Extra(want, got)| + |Mismatched(want, got)| == 0 {
      assert Missing(want, got) == {} && Extra(want, got) == {} && Mismatched(want, got) == {};
      forall a ensures a in want <==> a in got {
        assert a !in Missing(want, got) && a !in Extra(want, got);
      }
      forall a | a in want ensures want[a] == got[a] {
        assert a !in Mismatched(want, got);
      }
    }
  }

  /** The index CompareInventory builds from the observed users. */
  method IndexManaged(users: seq<Observed>) returns (actual: map<Account, User>)
    ensures actual == Managed(users)
  {
    actual := map[];
    var n := 0;
    while n < |users|
      invariant 0 <= n <= |users|
      invariant actual == Managed(users[..n])
    {
      assert users[..n + 1][..n] == users[..n];
      if users[n].managed { actual := actual[users[n].user.account := users[n].user]; }
      n := n + 1;
    }
    assert users[..n] == users;
  }

  /** What the counts say once the users of `wanted` were looked up. */
  ghost predicate Tallied(wanted: map<Account, User>, all: map<Account, User>, actual: map<Account, User>, missing: nat, mismatch: nat) {
    && actual == all - wanted.Keys
    && missing == |Missing(wanted, all)|
    && mismatch == |Mismatched(wanted, all)|
  }

  lemma TalliedNext(wanted: map<Account, User>, want: User, all: map<Account, User>, actual: map<Account, User>, missing: nat, mismatch: nat)
    requires want.account !in wanted && Tallied(wanted, all, actual, missing, mismatch)
    ensures Tallied(wanted[want.account := want], all, actual - {want.account},
                    if want.account !in actual then missing + 1 else missing,
                    if want.account in actual && !SameUser(want, actual[want.account]) then mismatch + 1 else mismatch)
  {
    assert want.account in actual <==> want.account in all;
    assert want.account in actual ==> actual[want.account] == all[want.account];
    GrownMissing(wanted, want, all);
    GrownMismatched(wanted, want, all);
    LookedUp(wanted, want, all, actual);
  }

  lemma LookedUp(wanted: map<Account, User>, want: User, all: map<Account, User>, actual: map<Account, User>)
    requires actual == all - wanted.Keys
    ensures actual - {want.account} == all - wanted[want.account := want].Keys
  {
  }

  /** Counts of missing, mismatching and extra users are the cardinalities of the set
      differences, and a usable observation is drifted exactly when the sets differ. */
  method CompareInventory(desired: seq<User>, o: Observation, now: int, maxAge: nat) returns (v: Verdict)
    ensures v.reason == Judge(o, now, maxAge)
    ensures !v.Usable() ==> !v.Drifted()
    ensures v.Usable() && Distinct(desired) ==>
              && v.missing == |Missing(Wanted(desired), Managed(o.users))|
              && v.extra == |Extra(Wanted(desired), Managed(o.users))|
              && v.mismatch == |Mismatched(Wanted(desired), Managed(o.users))|
              && (v.Drifted() <==> Wanted(desired) != Managed(o.users))
  {
    v := Verdict(Judge(o, now, maxAge), 0, 0, 0);
    if !v.Usable() { return; }
    var actual := IndexManaged(o.users);
    var missing, mismatch, left := Tally(desired, actual);
    v := Verdict(Fine, missing, |left|, mismatch);
    if Distinct(desired) { Verdicts(desired, o.users, left, missing, mismatch); }
  }

  /** The lookup loop: counts missing and mismatching users and crosses off the ones looked up. */
  method Tally(desired: seq<User>, all: map<Account, User>) returns (missing: nat, mismatch: nat, actual: map<Account, User>)
    ensures Distinct(desired) ==> Tallied(Wanted(desired), all, actual, missing, mismatch)
  {
    missing, mismatch, actual := 0, 0, all;
    ghost var distinct := Distinct(desired);
    StartTally(all);
    for i := 0 to |desired|
      invariant distinct ==> Tallied(Wanted(desired[..i]), all, actual, missing, mismatch)
    {
      var want := desired[i];
      if distinct { NextTally(desired, i, all, actual, missing, mismatch); }
      var lost := want.account !in actual;
      var differs := !lost && !SameUser(want, actual[want.account]);
      missing := if lost then missing + 1 else missing;
      mismatch := if differs then mismatch + 1 else mismatch;
      var seen: set<Account> := {want.account};
      actual := actual - seen;
    }
    assert desired[..|desired|] == desired;
  }

  lemma StartTally(all: map<Account, User>)
    ensures Tallied(map[], all, all, 0, 0)
  {
    var none: map<Account, User> := map[];
    assert all == all - none.Keys;
    assert Missing(map[], all) == {} && Mismatched(map[], all) == {};
  }

  lemma NextTally(desired: seq<User>, i: nat, all: map<Account, User>, actual: map<Account, User>, missing: nat, mismatch: nat)
    requires Distinct(desired) && i < |desired| && Tallied(Wanted(desired[..i]), all, actual, missing, mismatch)
    ensures var want := desired[i];
            Tallied(Wanted(desired[..i + 1]), all, actual - {want.account},
                    if want.account !in actual then missing + 1 else missing,
                    if want.account in actual && !SameUser(want, actual[want.account]) then mismatch + 1 else mismatch)
  {
    assert desired[..i + 1][..i] == desired[..i];
    NewAccount(desired, i);
    TalliedNext(Wanted(desired[..i]), desired[i], all, actual, missing, mismatch);
  }

  lemma Verdicts(desired: seq<User>, users: seq<Observed>, actual: map<Account, User>, missing: nat, mismatch: nat)
    requires Tallied(Wanted(desired), Managed(users), actual, missing, mismatch)
    ensures |actual| == |Extra(Wanted(desired), Managed(users))|
    ensures missing + |actual| + mismatch > 0 <==> Wanted(desired) != Managed(users)
  {
    WantedKeys(desired);
    ManagedAccounts(users);
    NoDriftIsEqual(Wanted(desired), Managed(users));
    assert actual.Keys == Extra(Wanted(desired), Managed(users));
    assert |actual| == |actual.Keys|;
  }

  lemma NewAccount(desired: seq<User>, i: nat)
    requires Distinct(desired) && i < |desired|
    ensures desired[i].account !in Wanted(desired[..i])
  {
    WantedKeys(desired[..i]);
  }

  lemma OneMore(s: set<Account>, a: Account)
    requires a !in s
    ensures |s + {a}| == |s| + 1
  {
  }

  /** How one more wanted user moves the two difference sets. */
  lemma GrownMissing(before: map<Account, User>, want: User, got: map<Account, User>)
    requires want.account !in before
    ensures |Missing(before[want.account := want], got)| == |Missing(before, got)| + (if want.account in got then 0 else 1)
  {
    MissingSet(before, want, got);
    if want.account !in got {
      OneMore(Missing(before, got), want.account);
    } else {
      assert Missing(before[want.account := want], got) == Missing(before, got);
    }
  }

  lemma MissingSet(before: map<Account, User>, want: User, got: map<Account, User>)
    requires want.account !in before
    ensures Missing(before[want.account := want], got)
         == if want.account in got then Missing(before, got) else Missing(before, got) + {want.account}
  {
  }

  lemma GrownMismatched(before: map<Account, User>, want: User, got: map<Account, User>)
    requires want.account !in before
    ensures |Mismatched(before[want.account := want], got)| == |Mismatched(before, got)|
              + (if want.account in got && !SameUser(want, got[want.account]) then 1 else 0)
  {
    MismatchedSet(before, want, got);
    if want.account in got && !SameUser(want, got[want.account]) { OneMore(Mismatched(before, got), want.account); }
  }

  lemma MismatchedSet(before: map<Account, User>, want: User, got: map<Account, User>)
    requires want.account !in before
    ensures Mismatched(before[want.account := want], got)
         == if want.account in got && !SameUser(want, got[want.account]) then Mismatched(before, got) + {want.account}
            else Mismatched(before, got)
  {
  }
}
