/** A customer's command stream: duplicates and reordering change nothing. */
module CommandStream {
  import opened Types
  import opened Customers

  /** One delivery of a command, with what its transaction would read. */
  datatype Delivery = Delivery(command: Command, env: Env)

  ghost function Delivered(c: CustomerId, s: Customer, ds: seq<Delivery>): Customer
    decreases |ds|
  {
    if |ds| == 0 then s
    else Delivered(c, Next(s, Execute(c, s, ds[0].command, ds[0].env)), ds[1..])
  }

  /** The deliveries that were committed, in their order. */
  ghost function AcceptedOf(c: CustomerId, s: Customer, ds: seq<Delivery>): seq<Delivery>
    decreases |ds|
  {
    if |ds| == 0 then []
    else
      var x := Execute(c, s, ds[0].command, ds[0].env);
      var rest := AcceptedOf(c, Next(s, x), ds[1..]);
      if x.Committed? then [ds[0]] + rest else rest
  }

  /** A committed command is new, and becomes the last one. */
  lemma CommittedIsNew(c: CustomerId, s: Customer, cmd: Command, env: Env)
    requires Execute(c, s, cmd, env).Committed?
    ensures cmd.number > s.ent.lastCommand
    ensures Next(s, Execute(c, s, cmd, env)).ent.lastCommand == cmd.number
    ensures Next(s, Execute(c, s, cmd, env)).ent.fingerprint == Some(cmd)
  {
  }

  /** A command numbered at or below the last one changes nothing: it is stale, a replay,
      or refused. */
  lemma LateIsIgnored(c: CustomerId, s: Customer, cmd: Command, env: Env)
    requires cmd.number <= s.ent.lastCommand
    ensures Next(s, Execute(c, s, cmd, env)) == s
    ensures Execute(c, s, cmd, env).Ignored? && !s.ent.lifecycle.Deleted? ==>
              cmd.number < s.ent.lastCommand || s.ent.fingerprint == None || s.ent.fingerprint == Some(cmd)
  {
  }

  ghost predicate Increasing(from: nat, ds: seq<Delivery>) {
    && (|ds| > 0 ==> ds[0].command.number > from)
    && forall i, j | 0 <= i < j < |ds| :: ds[i].command.number < ds[j].command.number
  }

  /** Any stream of deliveries leaves the customer where its committed subsequence alone
      leaves it; the numbers of that subsequence strictly increase, and every command of
      it is committed again when it is delivered alone. */
  lemma {:induction false} StreamIsReplaySafe(c: CustomerId, s: Customer, ds: seq<Delivery>)
    ensures var accepted := AcceptedOf(c, s, ds);
            && Delivered(c, s, ds) == Delivered(c, s, accepted)
            && AcceptedOf(c, s, accepted) == accepted
            && Increasing(s.ent.lastCommand, accepted)
            && Delivered(c, s, ds).ent.lastCommand
               == if |accepted| == 0 then s.ent.lastCommand else accepted[|accepted| - 1].command.number
    decreases |ds|
  {
    if |ds| > 0 {
      var x := Execute(c, s, ds[0].command, ds[0].env);
      StreamIsReplaySafe(c, Next(s, x), ds[1..]);
      if x.Committed? {
        CommittedIsNew(c, s, ds[0].command, ds[0].env);
        var rest := AcceptedOf(c, Next(s, x), ds[1..]);
        assert ([ds[0]] + rest)[1..] == rest;
      }
    }
  }
}
