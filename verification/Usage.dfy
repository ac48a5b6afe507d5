/** Usage accounting of one node: the agent's spool, the pullers and the tables they write.

    A puller crashes by vanishing between two steps; each step is one transaction or one call.
    The model remembers in `seen` every item ever registered with its bytes; the source
    forgets the pruned ones. */
module Usage {
  import opened Types

  type Account = nat

  /** The quota period of a customer, by its place in the customer's history. */
  datatype PeriodId = PeriodId(customer: CustomerId, index: nat)

  /** node_usage_cursors: spool 0 is the empty spool id of a node never pulled before. */
  datatype Cursor = Cursor(spool: nat, sequence: nat)

  datatype Item = Item(account: Account, up: nat, down: nat)

  datatype Batch = Batch(spool: nat, sequence: nat, collected: int, items: seq<Item>)

  /** Primary key of traffic_usage_items_processed (without the node). */
  datatype Key = Key(spool: nat, sequence: nat, account: Account)

  datatype Result = Applied | IgnoredClosedPeriod | Quarantined

  datatype Mark = Mark(result: Result, period: PeriodId, up: nat, down: nat)

  datatype Counter = Counter(up: nat, down: nat)

  /** The agent: spool ids are never reused, sequences grow within a spool, and every batch
      at or below the acknowledged cursor of the current spool is deleted. */
  datatype Agent = Agent(spool: nat, last: nat, produced: set<Batch>, acked: Cursor)

  /** A puller between claiming the node and its end: its cursor, whether the agent has
      answered, the batches still to consume, and the chunks of the head batch not registered
      yet (None before it starts). */
  datatype Puller = Puller(local: Cursor, answered: bool, batches: seq<Batch>, pending: Option<seq<seq<Item>>>)

  datatype State = State(
    agent: Agent, stored: Cursor, pullers: map<nat, Puller>,
    registry: set<Key>, counters: map<PeriodId, Counter>, seen: map<Key, Mark>)

  // ------------------------------------------------------------------ one chunk

  function KeyOf(b: Batch, i: Item): Key { Key(b.spool, b.sequence, i.account) }

  function Accounts(items: seq<Item>): set<Account> { set i | 0 <= i < |items| :: items[i].account }

  predicate Distinct(items: seq<Item>) {
    forall i, j | 0 <= i < j < |items| :: items[i].account != items[j].account
  }

  /** The ids INSERT .. ON CONFLICT DO NOTHING RETURNING gives back. */
  function Inserted(registry: set<Key>, b: Batch, items: seq<Item>): set<Account> {
    set a | a in Accounts(items) && Key(b.spool, b.sequence, a) !in registry
  }

  function Kept(items: seq<Item>, ids: set<Account>): seq<Item> {
    if |items| == 0 then []
    else (if items[0].account in ids then [items[0]] else []) + Kept(items[1..], ids)
  }

  /** RegisterProcessed: the items to accrue. */
  function Registered(registry: set<Key>, b: Batch, items: seq<Item>): seq<Item> {
    var ids := Inserted(registry, b, items);
    if |ids| == |items| then items else Kept(items, ids)
  }

  function Sum(items: seq<Item>): Counter {
    if |items| == 0 then Counter(0, 0)
    else Counter(items[0].up + Sum(items[1..]).up, items[0].down + Sum(items[1..]).down)
  }

  function Plus(c: Counter, d: Counter): Counter { Counter(c.up + d.up, c.down + d.down) }

  function CounterAt(counters: map<PeriodId, Counter>, p: PeriodId): Counter {
    if p in counters then counters[p] else Counter(0, 0)
  }

  /** The rows a chunk adds to the history: its items not in the registry. */
  function Marks(seen: map<Key, Mark>, registry: set<Key>, b: Batch, items: seq<Item>, r: Result, p: PeriodId): map<Key, Mark>
    decreases |items|
  {
    if |items| == 0 then seen
    else
      var k := KeyOf(b, items[0]);
      Marks(if k in registry then seen else seen[k := Mark(r, p, items[0].up, items[0].down)], registry, b, items[1..], r, p)
  }

  function Rows(b: Batch, items: seq<Item>): set<Key> {
    set i | i in items :: KeyOf(b, i)
  }

  /** One group transaction, or the quarantine of items no owner or period was found for:
      AddNodeQuotaUsage runs only for an open period. */
  function Charged(s: State, b: Batch, items: seq<Item>, r: Result, p: PeriodId): State {
    s.(registry := s.registry + Rows(b, items),
       seen := Marks(s.seen, s.registry, b, items, r, p),
       counters := if r.Applied?
                   then s.counters[p := Plus(CounterAt(s.counters, p), Sum(Registered(s.registry, b, items)))]
                   else s.counters)
  }

  // -------------------------------------------------------------------- the machine

  predicate Covers(c: Cursor, b: Batch) { b.spool == c.spool && b.sequence <= c.sequence }

  /** A response lists unacknowledged batches of the current spool in ascending order, from the
      oldest on; it may be cut off anywhere. */
  predicate Response(a: Agent, acked: Cursor, batches: seq<Batch>) {
    && (forall i, j | 0 <= i < j < |batches| :: batches[i].sequence < batches[j].sequence)
    && (forall b | b in batches :: b in a.produced && b.spool == a.spool && !Covers(acked, b))
    && (|batches| > 0 ==>
          forall b | b in a.produced && b.spool == a.spool && !Covers(acked, b)
            && b.sequence <= batches[|batches| - 1].sequence :: b in batches)
  }

  /** What the agent has acknowledged once it received a cursor. */
  function Acknowledged(a: Agent, c: Cursor): Cursor {
    if c.spool == a.spool && (a.acked.spool != a.spool || a.acked.sequence < c.sequence) then c else a.acked
  }

  /** resolve and GroupUsageItems: every item goes to exactly one chunk. */
  predicate Chunks(items: seq<Item>, chunks: seq<seq<Item>>) {
    && (forall i | i in items :: exists c | 0 <= c < |chunks| :: i in chunks[c])
    && (forall c | 0 <= c < |chunks| :: Distinct(chunks[c]) && forall i | i in chunks[c] :: i in items)
  }

  datatype Step =
    | Produce(collected: int, items: seq<Item>)
    | NewSpool(spool: nat)
    | Claim(puller: nat)
    | Respond(puller: nat, batches: seq<Batch>)
    | Skip(puller: nat)
    | Begin(puller: nat, chunks: seq<seq<Item>>)
    | Charge(puller: nat, result: Result, period: PeriodId)
    | Advance(puller: nat)
    | Stop(puller: nat)
    | Prune(picked: set<Key>)

  predicate Working(s: State, n: nat) { n in s.pullers && |s.pullers[n].batches| > 0 }

  predicate Enabled(s: State, x: Step) {
    match x
    case Produce(_, items) => Distinct(items)
    case NewSpool(spool) => spool > s.agent.spool
    case Claim(n) => n !in s.pullers
    case Respond(n, batches) =>
      n in s.pullers && !s.pullers[n].answered && Response(s.agent, Acknowledged(s.agent, s.pullers[n].local), batches)
    case Skip(n) => Working(s, n) && s.pullers[n].pending.None? && Covers(s.pullers[n].local, s.pullers[n].batches[0])
    case Begin(n, chunks) =>
      && Working(s, n) && s.pullers[n].pending.None? && !Covers(s.pullers[n].local, s.pullers[n].batches[0])
      && Chunks(s.pullers[n].batches[0].items, chunks)
    case Charge(n, _, _) => Working(s, n) && s.pullers[n].pending.Some? && |s.pullers[n].pending.value| > 0
    case Advance(n) => Working(s, n) && s.pullers[n].pending == Some([])
    case Stop(n) => true
    case Prune(picked) => forall k | k in picked :: k in s.registry && Prunable(s, k)
  }

  /** The condition of PruneProcessedUsageItems besides the age of the row. */
  predicate Prunable(s: State, k: Key) {
    k.spool != s.stored.spool || k.sequence <= s.stored.sequence
  }

  function WithPuller(s: State, n: nat, q: Puller): State {
    s.(pullers := s.pullers[n := q])
  }

  function CursorOf(b: Batch): Cursor { Cursor(b.spool, b.sequence) }

  function After(s: State, x: Step): State
    requires Enabled(s, x)
  {
    match x
    case Produce(at, items) =>
      s.(agent := s.agent.(last := s.agent.last + 1,
                           produced := s.agent.produced + {Batch(s.agent.spool, s.agent.last + 1, at, items)}))
    case NewSpool(spool) => s.(agent := s.agent.(spool := spool, last := 0))
    case Claim(n) => s.(pullers := s.pullers[n := Puller(s.stored, false, [], None)])
    case Respond(n, batches) =>
      s.(agent := s.agent.(acked := Acknowledged(s.agent, s.pullers[n].local)),
         pullers := s.pullers[n := s.pullers[n].(answered := true, batches := batches)])
    case Skip(n) =>
      var q := s.pullers[n];
      s.(pullers := s.pullers[n := q.(batches := q.batches[1..])])
    case Begin(n, chunks) => s.(pullers := s.pullers[n := s.pullers[n].(pending := Some(chunks))])
    case Charge(n, r, p) =>
      var q := s.pullers[n];
      WithPuller(Charged(s, q.batches[0], q.pending.value[0], r, p), n, q.(pending := Some(q.pending.value[1..])))
    case Advance(n) =>
      var q := s.pullers[n];
      s.(stored := CursorOf(q.batches[0]),
         pullers := s.pullers[n := Puller(CursorOf(q.batches[0]), true, q.batches[1..], None)])
    case Stop(n) => s.(pullers := s.pullers - {n})
    case Prune(picked) => s.(registry := s.registry - picked)
  }

  predicate Initial(s: State) {
    && s.agent.spool > 0 && s.agent.last == 0 && s.agent.produced == {} && s.agent.acked == Cursor(0, 0)
    && s.stored == Cursor(0, 0) && s.pullers == map[] && s.registry == {} && s.counters == map[]
    && s.seen == map[]
  }

  predicate Path(ss: seq<State>, steps: seq<Step>) {
    && |ss| == |steps| + 1
    && forall i | 0 <= i < |steps| :: Enabled(ss[i], steps[i]) && ss[i + 1] == After(ss[i], steps[i])
  }

  predicate Run(ss: seq<State>, steps: seq<Step>) {
    Path(ss, steps) && Initial(ss[0])
  }
}
