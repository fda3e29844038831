/**
 The SQLite store (integration-kits/go/stores.go): rows, a usage table and a cache of
 funding records.  It must give the answers the in-memory store gives.  It does after an
 operation exactly when the operation satisfies Aligned, which is what registered
 channels, non-empty signatures and numbers below 2^63 amount to.

 INTEGER columns hold signed 64-bit integers.  The Go driver refuses an argument of 2^63 or
 more, and the store ignores that error, so the statement has no effect.  A sum that
 reaches 2^63 becomes a floating point number, which no longer reads as a count.
 */
module SqliteStores {
  import opened Arith
  import opened Wrappers
  import opened Channel
  import opened Pricing
  import opened Stores

  datatype RowState = Open | Closing | Closed

  /** A row of spilman_channels; closing and closed data are nullable columns. */
  datatype Row = Row(funding: Funding, balance: Small, signature: string, state: RowState,
                     closing: Option<ClosingData>, closed: Option<ClosedData>)

  /** A count: an integer, or what became of a sum that outgrew one. */
  datatype Cell = Whole(n: Small) | Float

  type Cells = map<string, Cell>

  /** The two tables; the rows of spilman_usage are grouped by the first part of their key. */
  datatype Db = Db(rows: map<string, Row>, usage: map<string, Cells>)

  const EMPTY_DB := Db(map[], map[])

  // ------------------------------------------------------------------------
  // Queries
  // ------------------------------------------------------------------------

  function QueryFunding(d: Db, id: string): Option<Funding> {
    if id in d.rows then Some(d.rows[id].funding) else None
  }

  function QueryBalance(d: Db, id: string): Option<Payment> {
    if id in d.rows && d.rows[id].signature != "" then Some(Payment(d.rows[id].balance, d.rows[id].signature)) else None
  }

  /** Scanning a floating point number into a count fails and leaves zero; the error is not looked at. */
  function Scan(c: Cell): Word {
    if c.Whole? then c.n else 0
  }

  function ScanAll(cells: Cells): Usage {
    map v | v in cells :: Scan(cells[v])
  }

  function CellsOf(d: Db, id: string): Cells {
    if id in d.usage then d.usage[id] else map[]
  }

  function QueryUsage(d: Db, id: string): Usage {
    ScanAll(CellsOf(d, id))
  }

  predicate QueryIsClosing(d: Db, id: string) {
    id in d.rows && d.rows[id].state == Closing
  }

  function QueryClosing(d: Db, id: string): Option<ClosingData> {
    if QueryIsClosing(d, id) then d.rows[id].closing else None
  }

  predicate QueryIsClosed(d: Db, id: string) {
    id in d.rows && d.rows[id].state == Closed
  }

  function QueryClosed(d: Db, id: string): Option<ClosedData> {
    if QueryIsClosed(d, id) then d.rows[id].closed else None
  }

  // ------------------------------------------------------------------------
  // Updates
  // ------------------------------------------------------------------------

  function NewRow(data: Funding): Row {
    Row(data, 0, "", Open, None, None)
  }

  /** Integer addition in SQL. */
  function Plus(c: Cell, n: Small): Cell {
    if c.Whole? && c.n + n < I64 then Whole(c.n + n) else Float
  }

  /** The increments that the driver accepts as arguments. */
  function Bindable(incs: Usage): set<string> {
    set v | v in incs && incs[v] < I64
  }

  /** One upsert: insert the count, or add it to the row already there. */
  function Upsert(cells: Cells, v: string, n: Small): Cell {
    if v in cells then Plus(cells[v], n) else Whole(n)
  }

  /** One count after the upserts. */
  function Upserted(cells: Cells, incs: Usage, v: string): Cell
    requires v in cells.Keys + Bindable(incs)
  {
    if v in incs && incs[v] < I64 then Upsert(cells, v, incs[v]) else cells[v]
  }

  function AddCounts(cells: Cells, incs: Usage): Cells {
    map v | v in cells.Keys + Bindable(incs) :: Upserted(cells, incs, v)
  }

  /** The SQL statement behind an operation. */
  function Execute(d: Db, op: Op): Db {
    match op
    case InsertFunding(id, data) =>
      if id in d.rows then d else d.(rows := d.rows[id := NewRow(data)])
    case UpdateBalance(id, p) =>
      if p.balance < I64 && id in d.rows && (d.rows[id].balance < p.balance || d.rows[id].signature == "")
      then d.(rows := d.rows[id := d.rows[id].(balance := p.balance, signature := p.signature)])
      else d
    case IncrementUsage(id, incs) =>
      d.(usage := d.usage[id := AddCounts(CellsOf(d, id), incs)])
    case MarkClosing(id, data) =>
      if id in d.rows && d.rows[id].state != Closed
      then d.(rows := d.rows[id := d.rows[id].(state := Closing, closing := Some(data))])
      else d
    case MarkClosed(id, data) =>
      if id in d.rows && d.rows[id].state != Closed
      then d.(rows := d.rows[id := d.rows[id].(state := Closed, closed := Some(data), closing := None)])
      else d
  }

  // ------------------------------------------------------------------------
  // The store as an object, with its funding cache
  // ------------------------------------------------------------------------

  class SqliteStore {
    var db: Db
    var cache: map<string, Funding>

    /** Every cached record is the record in the database. */
    ghost predicate Coherent()
      reads this
    {
      forall id | id in cache :: id in db.rows && cache[id] == db.rows[id].funding
    }

    constructor ()
      ensures db == EMPTY_DB && Coherent()
    {
      db, cache := EMPTY_DB, map[];
    }

    method GetFunding(id: string) returns (r: Option<Funding>)
      requires Coherent()
      modifies this`cache
      ensures Coherent() && r == QueryFunding(db, id)
    {
      if id in cache {
        return Some(cache[id]);
      }
      if id !in db.rows {
        return None;
      }
      cache := cache[id := db.rows[id].funding];
      r := Some(db.rows[id].funding);
    }

    method InsertFunding(id: string, data: Funding)
      requires Coherent()
      modifies this
      ensures Coherent() && db == Execute(old(db), Op.InsertFunding(id, data))
    {
      var inserted := id !in db.rows;
      db := Execute(db, Op.InsertFunding(id, data));
      if inserted {
        cache := cache[id := data];
      } else {
        cache := cache - {id};
      }
    }

    /** Lists every row and fills the cache on the way. */
    method AllFunding() returns (r: map<string, Funding>)
      requires Coherent()
      modifies this`cache
      ensures Coherent() && r == map id | id in db.rows :: db.rows[id].funding
    {
      r := map[];
      var todo := db.rows.Keys;
      while todo != {}
        invariant todo <= db.rows.Keys
        invariant r == map id | id in db.rows && id !in todo :: db.rows[id].funding
        invariant Coherent()
        decreases |todo|
      {
        var id :| id in todo;
        var f := db.rows[id].funding;
        r := r[id := f];
        cache := cache[id := f];
        todo := todo - {id};
      }
    }

    /** One upsert per variable, in one transaction. */
    method IncrementUsage(id: string, incs: Usage)
      requires Coherent()
      modifies this`db
      ensures Coherent() && db == Execute(old(db), Op.IncrementUsage(id, incs))
    {
      var cells := UpsertAll(CellsOf(db, id), incs);
      db := db.(usage := db.usage[id := cells]);
    }

    method MarkClosed(id: string, data: ClosedData)
      requires Coherent()
      modifies this
      ensures Coherent() && db == Execute(old(db), Op.MarkClosed(id, data))
    {
      db := Execute(db, Op.MarkClosed(id, data));
      cache := cache - {id};
    }
  }

  /** The rows while some increments are still to be upserted. */
  ghost predicate PartlyStored(r: Cells, cells: Cells, incs: Usage, todo: set<string>) {
    && todo <= incs.Keys
    && r.Keys == cells.Keys + (Bindable(incs) - todo)
    && forall v | v in r :: r[v] == if v in todo then cells[v] else Upserted(cells, incs, v)
  }

  /** One turn of the upserting loop; the driver's refusal skips the statement. */
  lemma StoreOne(r: Cells, cells: Cells, incs: Usage, todo: set<string>, v: string)
    requires PartlyStored(r, cells, incs, todo) && v in todo
    ensures PartlyStored(if incs[v] < I64 then r[v := Upsert(r, v, incs[v])] else r, cells, incs, todo - {v})
  {
  }

  lemma AllStored(r: Cells, cells: Cells, incs: Usage)
    requires PartlyStored(r, cells, incs, {})
    ensures r == AddCounts(cells, incs)
  {
  }

  lemma NoneStored(cells: Cells, incs: Usage)
    ensures PartlyStored(cells, cells, incs, incs.Keys)
  {
  }

  method UpsertAll(cells: Cells, incs: Usage) returns (r: Cells)
    ensures r == AddCounts(cells, incs)
  {
    hide PartlyStored;
    r := cells;
    var todo := incs.Keys;
    NoneStored(cells, incs);
    while todo != {}
      invariant PartlyStored(r, cells, incs, todo) && todo <= incs.Keys
      decreases |todo|
    {
      var v :| v in todo;
      StoreOne(r, cells, incs, todo, v);
      if incs[v] < I64 {
        r := r[v := Upsert(r, v, incs[v])];
      }
      todo := todo - {v};
    }
    AllStored(r, cells, incs);
  }

  // ------------------------------------------------------------------------
  // Same answers
  // ------------------------------------------------------------------------

  ghost predicate SameAnswersAbout(b: Books, d: Db, id: string) {
    && Get(b.funding, id) == QueryFunding(d, id)
    && Get(b.balance, id) == QueryBalance(d, id)
    && GetUsage(b, id) == QueryUsage(d, id)
    && (id in b.closing <==> QueryIsClosing(d, id))
    && Get(b.closing, id) == QueryClosing(d, id)
    && (id in b.closed <==> QueryIsClosed(d, id))
    && Get(b.closed, id) == QueryClosed(d, id)
  }

  /** Both stores answer every query about every channel alike. */
  ghost predicate SameAnswers(b: Books, d: Db) {
    forall id: string :: SameAnswersAbout(b, d, id)
  }

  /** No count has outgrown its column. */
  ghost predicate Readable(d: Db) {
    forall id, v | id in d.usage && v in d.usage[id] :: d.usage[id][v].Whole?
  }

  /** When an operation on stores that agree leaves them agreeing. */
  predicate Aligned(b: Books, op: Op) {
    match op
    case InsertFunding(id, data) => true
    case UpdateBalance(id, p) =>
      && id in b.funding
      && p.balance < I64
      && (p.signature != "" || (id in b.balance && p.balance <= b.balance[id].balance))
    case IncrementUsage(id, incs) =>
      forall v | v in incs :: At(GetUsage(b, id), v) + incs[v] < I64
    case MarkClosing(id, data) => id in b.funding
    case MarkClosed(id, data) => id in b.funding
  }

  lemma ApplyOthers(b: Books, op: Op, id: string)
    requires id != op.id
    ensures var b' := Apply(b, op);
            && Get(b'.funding, id) == Get(b.funding, id)
            && Get(b'.balance, id) == Get(b.balance, id)
            && Get(b'.usage, id) == Get(b.usage, id)
            && Get(b'.closing, id) == Get(b.closing, id)
            && Get(b'.closed, id) == Get(b.closed, id)
  {
  }

  lemma ExecuteOthers(d: Db, op: Op, id: string)
    requires id != op.id
    ensures var d' := Execute(d, op);
            Get(d'.rows, id) == Get(d.rows, id) && Get(d'.usage, id) == Get(d.usage, id)
  {
  }

  /** An operation on one channel leaves the answers about every other channel alone. */
  lemma OthersUntouched(b: Books, d: Db, b': Books, d': Db, op: Op, id: string)
    requires id != op.id && b' == Apply(b, op) && d' == Execute(d, op)
    ensures SameAnswersAbout(b, d, id) ==> SameAnswersAbout(b', d', id)
  {
    ApplyOthers(b, op, id);
    ExecuteOthers(d, op, id);
    SameLookups(b, d, b', d', id);
  }

  lemma SameLookups(b: Books, d: Db, b': Books, d': Db, id: string)
    requires Get(b'.funding, id) == Get(b.funding, id)
    requires Get(b'.balance, id) == Get(b.balance, id)
    requires Get(b'.usage, id) == Get(b.usage, id)
    requires Get(b'.closing, id) == Get(b.closing, id)
    requires Get(b'.closed, id) == Get(b.closed, id)
    requires Get(d'.rows, id) == Get(d.rows, id) && Get(d'.usage, id) == Get(d.usage, id)
    ensures SameAnswersAbout(b, d, id) <==> SameAnswersAbout(b', d', id)
  {
  }

  /** A count that would reach 2^63 is read differently, or not at all. */
  lemma LargeCountIsMisread(cells: Cells, incs: Usage, v: string)
    requires v in incs && (v in cells ==> cells[v].Whole?) && At(ScanAll(cells), v) + incs[v] >= I64
    ensures v !in AddCounts(cells, incs) || Scan(AddCounts(cells, incs)[v]) != Bumped(ScanAll(cells), incs, v)
  {
    var n := At(ScanAll(cells), v) + incs[v];
    if n >= U64 {
      WrapsOnce(n);
    }
  }

  lemma SmallCountsAreRead(cells: Cells, incs: Usage)
    requires forall v | v in cells :: cells[v].Whole?
    requires forall v | v in incs :: At(ScanAll(cells), v) + incs[v] < I64
    ensures Increment(ScanAll(cells), incs) == ScanAll(AddCounts(cells, incs))
  {
    assert incs.Keys == Bindable(incs);
  }

  /** Readable counts stay alike exactly when none of them reaches 2^63. */
  lemma UsageAligned(cells: Cells, incs: Usage)
    requires forall v | v in cells :: cells[v].Whole?
    ensures Increment(ScanAll(cells), incs) == ScanAll(AddCounts(cells, incs))
       <==> forall v | v in incs :: At(ScanAll(cells), v) + incs[v] < I64
  {
    if v :| v in incs && At(ScanAll(cells), v) + incs[v] >= I64 {
      LargeCountIsMisread(cells, incs, v);
      assert v in Increment(ScanAll(cells), incs).Keys;
    } else {
      SmallCountsAreRead(cells, incs);
    }
  }

  lemma BalanceAlike(b: Books, d: Db, id: string, p: Payment)
    requires Get(b.funding, id) == QueryFunding(d, id) && Get(b.balance, id) == QueryBalance(d, id)
    ensures var op := Op.UpdateBalance(id, p);
            Get(Apply(b, op).balance, id) == QueryBalance(Execute(d, op), id) <==> Aligned(b, op)
  {
  }

  lemma BalanceOnly(b: Books, d: Db, id: string, p: Payment)
    requires SameAnswersAbout(b, d, id)
    ensures var op := Op.UpdateBalance(id, p);
            SameAnswersAbout(Apply(b, op), Execute(d, op), id) <==>
              Get(Apply(b, op).balance, id) == QueryBalance(Execute(d, op), id)
  {
    hide ScanAll;
  }

  lemma OwnBalance(b: Books, d: Db, id: string, p: Payment)
    requires SameAnswersAbout(b, d, id)
    ensures var op := Op.UpdateBalance(id, p);
            SameAnswersAbout(Apply(b, op), Execute(d, op), id) <==> Aligned(b, op)
  {
    hide Aligned, Apply, Execute;
    BalanceAlike(b, d, id, p);
    BalanceOnly(b, d, id, p);
  }

  lemma OwnUsage(b: Books, d: Db, id: string, incs: Usage)
    requires SameAnswersAbout(b, d, id) && Readable(d)
    ensures var op := Op.IncrementUsage(id, incs);
            SameAnswersAbout(Apply(b, op), Execute(d, op), id) <==> Aligned(b, op)
  {
    UsageAligned(CellsOf(d, id), incs);
  }

  /** Aligned operations keep every count readable. */
  lemma StaysReadable(b: Books, d: Db, op: Op)
    requires SameAnswersAbout(b, d, op.id) && Readable(d) && Aligned(b, op)
    ensures Readable(Execute(d, op))
  {
  }

  lemma OwnLifecycle(b: Books, d: Db, op: Op)
    requires op.InsertFunding? || op.MarkClosing? || op.MarkClosed?
    requires SameAnswersAbout(b, d, op.id)
    ensures SameAnswersAbout(Apply(b, op), Execute(d, op), op.id) <==> Aligned(b, op)
  {
  }

  /** The exact condition: after an operation the stores still agree if and only if it is aligned. */
  lemma AgreeIff(b: Books, d: Db, op: Op)
    requires SameAnswers(b, d) && Readable(d)
    ensures SameAnswers(Apply(b, op), Execute(d, op)) <==> Aligned(b, op)
    ensures Aligned(b, op) ==> Readable(Execute(d, op))
  {
    var b', d' := Apply(b, op), Execute(d, op);
    forall id: string | id != op.id ensures SameAnswersAbout(b', d', id) {
      OthersUntouched(b, d, b', d', op, id);
    }
    assert SameAnswersAbout(b', d', op.id) <==> Aligned(b, op) by {
      match op {
        case UpdateBalance(id, p) => OwnBalance(b, d, id, p);
        case IncrementUsage(id, incs) => OwnUsage(b, d, id, incs);
        case _ => OwnLifecycle(b, d, op);
      }
    }
    if Aligned(b, op) {
      StaysReadable(b, d, op);
    }
  }

  /** Every operation of a run is aligned where it is applied. */
  predicate AlignedRun(b: Books, ops: seq<Op>)
    decreases |ops|
  {
    ops == [] || (Aligned(b, ops[0]) && AlignedRun(Apply(b, ops[0]), ops[1..]))
  }

  function ExecuteAll(d: Db, ops: seq<Op>): Db
    decreases |ops|
  {
    if ops == [] then d else ExecuteAll(Execute(d, ops[0]), ops[1..])
  }

  /** Over a whole run of aligned operations the two stores are indistinguishable. */
  lemma {:induction false} RunsAgree(b: Books, d: Db, ops: seq<Op>)
    requires SameAnswers(b, d) && Readable(d) && AlignedRun(b, ops)
    ensures SameAnswers(ApplyAll(b, ops), ExecuteAll(d, ops))
    decreases |ops|
  {
    if ops != [] {
      AgreeIff(b, d, ops[0]);
      RunsAgree(Apply(b, ops[0]), Execute(d, ops[0]), ops[1..]);
    }
  }

  lemma EmptyAgree()
    ensures SameAnswers(EMPTY, EMPTY_DB) && Readable(EMPTY_DB)
  {
  }

  /** A balance recorded for a channel that was never registered is kept by one store and dropped by the other. */
  lemma UnregisteredBalanceDiffers(id: string, p: Payment)
    requires p.signature != ""
    ensures var op := Op.UpdateBalance(id, p);
            Get(Apply(EMPTY, op).balance, id) == Some(p) && QueryBalance(Execute(EMPTY_DB, op), id) == None
  {
  }
  lemma HalvesAdd(v: string)
    ensures var half: Usage := map[v := I64 / 2];
            && Increment(Increment(map[], half), half) == map[v := I64]
            && AddCounts(AddCounts(map[], half), half) == map[v := Float]
  {
    var half: Usage := map[v := I64 / 2];
    assert Increment(map[], half) == half;
    assert AddCounts(map[], half) == map[v := Whole(I64 / 2)];
  }

  /** A count that reaches 2^63 in two steps reads as zero from SQLite. */
  lemma LargeCountDiffers(id: string, v: string)
    ensures var op := Op.IncrementUsage(id, map[v := I64 / 2]);
            && GetUsage(Apply(Apply(EMPTY, op), op), id) == map[v := I64]
            && QueryUsage(Execute(Execute(EMPTY_DB, op), op), id) == map[v := 0]
  {
    HalvesAdd(v);
    hide Increment, AddCounts;
  }

  /** A single count, or a balance, of 2^63 never reaches the database. */
  lemma LargeArgumentIsDropped(d: Db, id: string, v: string, signature: string)
    ensures QueryUsage(Execute(d, Op.IncrementUsage(id, map[v := I64])), id) == QueryUsage(d, id)
    ensures Execute(d, Op.UpdateBalance(id, Payment(I64, signature))) == d
  {
    assert AddCounts(CellsOf(d, id), map[v := I64]) == CellsOf(d, id);
  }
}
