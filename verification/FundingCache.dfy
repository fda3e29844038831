/**
 The funding cache of the SQLite store under concurrent use (integration-kits/go/stores.go).

 A call that writes the database and then the cache takes the lock only for the cache, so
 other calls come in between.  Each step below is one database statement or one critical
 section; a call in flight is remembered by the thread running it.
 */
module FundingCache {
  import opened Wrappers
  import opened Channel

  /** What a thread has read or written and not yet carried over to the cache. */
  datatype Pending =
    | Inserted(id: string, data: Funding, rowAdded: bool)
    | Listed(rows: map<string, Funding>)
    | Closing(id: string)

  datatype State = State(rows: map<string, Funding>, cache: map<string, Funding>, pending: map<nat, Pending>)

  const START := State(map[], map[], map[])

  datatype Step =
    | InsertRow(t: nat, id: string, data: Funding)  // INSERT .. ON CONFLICT DO NOTHING
    | InsertCache(t: nat)                           // cache the record, or evict on a conflict
    | Lookup(id: string)                            // GetFunding under the lock
    | ListRows(t: nat)                              // AllFunding's SELECT
    | ListCache(t: nat)                             // AllFunding filling the cache
    | CloseRow(t: nat, id: string)                  // MarkClosed's UPDATE
    | CloseCache(t: nat)                            // MarkClosed's eviction

  /** What GetFunding returns in a state. */
  function Answer(s: State, id: string): Option<Funding> {
    if id in s.cache then Some(s.cache[id]) else Get(s.rows, id)
  }

  function Next(s: State, step: Step): State {
    match step
    case InsertRow(t, id, data) =>
      s.(rows := if id in s.rows then s.rows else s.rows[id := data],
         pending := s.pending[t := Inserted(id, data, id !in s.rows)])
    case InsertCache(t) =>
      if t in s.pending && s.pending[t].Inserted? then
        var p := s.pending[t];
        s.(cache := if p.rowAdded then s.cache[p.id := p.data] else s.cache - {p.id}, pending := s.pending - {t})
      else s
    case Lookup(id) =>
      if id !in s.cache && id in s.rows then s.(cache := s.cache[id := s.rows[id]]) else s
    case ListRows(t) =>
      s.(pending := s.pending[t := Listed(s.rows)])
    case ListCache(t) =>
      if t in s.pending && s.pending[t].Listed? then
        s.(cache := s.cache + s.pending[t].rows, pending := s.pending - {t})
      else s
    case CloseRow(t, id) =>
      s.(pending := s.pending[t := Closing(id)])
    case CloseCache(t) =>
      if t in s.pending && s.pending[t].Closing? then
        s.(cache := s.cache - {s.pending[t].id}, pending := s.pending - {t})
      else s
  }

  function Run(s: State, steps: seq<Step>): State
    decreases |steps|
  {
    if steps == [] then s else Run(Next(s, steps[0]), steps[1..])
  }

  ghost predicate Within(m: map<string, Funding>, rows: map<string, Funding>) {
    forall id | id in m :: id in rows && m[id] == rows[id]
  }

  ghost predicate PendingOk(p: Pending, rows: map<string, Funding>) {
    match p
    case Inserted(id, data, rowAdded) => id in rows && (rowAdded ==> rows[id] == data)
    case Listed(seen) => Within(seen, rows)
    case Closing(id) => true
  }

  ghost predicate Coherent(s: State) {
    && Within(s.cache, s.rows)
    && forall t | t in s.pending :: PendingOk(s.pending[t], s.rows)
  }

  lemma StepKeepsCoherent(s: State, step: Step)
    requires Coherent(s)
    ensures Coherent(Next(s, step)) && Within(s.rows, Next(s, step).rows)
  {
    var s' := Next(s, step);
    assert Within(s.rows, s'.rows);
    forall t | t in s'.pending ensures PendingOk(s'.pending[t], s'.rows) {
      if t in s.pending && s'.pending[t] == s.pending[t] {
        assert PendingOk(s.pending[t], s.rows);
      }
    }
    if step.InsertCache? && step.t in s.pending {
      assert PendingOk(s.pending[step.t], s.rows);
    }
    if step.ListCache? && step.t in s.pending {
      assert PendingOk(s.pending[step.t], s.rows);
    }
  }

  lemma {:induction false} RunKeepsCoherent(s: State, steps: seq<Step>)
    requires Coherent(s)
    ensures Coherent(Run(s, steps)) && Within(s.rows, Run(s, steps).rows)
    decreases |steps|
  {
    if steps != [] {
      StepKeepsCoherent(s, steps[0]);
      RunKeepsCoherent(Next(s, steps[0]), steps[1..]);
    }
  }

  /** However calls interleave, a lookup answers what the database holds at that moment. */
  lemma LookupsAreCurrent(steps: seq<Step>, id: string)
    ensures var s := Run(START, steps); Answer(s, id) == Get(s.rows, id)
  {
    RunKeepsCoherent(START, steps);
  }

  /** Once a lookup has found a record, every later lookup finds the same one. */
  lemma LookupsAreStable(before: seq<Step>, after: seq<Step>, id: string)
    requires Answer(Run(START, before), id).Some?
    ensures Answer(Run(Run(START, before), after), id) == Answer(Run(START, before), id)
  {
    RunKeepsCoherent(START, before);
    RunKeepsCoherent(Run(START, before), after);
  }
}
