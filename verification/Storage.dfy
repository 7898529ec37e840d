/** The mutable state the service keeps outside its own process: the two tables,
    the two lookaside caches and the broker. */
module Storage {
  import opened Prelude
  import opened Deployments
  import opened Ledger
  import opened Notifications
  import opened Streams
  import opened Handling

  /** Postgres: the tables of src/internal/infrastructure/database/migrations. */
  class Database {
    var deployments: seq<Deployment>
    var ledger: seq<Row>

    function View(): Db
      reads this
    {
      Db(deployments, ledger)
    }

    constructor ()
      ensures View() == EMPTY
    {
      deployments, ledger := [], [];
    }
  }

  /** Redis as a lookaside: src/internal/infrastructure/cache/cache.go.  A read
      may miss what is there and a write may be lost. */
  class Cache {
    var refs: map<string, Ref>
    var results: map<string, Row>

    constructor ()
      ensures refs == map[] && results == map[]
    {
      refs, results := map[], map[];
    }

    method GetRef(customer: string, f: Faults) returns (r: Option<Ref>)
      ensures r == if !f.refMiss && customer in refs then Some(refs[customer]) else None
    {
      if !f.refMiss && customer in refs { return Some(refs[customer]); }
      return None;
    }

    method SetRef(ref: Ref, f: Faults)
      modifies this`refs
      ensures refs == if f.refSetLost then old(refs) else old(refs)[ref.customer := ref]
    {
      if !f.refSetLost { refs := refs[ref.customer := ref]; }
    }

    method GetResult(reference: string, f: Faults) returns (r: Option<Row>)
      ensures r == if !f.resultMiss && reference in results then Some(results[reference]) else None
    {
      if !f.resultMiss && reference in results { return Some(results[reference]); }
      return None;
    }

    method SetResult(reference: string, row: Row, f: Faults)
      modifies this`results
      ensures results == if f.resultSetLost then old(results) else old(results)[reference := row]
    {
      if !f.resultSetLost { results := results[reference := row]; }
    }
  }

  /** Redis as a broker. */
  class Broker {
    var stream: Stream

    constructor ()
      ensures stream == EMPTY_STREAM
    {
      stream := EMPTY_STREAM;
    }
  }

  /** Everything a call can touch, as one value. */
  function Snapshot(db: Database, cache: Cache, broker: Broker): World
    reads db, cache, broker
  {
    World(db.View(), cache.refs, cache.results, broker.stream)
  }
}
