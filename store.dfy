/** The `performance_metrics` and `solutions` collections, reduced to the
    values the handlers read and write, and the `findOne` lookup on them. */
module Store {
  import opened Types

  /** One document of `performance_metrics`: the tuple it was generated for,
      as the strings the seeding loop stored, and its metrics object. */
  datatype Row = Row(solutionId: string, network: string, cpuThrottle: string,
                     deviceType: string, cacheStatus: string, metrics: Doc)

  /** A `findOne` filter on the five tuple fields. */
  datatype Query = Query(solutionId: string, network: string, cpuThrottle: string,
                         deviceType: string, cacheStatus: string)

  function QueryOf(r: Row): Query {
    Query(r.solutionId, r.network, r.cpuThrottle, r.deviceType, r.cacheStatus)
  }

  /** `findOne(filter)`: the first document, in insertion order, whose tuple matches. */
  function FindOne(rows: seq<Row>, q: Query): (r: Option<Row>)
    ensures r.Some? ==> r.value in rows && QueryOf(r.value) == q
    ensures r.None? <==> forall t :: 0 <= t < |rows| ==> QueryOf(rows[t]) != q
  {
    if rows == [] then None
    else if QueryOf(rows[0]) == q then Some(rows[0])
    else FindOne(rows[1..], q)
  }

  /** When exactly one document matches, `findOne` returns that document. */
  lemma {:induction false} FindOneOfUniqueMatch(rows: seq<Row>, t: nat, q: Query)
    requires t < |rows| && QueryOf(rows[t]) == q
    requires forall u :: 0 <= u < |rows| && u != t ==> QueryOf(rows[u]) != q
    ensures FindOne(rows, q) == Some(rows[t])
    decreases t
  {
    if t > 0 {
      assert QueryOf(rows[0]) != q;
      FindOneOfUniqueMatch(rows[1..], t - 1, q);
    }
  }

  /** The two collections the handlers use, as the database holds them. */
  class Database {
    /** The ids of the documents of `solutions`, in insertion order. */
    var solutions: seq<string>
    /** The documents of `performance_metrics`, in insertion order. */
    var performanceMetrics: seq<Row>

    constructor ()
      ensures solutions == [] && performanceMetrics == []
    {
      solutions := [];
      performanceMetrics := [];
    }
  }
}
