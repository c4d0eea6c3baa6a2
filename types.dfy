/** The value types shared by the simulator, the API handlers and the client
    composable: the four scenario enums, the 12-field metric record, the
    metric names and the shape of a stored or transmitted metrics object. */
module Types {

  datatype Option<T> = None | Some(value: T)

  datatype Result<T, E> = Ok(value: T) | Err(error: E)

  datatype Network = Wifi | FourG | ThreeG | TwoG

  datatype CpuThrottle = NoThrottle | Throttle4x | Throttle6x

  datatype Device = HighEnd | MidRange | LowEnd

  datatype CacheStatus = FirstLoad | Cached | Offline

  /** A simulated runtime condition: the `ScenarioConfig` object. */
  datatype Scenario = Scenario(network: Network, cpuThrottle: CpuThrottle,
                               deviceType: Device, cacheStatus: CacheStatus)

  /** The wire name of each enum value, as the string unions spell them. */
  function NetworkName(n: Network): string {
    match n
    case Wifi => "wifi"
    case FourG => "4g"
    case ThreeG => "3g"
    case TwoG => "2g"
  }

  function CpuName(c: CpuThrottle): string {
    match c
    case NoThrottle => "none"
    case Throttle4x => "4x"
    case Throttle6x => "6x"
  }

  function DeviceName(d: Device): string {
    match d
    case HighEnd => "high-end"
    case MidRange => "mid-range"
    case LowEnd => "low-end"
  }

  function CacheName(k: CacheStatus): string {
    match k
    case FirstLoad => "first-load"
    case Cached => "cached"
    case Offline => "offline"
  }

  /** `PerformanceMetrics`: every field is a JavaScript number. */
  datatype Metrics = Metrics(
    lcp: real, fid: real, cls: real, fcp: real,
    ttfb: real, inp: real, tti: real, si: real,
    totalSize: real, requestCount: real, jsSize: real, cssSize: real)
  {
    /** The field a metric name selects (`metrics[metric]`). */
    function Get(f: Field): real {
      match f
      case Lcp => lcp
      case Fcp => fcp
      case Fid => fid
      case Cls => cls
      case Ttfb => ttfb
      case Inp => inp
      case Tti => tti
      case Si => si
      case TotalSize => totalSize
      case RequestCount => requestCount
      case JsSize => jsSize
      case CssSize => cssSize
    }
  }

  /** The twelve metric names. */
  datatype Field = Lcp | Fcp | Fid | Cls | Ttfb | Inp | Tti | Si
                 | TotalSize | RequestCount | JsSize | CssSize

  /** The metric names in the order the comparison handler visits them. */
  const MetricNames: seq<Field> :=
    [Lcp, Fcp, Fid, Cls, Ttfb, Inp, Tti, Si, TotalSize, RequestCount, JsSize, CssSize]

  const AllFields: set<Field> :=
    {Lcp, Fcp, Fid, Cls, Ttfb, Inp, Tti, Si, TotalSize, RequestCount, JsSize, CssSize}

  /** Every metric name is among the twelve. */
  lemma AllFieldsComplete(f: Field)
    ensures f in AllFields && f in MetricNames
  {
  }

  lemma AllFieldsCompleteAll()
    ensures forall f: Field :: f in AllFields
  {
    forall f: Field ensures f in AllFields { AllFieldsComplete(f); }
  }

  /** A metrics object as stored in a document or sent as JSON: a field may be absent. */
  type Doc = map<Field, real>

  /** The document a `PerformanceMetrics` value becomes when stored or sent. */
  function ToDoc(m: Metrics): (d: Doc)
    ensures d.Keys == AllFields
    ensures forall f :: f in d && d[f] == m.Get(f)
  {
    AllFieldsCompleteAll();
    map f | f in AllFields :: m.Get(f)
  }

  /** The result of `Math.round` applied to a JavaScript number that may be
      NaN or infinite: what an unguarded percentage can evaluate to. */
  datatype Percent = Finite(value: int) | NotANumber | PosInfinity | NegInfinity

  /** An improvement record: metric name to percentage. */
  type Improvement = map<Field, Percent>

  /** `OptimizationSolution`, reduced to what the model uses. */
  datatype Solution = Solution(id: string, name: string, category: string)
}
