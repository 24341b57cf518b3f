/**
 * Shared vocabulary of the client: the time-range enumeration whose string
 * values travel on the wire, and the track record returned by the stats
 * endpoints (src/types/common.ts).
 */
module Types {

  datatype Option<+T> = None | Some(value: T) {
    /** The value when present, otherwise the fallback (JavaScript's `x || d`). */
    function GetOr(default: T): T {
      match this
      case Some(v) => v
      case None => default
    }
  }

  /** A track summary as the stats endpoints return it. */
  datatype Song = Song(name: string, artist: string, genre: string)

  /** The six time buckets a stats query can be made for. */
  datatype ClientTimeRange = Hourly | Daily | Weekly | Monthly | SixMonths | Yearly

  /** The string value each member has in the `timeRange` query parameter. */
  function Wire(r: ClientTimeRange): string {
    match r
    case Hourly => "1hr"
    case Daily => "24hr"
    case Weekly => "7day"
    case Monthly => "1month"
    case SixMonths => "6month"
    case Yearly => "12month"
  }

  /** Reads a wire value back; the partner of `Wire`. */
  function FromWire(s: string): (r: Option<ClientTimeRange>)
    ensures r.Some? ==> Wire(r.value) == s
    ensures r.None? ==> forall t: ClientTimeRange :: Wire(t) != s
  {
    if s == "1hr" then Some(Hourly)
    else if s == "24hr" then Some(Daily)
    else if s == "7day" then Some(Weekly)
    else if s == "1month" then Some(Monthly)
    else if s == "6month" then Some(SixMonths)
    else if s == "12month" then Some(Yearly)
    else None
  }

  /** Every member survives the trip to its wire value and back. */
  lemma WireRoundTrip(r: ClientTimeRange)
    ensures FromWire(Wire(r)) == Some(r)
  {
  }

  /** Distinct members have distinct wire values. */
  lemma WireInjective(a: ClientTimeRange, b: ClientTimeRange)
    requires Wire(a) == Wire(b)
    ensures a == b
  {
    WireRoundTrip(a);
    WireRoundTrip(b);
  }

  /** The members in declaration order, which is also the order of the tabs. */
  const AllRanges: seq<ClientTimeRange> := [Hourly, Daily, Weekly, Monthly, SixMonths, Yearly]

  /** Position of a member in declaration order. */
  function IndexOf(r: ClientTimeRange): (i: nat)
    ensures i < |AllRanges| && AllRanges[i] == r
    ensures forall j :: 0 <= j < |AllRanges| && AllRanges[j] == r ==> j == i
  {
    match r
    case Hourly => 0
    case Daily => 1
    case Weekly => 2
    case Monthly => 3
    case SixMonths => 4
    case Yearly => 5
  }

  /** The enumeration has exactly six members, each listed once. */
  lemma AllRangesComplete()
    ensures |AllRanges| == 6
    ensures forall r: ClientTimeRange :: r in AllRanges
    ensures forall i, j :: 0 <= i < j < |AllRanges| ==> AllRanges[i] != AllRanges[j]
  {
    forall r: ClientTimeRange ensures r in AllRanges {
      var _ := IndexOf(r);
    }
  }
}
