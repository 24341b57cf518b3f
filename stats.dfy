/**
 * The personal statistics page (src/components/StatsPage.tsx): the selected
 * time-range tab and its loading flag, the shaping of fetched songs into the
 * six tab entries, the filter that picks the selected entry, and the rule that
 * builds (or skips) the stats request. The API client's `data` and `loading`
 * are inputs.
 */
module Stats {
  import opened Types
  import Auth

  /** A song as the page displays it. */
  datatype DisplaySong = DisplaySong(
    id: string, name: string, artist: string, genre: string,
    plays: int, duration: int, imageUrl: string)

  /** One tab of the page: its label, its range and the songs it shows. */
  datatype RangeEntry = RangeEntry(tabLabel: string, value: ClientTimeRange, data: seq<DisplaySong>)

  /** The display record of one fetched song. */
  function ToDisplay(s: Song): DisplaySong
  {
    DisplaySong(s.name, s.name, s.artist, s.genre, 0, 0, "")
  }

  /** The fetched song a display record was made from; the partner of `ToDisplay`. */
  function ToSong(d: DisplaySong): Song
  {
    Song(d.name, d.artist, d.genre)
  }

  /**
   * `generateSongs`: keeps length and order; each record copies name, artist
   * and genre, takes the name as id, and has no plays, no duration and no image.
   */
  function GenerateSongs(songs: seq<Song>): (r: seq<DisplaySong>)
    ensures |r| == |songs|
    ensures forall i :: 0 <= i < |songs| ==>
      && r[i].id == songs[i].name
      && ToSong(r[i]) == songs[i]
      && r[i].plays == 0 && r[i].duration == 0 && r[i].imageUrl == ""
  {
    if |songs| == 0 then [] else [ToDisplay(songs[0])] + GenerateSongs(songs[1..])
  }

  function Songs(ds: seq<DisplaySong>): (r: seq<Song>)
    ensures |r| == |ds|
    ensures forall i :: 0 <= i < |ds| ==> r[i] == ToSong(ds[i])
  {
    if |ds| == 0 then [] else [ToSong(ds[0])] + Songs(ds[1..])
  }

  /** The fetched songs can be read back from the displayed ones. */
  lemma GenerateSongsRoundTrip(songs: seq<Song>)
    ensures Songs(GenerateSongs(songs)) == songs
  {
  }

  function Label(r: ClientTimeRange): string
  {
    match r
    case Hourly => "Hourly"
    case Daily => "24 Hours"
    case Weekly => "Weekly"
    case Monthly => "Monthly"
    case SixMonths => "6 Months"
    case Yearly => "Yearly"
  }

  /** The songs one tab carries: the fetched ones if it is selected, none otherwise. */
  function EntryData(r: ClientTimeRange, tab: ClientTimeRange, data: Option<seq<Song>>): seq<DisplaySong>
  {
    if tab == r then GenerateSongs(data.GetOr([])) else []
  }

  /** `timeRanges`: the six tabs in order, only the selected one carrying songs. */
  function TimeRanges(tab: ClientTimeRange, data: Option<seq<Song>>): (r: seq<RangeEntry>)
    ensures |r| == |AllRanges|
    ensures forall i :: 0 <= i < |r| ==> r[i].value == AllRanges[i]
    ensures forall i :: 0 <= i < |r| && r[i].value != tab ==> r[i].data == []
    ensures r[IndexOf(tab)].data == GenerateSongs(data.GetOr([]))
  {
    seq(|AllRanges|, i requires 0 <= i < |AllRanges| =>
      RangeEntry(Label(AllRanges[i]), AllRanges[i], EntryData(AllRanges[i], tab, data)))
  }

  /** `timeRanges.filter(item => item.value === tabValue)`. */
  function FilterByValue(entries: seq<RangeEntry>, tab: ClientTimeRange): (r: seq<RangeEntry>)
    ensures |r| <= |entries|
    ensures forall e :: e in r ==> e in entries && e.value == tab
    ensures forall e :: e in entries && e.value == tab ==> e in r
    ensures forall e :: multiset(r)[e] == if e.value == tab then multiset(entries)[e] else 0
  {
    if |entries| == 0 then []
    else
      assert entries == [entries[0]] + entries[1..];
      if entries[0].value == tab then [entries[0]] + FilterByValue(entries[1..], tab)
      else FilterByValue(entries[1..], tab)
  }

  /** The filter keeps the kept entries in their original order. */
  lemma {:induction false} FilterAppend(a: seq<RangeEntry>, b: seq<RangeEntry>, tab: ClientTimeRange)
    ensures FilterByValue(a + b, tab) == FilterByValue(a, tab) + FilterByValue(b, tab)
  {
    if |a| == 0 {
      assert a + b == b;
    } else {
      assert (a + b)[1..] == a[1..] + b;
      FilterAppend(a[1..], b, tab);
    }
  }

  /** Entries whose values are distinct keep at most one entry per value. */
  lemma {:induction false} FilterDistinct(entries: seq<RangeEntry>, tab: ClientTimeRange, k: nat)
    requires k < |entries| && entries[k].value == tab
    requires forall i, j :: 0 <= i < j < |entries| ==> entries[i].value != entries[j].value
    ensures FilterByValue(entries, tab) == [entries[k]]
  {
    if k == 0 {
      NoneLeft(entries[1..], tab);
    } else {
      assert entries[0].value != tab;
      FilterDistinct(entries[1..], tab, k - 1);
    }
  }

  lemma NoneLeft(entries: seq<RangeEntry>, tab: ClientTimeRange)
    requires forall i :: 0 <= i < |entries| ==> entries[i].value != tab
    ensures FilterByValue(entries, tab) == []
  {
  }

  /** Filtering the tabs by the selected range yields exactly the selected tab. */
  lemma SelectedTab(tab: ClientTimeRange, data: Option<seq<Song>>)
    ensures FilterByValue(TimeRanges(tab, data), tab)
      == [RangeEntry(Label(tab), tab, GenerateSongs(data.GetOr([])))]
  {
    var es := TimeRanges(tab, data);
    AllRangesComplete();
    FilterDistinct(es, tab, IndexOf(tab));
  }

  /** The stats request the page makes (or skips) for a user and a tab. */
  datatype Fetch = Fetch(path: string, skip: bool)

  const TrackStatsPrefix: string := "/stats/track-stats/"
  const TimeRangeQuery: string := "?timeRange="

  /** `${user?.sub}`: a missing user renders as the text "undefined". */
  function SubText(user: Option<Auth.User>): string
  {
    if user.Some? then user.value.sub else "undefined"
  }

  /**
   * The request for the selected tab: `/stats/track-stats/<sub>?timeRange=<wire>`,
   * skipped exactly when there is no user or the user's `sub` is empty.
   */
  function FetchFor(user: Option<Auth.User>, tab: ClientTimeRange): (f: Fetch)
    ensures f.skip <==> user.None? || user.value.sub == ""
    ensures !f.skip ==> f.path == TrackStatsPrefix + user.value.sub + TimeRangeQuery + Wire(tab)
  {
    Fetch(TrackStatsPrefix + SubText(user) + TimeRangeQuery + Wire(tab), user.None? || user.value.sub == "")
  }

  /** The time range can be read back from the end of the request path. */
  lemma FetchNamesRange(user: Option<Auth.User>, tab: ClientTimeRange)
    ensures var p := FetchFor(user, tab).path;
      var n := |TrackStatsPrefix + SubText(user) + TimeRangeQuery|;
      n <= |p| && FromWire(p[n..]) == Some(tab)
  {
    var pre := TrackStatsPrefix + SubText(user) + TimeRangeQuery;
    assert (pre + Wire(tab))[|pre|..] == Wire(tab);
    WireRoundTrip(tab);
  }

  /** For one user, different tabs give different request paths. */
  lemma FetchPathInjective(user: Option<Auth.User>, a: ClientTimeRange, b: ClientTimeRange)
    requires FetchFor(user, a).path == FetchFor(user, b).path
    ensures a == b
  {
    FetchNamesRange(user, a);
    FetchNamesRange(user, b);
  }

  /** The page's own state: the selected tab and whether its data is loading. */
  class StatsPage {
    var tabValue: ClientTimeRange
    var isLoading: bool

    /** The page mounts on the hourly tab, loading. */
    constructor ()
      ensures tabValue == Hourly && isLoading
    {
      isLoading := true;
      tabValue := Hourly;
    }

    /**
     * `handleTabChange`: choosing the selected tab changes nothing; choosing
     * another selects it and marks the page as loading.
     */
    method HandleTabChange(newValue: ClientTimeRange)
      modifies this
      ensures newValue == old(tabValue) ==> tabValue == old(tabValue) && isLoading == old(isLoading)
      ensures newValue != old(tabValue) ==> tabValue == newValue && isLoading
    {
      if newValue == tabValue {
        return;
      }
      isLoading := true;
      tabValue := newValue;
    }

    /** The loading effect: a settled request clears the flag; otherwise nothing changes. */
    method LoadingEffect(loading: bool)
      modifies this
      ensures tabValue == old(tabValue)
      ensures isLoading == if loading then old(isLoading) else false
    {
      if loading {
        return;
      }
      isLoading := false;
    }

    /** The tab panels shown: none while loading, else the selected entry. */
    function Shown(data: Option<seq<Song>>): (r: seq<RangeEntry>)
      reads this
      ensures isLoading ==> r == []
      ensures !isLoading ==>
        |r| == 1 && r[0].value == tabValue && r[0].data == GenerateSongs(data.GetOr([]))
    {
      SelectedTab(tabValue, data);
      if isLoading then [] else FilterByValue(TimeRanges(tabValue, data), tabValue)
    }
  }
}
