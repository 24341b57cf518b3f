/**
 * The public creator statistics page (src/components/CreatorStatsPage.tsx):
 * the same tab state and shaping as the personal page, with its own song
 * generator and a request that needs no user and is never skipped.
 */
module CreatorStats {
  import opened Types
  import Stats
  import Auth

  /**
   * `generateCreatorSongs`: keeps length and order; each record copies name,
   * artist and genre, takes the name as id, and has no plays, no duration and
   * no image.
   */
  function GenerateCreatorSongs(songs: seq<Song>): (r: seq<Stats.DisplaySong>)
    ensures |r| == |songs|
    ensures forall i :: 0 <= i < |songs| ==>
      && r[i].id == songs[i].name
      && Stats.ToSong(r[i]) == songs[i]
      && r[i].plays == 0 && r[i].duration == 0 && r[i].imageUrl == ""
  {
    if |songs| == 0 then [] else
      var song := songs[0];
      [Stats.DisplaySong(song.name, song.name, song.artist, song.genre, 0, 0, "")] + GenerateCreatorSongs(songs[1..])
  }

  /**
   * Both pages turn the same fetched songs into the same display records; it
   * follows from the two generators' pointwise contracts.
   */
  lemma SameShapingAsStats(songs: seq<Song>)
    ensures GenerateCreatorSongs(songs) == Stats.GenerateSongs(songs)
  {
  }

  /** `timeRanges`: the six tabs in order, only the selected one carrying songs. */
  function CreatorTimeRanges(tab: ClientTimeRange, data: Option<seq<Song>>): (r: seq<Stats.RangeEntry>)
    ensures |r| == |AllRanges|
    ensures forall i :: 0 <= i < |r| ==> r[i].value == AllRanges[i]
    ensures forall i :: 0 <= i < |r| && r[i].value != tab ==> r[i].data == []
    ensures r[IndexOf(tab)].data == GenerateCreatorSongs(data.GetOr([]))
  {
    seq(|AllRanges|, i requires 0 <= i < |AllRanges| =>
      Stats.RangeEntry(Stats.Label(AllRanges[i]), AllRanges[i],
        if AllRanges[i] == tab then GenerateCreatorSongs(data.GetOr([])) else []))
  }

  /** Filtering the tabs by the selected range yields exactly the selected tab. */
  lemma CreatorSelectedTab(tab: ClientTimeRange, data: Option<seq<Song>>)
    ensures Stats.FilterByValue(CreatorTimeRanges(tab, data), tab)
      == [Stats.RangeEntry(Stats.Label(tab), tab, GenerateCreatorSongs(data.GetOr([])))]
  {
    AllRangesComplete();
    Stats.FilterDistinct(CreatorTimeRanges(tab, data), tab, IndexOf(tab));
  }

  /** The creator tabs equal the personal tabs built from the same data. */
  lemma SameTabsAsStats(tab: ClientTimeRange, data: Option<seq<Song>>)
    ensures CreatorTimeRanges(tab, data) == Stats.TimeRanges(tab, data)
  {
    SameShapingAsStats(data.GetOr([]));
    var c, s := CreatorTimeRanges(tab, data), Stats.TimeRanges(tab, data);
    forall i | 0 <= i < |AllRanges| ensures c[i] == s[i] {
    }
  }

  const CreatorPath: string := "/stats/track-stats/creator?timeRange="

  /**
   * The creator request for a tab: `/stats/track-stats/creator?timeRange=<wire>`;
   * it takes no user and is never skipped.
   */
  function CreatorFetch(tab: ClientTimeRange): (f: Stats.Fetch)
    ensures !f.skip
    ensures CreatorPath <= f.path && FromWire(f.path[|CreatorPath|..]) == Some(tab)
  {
    WireRoundTrip(tab);
    Stats.Fetch(CreatorPath + Wire(tab), false)
  }

  /**
   * A personal request coincides with the creator request for the same tab
   * exactly when the user's `sub` is the text "creator".
   */
  lemma PersonalMeetsCreator(user: Auth.User, tab: ClientTimeRange)
    ensures Stats.FetchFor(Some(user), tab).path == CreatorFetch(tab).path <==> user.sub == "creator"
  {
    var p := Stats.FetchFor(Some(user), tab).path;
    var c := CreatorFetch(tab).path;
    var tail := Stats.TimeRangeQuery + Wire(tab);
    assert p == Stats.TrackStatsPrefix + user.sub + tail;
    assert c == Stats.TrackStatsPrefix + "creator" + tail;
    if p == c {
      assert |user.sub| == |"creator"|;
      var n := |Stats.TrackStatsPrefix|;
      assert user.sub == p[n..n + |user.sub|];
      assert "creator" == c[n..n + |"creator"|];
    }
  }

  /** The creator page's own state: the selected tab and its loading flag. */
  class CreatorStatsPage {
    var tabValue: ClientTimeRange
    var isLoading: bool

    /** The page mounts on the hourly tab, loading. */
    constructor ()
      ensures tabValue == Hourly && isLoading
    {
      isLoading := true;
      tabValue := Hourly;
    }

    /**
     * `handleTabChange`: choosing the selected tab changes nothing; choosing
     * another selects it and marks the page as loading.
     */
    method HandleTabChange(newValue: ClientTimeRange)
      modifies this
      ensures newValue == old(tabValue) ==> tabValue == old(tabValue) && isLoading == old(isLoading)
      ensures newValue != old(tabValue) ==> tabValue == newValue && isLoading
    {
      if tabValue == newValue {
        return;
      }
      tabValue := newValue;
      isLoading := true;
    }

    /** The loading effect: a settled request clears the flag; otherwise nothing changes. */
    method LoadingEffect(loading: bool)
      modifies this
      ensures tabValue == old(tabValue)
      ensures isLoading == if loading then old(isLoading) else false
    {
      if loading {
        return;
      }
      isLoading := false;
    }

    /** The tab panels shown: none while loading, else the selected entry. */
    function Shown(data: Option<seq<Song>>): (r: seq<Stats.RangeEntry>)
      reads this
      ensures isLoading ==> r == []
      ensures !isLoading ==>
        |r| == 1 && r[0].value == tabValue && r[0].data == GenerateCreatorSongs(data.GetOr([]))
    {
      CreatorSelectedTab(tabValue, data);
      if isLoading then [] else Stats.FilterByValue(CreatorTimeRanges(tabValue, data), tabValue)
    }
  }
}
