/** The admin dashboard's statistics, computed once from the fetched album rows and
    photo ids. */
module Dashboard {
  import opened Common
  import opened Portfolio

  datatype Stats = Stats(totalAlbums: nat, totalPhotos: nat, publishedAlbums: nat, categories: nat)

  /** What the dashboard shows: the counters and the most recent albums. */
  datatype DashboardView = DashboardView(stats: Stats, recentAlbums: seq<Album>)

  /** The site has six fixed categories. */
  const CategoryTotal := 6

  const InitialView := DashboardView(Stats(0, 0, 0, CategoryTotal), [])

  /** The number of recent albums shown. */
  const RecentCount := 5

  /** Counters that agree with each other. */
  predicate Consistent(v: DashboardView) {
    && v.stats.publishedAlbums <= v.stats.totalAlbums
    && v.stats.categories == CategoryTotal
    && |v.recentAlbums| <= RecentCount
    && |v.recentAlbums| <= v.stats.totalAlbums
  }

  /** `albums.filter(a => a.status === 'published').length`. */
  function CountPublished(albums: seq<Album>): (n: nat)
    ensures n <= |albums|
    ensures n == |albums| <==> forall k :: 0 <= k < |albums| ==> albums[k].status == Published
    ensures n == 0 <==> forall k :: 0 <= k < |albums| ==> albums[k].status != Published
  {
    if albums == [] then 0
    else
      var rest := CountPublished(albums[1..]);
      assert forall k :: 0 < k < |albums| ==> albums[k] == albums[1..][k - 1];
      (if albums[0].status == Published then 1 else 0) + rest
  }

  /** The published count of a concatenation is the sum of the parts' counts. */
  lemma {:induction false} CountPublishedAppend(a: seq<Album>, b: seq<Album>)
    ensures CountPublished(a + b) == CountPublished(a) + CountPublished(b)
  {
    if a == [] {
      assert a + b == b;
    } else {
      assert (a + b)[1..] == a[1..] + b;
      CountPublishedAppend(a[1..], b);
    }
  }

  /** `fetchStats`: `albums` and `photos` are the two queries' rows, None when a query
      returned no data. Without albums nothing changes; a missing photo list counts as
      no photos. */
  function FetchStats(view: DashboardView, albums: Option<seq<Album>>, photos: Option<seq<string>>): (r: DashboardView)
    ensures albums.None? ==> r == view
    ensures albums.Some? ==>
              && r.stats.totalAlbums == |albums.value|
              && r.stats.totalPhotos == (if photos.Some? then |photos.value| else 0)
              && r.stats.publishedAlbums == CountPublished(albums.value)
              && r.stats.categories == CategoryTotal
              && r.recentAlbums <= albums.value
              && |r.recentAlbums| == if |albums.value| < RecentCount then |albums.value| else RecentCount
  {
    if albums.None? then view
    else
      var all := albums.value;
      DashboardView(
        Stats(|all|, if photos.Some? then |photos.value| else 0, CountPublished(all), CategoryTotal),
        if |all| <= RecentCount then all else all[..RecentCount])
  }

  /** The counters always agree: they start consistent and every fetch keeps them so. */
  lemma FetchStatsKeepsConsistency(view: DashboardView, albums: Option<seq<Album>>, photos: Option<seq<string>>)
    requires Consistent(view)
    ensures Consistent(FetchStats(view, albums, photos))
  {
  }

  /** Every album counts as published exactly when none is a draft. */
  lemma AllPublishedIffNoDraft(albums: seq<Album>)
    ensures FetchStats(InitialView, Some(albums), None).stats.publishedAlbums == |albums|
            <==> forall k :: 0 <= k < |albums| ==> albums[k].status != Draft
  {
  }
}
