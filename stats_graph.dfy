/**
 * Data preparation of the repository's statistics script: the cumulative
 * star history, the total download count over all release assets, the
 * append-only download history file, and the download series handed to the
 * plot. Dates are timestamps (whole seconds), already parsed; the network,
 * the plotting and the clock are parameters or left out.
 */
module StatsGraph {
  import opened Wrappers

  // ---------------------------------------------------------------------
  // Star history
  // ---------------------------------------------------------------------

  /** Every earlier element is at most every later one. */
  predicate Sorted(s: seq<int>) {
    forall i, j :: 0 <= i < j < |s| ==> s[i] <= s[j]
  }

  /** `x` inserted before the first element not smaller than it. */
  function Insert(x: int, s: seq<int>): (r: seq<int>)
    ensures |r| == |s| + 1
    ensures multiset(r) == multiset(s) + multiset{x}
    decreases |s|
  {
    if s == [] || x <= s[0] then [x] + s
    else
      assert s == [s[0]] + s[1..];
      [s[0]] + Insert(x, s[1..])
  }

  /** Inserting into a sorted sequence keeps it sorted. */
  lemma {:induction false} InsertSorted(x: int, s: seq<int>)
    requires Sorted(s)
    ensures Sorted(Insert(x, s))
    decreases |s|
  {
    if s != [] && x > s[0] {
      var t := Insert(x, s[1..]);
      InsertSorted(x, s[1..]);
      forall k | 0 <= k < |t|
        ensures s[0] <= t[k]
      {
        assert t[k] in multiset(t);
        if t[k] != x {
          HeadBelowTail(s, t[k]);
        }
      }
      assert Insert(x, s) == [s[0]] + t;
    }
  }

  /** The head of a sorted sequence is at most every element after it. */
  lemma HeadBelowTail(s: seq<int>, y: int)
    requires Sorted(s) && s != [] && y in multiset(s[1..])
    ensures s[0] <= y
  {
    var j :| 0 <= j < |s[1..]| && s[1..][j] == y;
    assert s[j + 1] == y;
  }

  /** `list.sort()` on timestamps: a sorted rearrangement of the input. */
  function SortDates(s: seq<int>): (r: seq<int>)
    ensures |r| == |s|
    ensures multiset(r) == multiset(s)
    decreases |s|
  {
    if s == [] then []
    else
      assert s == [s[0]] + s[1..];
      Insert(s[0], SortDates(s[1..]))
  }

  /** The result of `SortDates` is in order. */
  lemma {:induction false} SortDatesSorted(s: seq<int>)
    ensures Sorted(SortDates(s))
    decreases |s|
  {
    if s != [] {
      SortDatesSorted(s[1..]);
      InsertSorted(s[0], SortDates(s[1..]));
    }
  }

  /** The smallest element of a sorted sequence comes first. */
  lemma SortedHeadIsLeast(a: seq<int>, x: int)
    requires Sorted(a) && x in multiset(a)
    ensures a[0] <= x
  {
    var j :| 0 <= j < |a| && a[j] == x;
  }

  lemma SortedTail(a: seq<int>)
    requires Sorted(a) && a != []
    ensures Sorted(a[1..])
  {
    forall i, j | 0 <= i < j < |a[1..]|
      ensures a[1..][i] <= a[1..][j]
    {
      assert a[1..][i] == a[i + 1] && a[1..][j] == a[j + 1];
    }
  }

  /** Two sorted rearrangements of the same timestamps are equal, so the
      star history does not depend on the order the stars arrived in. */
  lemma {:induction false} SortedPermutationUnique(a: seq<int>, b: seq<int>)
    requires Sorted(a) && Sorted(b) && multiset(a) == multiset(b)
    ensures a == b
    decreases |a|
  {
    if a != [] {
      assert |b| == |a| by {
        assert |multiset(a)| == |multiset(b)|;
      }
      assert a[0] in multiset(b);
      assert b[0] in multiset(a);
      SortedHeadIsLeast(b, a[0]);
      SortedHeadIsLeast(a, b[0]);
      assert a[0] == b[0];
      assert a == [a[0]] + a[1..] && b == [b[0]] + b[1..];
      assert multiset(a) == multiset{a[0]} + multiset(a[1..]);
      assert multiset(b) == multiset{b[0]} + multiset(b[1..]);
      assert multiset(a[1..]) == multiset(a) - multiset{a[0]};
      assert multiset(b[1..]) == multiset(b) - multiset{b[0]};
      SortedTail(a);
      SortedTail(b);
      SortedPermutationUnique(a[1..], b[1..]);
    }
  }

  /** The star history the script builds from the fetched star times: the
      times in order, the i-th paired with i + 1. */
  function CumulativeStars(starredAt: seq<int>): seq<(int, int)> {
    var sorted := SortDates(starredAt);
    seq(|sorted|, i requires 0 <= i < |sorted| => (sorted[i], i + 1))
  }

  /** The dates of a star history. */
  function StarDates(history: seq<(int, int)>): (dates: seq<int>)
    ensures |dates| == |history|
    ensures forall i :: 0 <= i < |history| ==> dates[i] == history[i].0
  {
    seq(|history|, i requires 0 <= i < |history| => history[i].0)
  }

  /** One point per star; the counts run 1, 2, ..., n, so the last is the
      number of stars; the dates are the star times in non-decreasing
      order, each star time exactly as often as it was fetched. */
  lemma CumulativeStarsShape(starredAt: seq<int>)
    ensures |CumulativeStars(starredAt)| == |starredAt|
    ensures forall i :: 0 <= i < |starredAt| ==> CumulativeStars(starredAt)[i].1 == i + 1
    ensures Sorted(StarDates(CumulativeStars(starredAt)))
    ensures multiset(StarDates(CumulativeStars(starredAt))) == multiset(starredAt)
  {
    SortDatesSorted(starredAt);
    assert StarDates(CumulativeStars(starredAt)) == SortDates(starredAt);
  }

  /** The star history depends only on which star times were fetched, not
      on the order the pages delivered them in. */
  lemma StarsHistoryIgnoresArrivalOrder(p: seq<int>, q: seq<int>)
    requires multiset(p) == multiset(q)
    ensures CumulativeStars(p) == CumulativeStars(q)
  {
    SortDatesSorted(p);
    SortDatesSorted(q);
    SortedPermutationUnique(SortDates(p), SortDates(q));
  }

  /** `fetch_stars_history` once the star times are fetched: sort them,
      then append (time, i + 1) for the i-th. */
  method FetchStarsHistory(starredAt: seq<int>) returns (history: seq<(int, int)>)
    ensures history == CumulativeStars(starredAt)
  {
    var starsData := SortDates(starredAt);
    history := [];
    var i := 0;
    while i < |starsData|
      invariant 0 <= i <= |starsData|
      invariant history == CumulativeStars(starredAt)[..i]
    {
      history := history + [(starsData[i], i + 1)];
      i := i + 1;
    }
  }

  // ---------------------------------------------------------------------
  // Total downloads
  // ---------------------------------------------------------------------

  /** A release asset; `None` when its JSON has no `download_count`. */
  datatype Asset = Asset(downloadCount: Option<int>)

  /** A release; `None` when its JSON has no `assets` list. */
  datatype Release = Release(assets: Option<seq<Asset>>)

  /** `asset.get('download_count', 0)`. */
  function AssetDownloads(a: Asset): (n: int)
    ensures a.downloadCount.Some? ==> n == a.downloadCount.value
    ensures a.downloadCount.None? ==> n == 0
  {
    match a.downloadCount
    case Some(count) => count
    case None => 0
  }

  /** The downloads of a list of assets. */
  function AssetsSum(assets: seq<Asset>): int
    decreases |assets|
  {
    if assets == [] then 0
    else AssetsSum(assets[..|assets| - 1]) + AssetDownloads(assets[|assets| - 1])
  }

  /** The downloads of one release, its missing `assets` counted as none. */
  function ReleaseDownloads(r: Release): int {
    match r.assets
    case Some(assets) => AssetsSum(assets)
    case None => 0
  }

  /** The downloads of a list of releases. */
  function DownloadsSum(releases: seq<Release>): int
    decreases |releases|
  {
    if releases == [] then 0
    else DownloadsSum(releases[..|releases| - 1]) + ReleaseDownloads(releases[|releases| - 1])
  }

  /** The total of two pages of releases is the sum of their totals, so
      accumulating page by page gives the total of all releases. */
  lemma {:induction false} DownloadsSumAppend(a: seq<Release>, b: seq<Release>)
    ensures DownloadsSum(a + b) == DownloadsSum(a) + DownloadsSum(b)
    decreases |b|
  {
    if b == [] {
      assert a + b == a;
    } else {
      assert (a + b)[..|a + b| - 1] == a + b[..|b| - 1];
      assert (a + b)[|a + b| - 1] == b[|b| - 1];
      DownloadsSumAppend(a, b[..|b| - 1]);
    }
  }

  /** When no asset reports a negative count, neither does the total. */
  lemma {:induction false} DownloadsSumNonNegative(releases: seq<Release>)
    requires forall r, a :: r in releases && r.assets.Some? && a in r.assets.value ==>
      a.downloadCount.None? || a.downloadCount.value >= 0
    ensures DownloadsSum(releases) >= 0
    decreases |releases|
  {
    if releases != [] {
      var last := releases[|releases| - 1];
      DownloadsSumNonNegative(releases[..|releases| - 1]);
      if last.assets.Some? {
        AssetsSumNonNegative(last.assets.value);
      }
    }
  }

  lemma {:induction false} AssetsSumNonNegative(assets: seq<Asset>)
    requires forall a :: a in assets ==> a.downloadCount.None? || a.downloadCount.value >= 0
    ensures AssetsSum(assets) >= 0
    decreases |assets|
  {
    if assets != [] {
      AssetsSumNonNegative(assets[..|assets| - 1]);
      assert assets[|assets| - 1] in assets;
    }
  }

  /** The assets of one release added to a running total. */
  method AddAssets(total: int, assets: seq<Asset>) returns (total': int)
    ensures total' == total + AssetsSum(assets)
  {
    total' := total;
    var i := 0;
    while i < |assets|
      invariant 0 <= i <= |assets|
      invariant total' == total + AssetsSum(assets[..i])
    {
      assert assets[..i + 1][..i] == assets[..i];
      total' := total' + AssetDownloads(assets[i]);
      i := i + 1;
    }
    assert assets[..|assets|] == assets;
  }

  /** `fetch_total_downloads` over the fetched releases: every asset's
      count, a missing count or a missing asset list counted as 0. */
  method FetchTotalDownloads(releases: seq<Release>) returns (total: int)
    ensures total == DownloadsSum(releases)
  {
    total := 0;
    var i := 0;
    while i < |releases|
      invariant 0 <= i <= |releases|
      invariant total == DownloadsSum(releases[..i])
    {
      assert releases[..i + 1][..i] == releases[..i];
      var assets := match releases[i].assets case Some(list) => list case None => [];
      total := AddAssets(total, assets);
      i := i + 1;
    }
    assert releases[..|releases|] == releases;
  }

  // ---------------------------------------------------------------------
  // Download history file
  // ---------------------------------------------------------------------

  /** One recorded download count. */
  datatype HistoryEntry = HistoryEntry(date: int, count: int)

  /** The history file as the script finds it: absent, not valid JSON, or
      a decoded list of entries. */
  datatype HistoryFile = Missing | Undecodable | Decoded(entries: seq<HistoryEntry>)

  /** The history the script starts from: the decoded list, or an empty one
      when the file is absent or cannot be decoded. */
  function Loaded(f: HistoryFile): (h: seq<HistoryEntry>)
    ensures f.Decoded? ==> h == f.entries
    ensures !f.Decoded? ==> h == []
  {
    if f.Decoded? then f.entries else []
  }

  /** The file after one run of the script at `now` that counted
      `downloads`. */
  function AfterUpdate(f: HistoryFile, now: int, downloads: int): HistoryFile {
    Decoded(Loaded(f) + [HistoryEntry(now, downloads)])
  }

  /** The file after one run per entry of `runs`, in order. */
  function AfterRuns(f: HistoryFile, runs: seq<HistoryEntry>): HistoryFile
    decreases |runs|
  {
    if runs == [] then f
    else AfterUpdate(AfterRuns(f, runs[..|runs| - 1]), runs[|runs| - 1].date, runs[|runs| - 1].count)
  }

  /** Runs only append: after any number of runs the file holds what it held
      before (nothing, if it was absent or unreadable) followed by one entry
      per run, in order. */
  lemma {:induction false} RunsAppend(f: HistoryFile, runs: seq<HistoryEntry>)
    ensures Loaded(AfterRuns(f, runs)) == Loaded(f) + runs
    decreases |runs|
  {
    if runs != [] {
      var before := runs[..|runs| - 1];
      RunsAppend(f, before);
      assert runs == before + [runs[|runs| - 1]];
    }
  }

  /** The script's history file. */
  class HistoryStore {
    var file: HistoryFile

    constructor(file: HistoryFile)
      ensures this.file == file
    {
      this.file := file;
    }

    /** `update_download_history`: load, append the current count at `now`,
        write the whole list back and return it. */
    method UpdateDownloadHistory(currentDownloads: int, now: int) returns (history: seq<HistoryEntry>)
      modifies this
      ensures history == Loaded(old(file)) + [HistoryEntry(now, currentDownloads)]
      ensures file == AfterUpdate(old(file), now, currentDownloads) && file == Decoded(history)
    {
      history := [];
      if file.Decoded? {
        history := file.entries;
      }
      history := history + [HistoryEntry(now, currentDownloads)];
      file := Decoded(history);
    }
  }

  // ---------------------------------------------------------------------
  // Download series for the plot
  // ---------------------------------------------------------------------

  /** The dates of a download history, in file order. */
  function HistoryDates(history: seq<HistoryEntry>): (dates: seq<int>)
    ensures |dates| == |history|
    ensures forall i :: 0 <= i < |history| ==> dates[i] == history[i].date
  {
    seq(|history|, i requires 0 <= i < |history| => history[i].date)
  }

  /** The counts of a download history, in file order. */
  function HistoryCounts(history: seq<HistoryEntry>): (counts: seq<int>)
    ensures |counts| == |history|
    ensures forall i :: 0 <= i < |history| ==> counts[i] == history[i].count
  {
    seq(|history|, i requires 0 <= i < |history| => history[i].count)
  }

  /** Python's `min` of a non-empty list of timestamps. */
  function Earliest(dates: seq<int>): (m: int)
    requires dates != []
    ensures m in dates
    ensures forall i :: 0 <= i < |dates| ==> m <= dates[i]
    decreases |dates|
  {
    if |dates| == 1 then dates[0]
    else
      var rest := Earliest(dates[1..]);
      assert forall i :: 1 <= i < |dates| ==> dates[i] == dates[1..][i - 1];
      if dates[0] <= rest then dates[0] else rest
  }

  /** `process_download_data`: the history's dates and counts in file
      order, with a (first star, 0) point put in front when every recorded
      date is later than the first star; a single (first star, 0) point
      when there is no history; nothing when there is neither. */
  method ProcessDownloadData(history: seq<HistoryEntry>, firstStarDate: Option<int>)
    returns (dates: seq<int>, counts: seq<int>)
    ensures |dates| == |counts|
    ensures history == [] && firstStarDate.Some? ==> dates == [firstStarDate.value] && counts == [0]
    ensures history == [] && firstStarDate.None? ==> dates == [] && counts == []
    ensures history != [] && firstStarDate.Some? && (forall i :: 0 <= i < |history| ==> history[i].date > firstStarDate.value) ==>
      dates == [firstStarDate.value] + HistoryDates(history) && counts == [0] + HistoryCounts(history)
    ensures history != [] && (firstStarDate.None? || exists i :: 0 <= i < |history| && history[i].date <= firstStarDate.value) ==>
      dates == HistoryDates(history) && counts == HistoryCounts(history)
  {
    dates := [];
    counts := [];
    var i := 0;
    while i < |history|
      invariant 0 <= i <= |history|
      invariant dates == HistoryDates(history)[..i] && counts == HistoryCounts(history)[..i]
    {
      dates := dates + [history[i].date];
      counts := counts + [history[i].count];
      i := i + 1;
    }
    assert dates == HistoryDates(history) && counts == HistoryCounts(history);
    if dates != [] {
      var earliestRecord := Earliest(dates);
      if firstStarDate.Some? && earliestRecord > firstStarDate.value {
        dates := [firstStarDate.value] + dates;
        counts := [0] + counts;
      }
    } else if firstStarDate.Some? {
      dates := [firstStarDate.value];
      counts := [0];
    }
  }

  /** The date the script passes as the first star: the earliest star of
      the history, or the current time when there are no stars. */
  function FirstStarDate(stars: seq<(int, int)>, now: int): (d: int)
    ensures stars != [] ==> d == stars[0].0
    ensures stars == [] ==> d == now
  {
    if stars != [] then stars[0].0 else now
  }

  /** The first star date is at most every star time, so the download
      series starts no later than the star series. */
  lemma FirstStarIsEarliest(starredAt: seq<int>, now: int)
    requires starredAt != []
    ensures forall k :: 0 <= k < |starredAt| ==> FirstStarDate(CumulativeStars(starredAt), now) <= starredAt[k]
  {
    SortDatesSorted(starredAt);
    var sorted := SortDates(starredAt);
    forall k | 0 <= k < |starredAt|
      ensures sorted[0] <= starredAt[k]
    {
      assert starredAt[k] in multiset(sorted);
      SortedHeadIsLeast(sorted, starredAt[k]);
    }
  }
}
