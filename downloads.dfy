/** The download list of `app/downloads.tsx`: the status changes keyed by
    download id, the status filter with its three sort orders, the size
    total and the duration text. */
module Downloads {
  import opened Wrappers
  import Strings
  import Seqs
  import JsNumber

  datatype DownloadStatus = Downloading | Completed | Paused | Failed
  datatype Quality = Q480p | Q720p | Q1080p

  /** One entry; `fileSize` is in MB and `downloadedAt` in milliseconds. */
  datatype DownloadItem = DownloadItem(
    id: string, videoId: string, title: string, thumbnail: string,
    duration: int, fileSize: int, downloadedAt: int,
    status: DownloadStatus, localPath: Option<string>, category: string, quality: Quality)

  // ---------------------------------------------------------------------------
  // Size total

  predicate IsCompleted(d: DownloadItem) {
    d.status == Completed
  }

  function FileSize(d: DownloadItem): int {
    d.fileSize
  }

  /** What one item adds to the total: its size when completed, else nothing. */
  function CompletedSize(d: DownloadItem): int {
    if d.status == Completed then d.fileSize else 0
  }

  /** `getTotalSize`: the sizes of the completed items added up; never
      negative when no size is. */
  function TotalSize(ds: seq<DownloadItem>): (t: int)
    ensures (forall i :: 0 <= i < |ds| ==> ds[i].fileSize >= 0) ==> t >= 0
    ensures t == Seqs.SumOf(ds, CompletedSize)
  {
    TotalSizeCountsCompleted(ds);
    Seqs.SumOf(Seqs.Filter(ds, IsCompleted), FileSize)
  }

  /** Filtering the completed items and then adding sizes is adding each
      item's completed size. */
  lemma {:induction false} TotalSizeCountsCompleted(ds: seq<DownloadItem>)
    ensures Seqs.SumOf(Seqs.Filter(ds, IsCompleted), FileSize) == Seqs.SumOf(ds, CompletedSize)
    ensures (forall i :: 0 <= i < |ds| ==> ds[i].fileSize >= 0) ==> Seqs.SumOf(ds, CompletedSize) >= 0
    decreases |ds|
  {
    if ds != [] {
      TotalSizeCountsCompleted(ds[1..]);
      var rest := Seqs.Filter(ds[1..], IsCompleted);
      if IsCompleted(ds[0]) {
        assert ([ds[0]] + rest)[1..] == rest;
      }
    }
  }

  /** The total of two lists put together is the sum of their totals. */
  lemma TotalSizeConcat(a: seq<DownloadItem>, b: seq<DownloadItem>)
    ensures TotalSize(a + b) == TotalSize(a) + TotalSize(b)
  {
    Seqs.SumOfConcat(a, b, CompletedSize);
  }

  // ---------------------------------------------------------------------------
  // Status filter and sorting

  datatype StatusFilter = AllDownloads | InProgress | Finished

  /** The status test of the filter chips: `downloading` keeps downloading
      and paused items, `completed` keeps completed ones. */
  predicate Keeps(f: StatusFilter, d: DownloadItem) {
    match f
    case AllDownloads => true
    case InProgress => d.status == Downloading || d.status == Paused
    case Finished => d.status == Completed
  }

  function KeepsTest(f: StatusFilter): DownloadItem -> bool {
    (d: DownloadItem) => Keeps(f, d)
  }

  /** The filter step of `getFilteredDownloads`: the list in its own order
      with exactly the items the chip keeps; `all` keeps the list itself. */
  function FilterDownloads(ds: seq<DownloadItem>, f: StatusFilter): (r: seq<DownloadItem>)
    ensures Seqs.IsSubsequence(r, ds)
    ensures forall d :: d in r <==> d in ds && Keeps(f, d)
    ensures f == AllDownloads ==> r == ds
  {
    if f == AllDownloads then
      Seqs.IsSubsequenceReflexive(ds);
      ds
    else Seqs.Filter(ds, KeepsTest(f))
  }

  datatype SortOrder = ByRecent | ByName | BySize

  /** `a` may come before `b` under the order's comparator: ascending
      titles, decreasing size, most recent first. */
  predicate Before(o: SortOrder, a: DownloadItem, b: DownloadItem) {
    match o
    case ByName => Strings.LexLe(a.title, b.title)
    case BySize => a.fileSize >= b.fileSize
    case ByRecent => a.downloadedAt >= b.downloadedAt
  }

  lemma BeforeTotal(o: SortOrder, a: DownloadItem, b: DownloadItem)
    ensures Before(o, a, b) || Before(o, b, a)
  {
    if o == ByName {
      Strings.LexLeTotal(a.title, b.title);
    }
  }

  lemma BeforeTransitive(o: SortOrder, a: DownloadItem, b: DownloadItem, c: DownloadItem)
    requires Before(o, a, b) && Before(o, b, c)
    ensures Before(o, a, c)
  {
    if o == ByName {
      Strings.LexLeTransitive(a.title, b.title, c.title);
    }
  }

  predicate Sorted(o: SortOrder, s: seq<DownloadItem>) {
    forall i, j :: 0 <= i < j < |s| ==> Before(o, s[i], s[j])
  }

  /** Places `x` in front of the first element it may come before. */
  function Insert(o: SortOrder, x: DownloadItem, s: seq<DownloadItem>): (r: seq<DownloadItem>)
    requires Sorted(o, s)
    ensures Sorted(o, r)
    ensures multiset(r) == multiset(s) + multiset{x}
    decreases |s|
  {
    if s == [] then [x]
    else if Before(o, x, s[0]) then
      assert forall j :: 0 <= j < |s| ==> Before(o, x, s[j]) by {
        forall j | 0 <= j < |s|
          ensures Before(o, x, s[j])
        {
          if j > 0 {
            BeforeTransitive(o, x, s[0], s[j]);
          }
        }
      }
      [x] + s
    else
      var rest := Insert(o, x, s[1..]);
      BeforeTotal(o, x, s[0]);
      InsertHead(o, s[0], rest, x, s[1..]);
      assert s == [s[0]] + s[1..];
      [s[0]] + rest
  }

  /** An element that may come before `x` and before all of `t` may head any
      sorted arrangement of `t` with `x`. */
  lemma InsertHead(o: SortOrder, h: DownloadItem, rest: seq<DownloadItem>, x: DownloadItem, t: seq<DownloadItem>)
    requires Sorted(o, rest) && Sorted(o, [h] + t)
    requires multiset(rest) == multiset(t) + multiset{x}
    requires Before(o, h, x)
    ensures Sorted(o, [h] + rest)
  {
    forall j | 0 <= j < |rest|
      ensures Before(o, h, rest[j])
    {
      assert rest[j] in multiset(rest);
      if rest[j] != x {
        assert rest[j] in multiset(t);
        var k :| 0 <= k < |t| && t[k] == rest[j];
        assert ([h] + t)[0] == h && ([h] + t)[k + 1] == t[k];
      }
    }
    var r := [h] + rest;
    forall i, j | 0 <= i < j < |r|
      ensures Before(o, r[i], r[j])
    {
      assert r[j] == rest[j - 1];
      if i > 0 {
        assert r[i] == rest[i - 1];
      }
    }
  }

  /** The sort step of `getFilteredDownloads` (a sort by the chosen comparator): the same items, ordered by the comparator. */
  function SortDownloads(ds: seq<DownloadItem>, o: SortOrder): (r: seq<DownloadItem>)
    ensures Sorted(o, r)
    ensures multiset(r) == multiset(ds)
    ensures |r| == |ds|
    decreases |ds|
  {
    if ds == [] then []
    else
      assert ds == [ds[0]] + ds[1..];
      assert multiset(ds) == multiset{ds[0]} + multiset(ds[1..]);
      Insert(o, ds[0], SortDownloads(ds[1..], o))
  }

  /** `getFilteredDownloads`: exactly the items the chip keeps, each as often
      as in the list, ordered by the chosen comparator. */
  function FilteredDownloads(ds: seq<DownloadItem>, f: StatusFilter, o: SortOrder): (r: seq<DownloadItem>)
    ensures Sorted(o, r)
    ensures forall d :: multiset(r)[d] == if Keeps(f, d) then multiset(ds)[d] else 0
    ensures forall d :: d in r <==> d in ds && Keeps(f, d)
  {
    var kept := FilterDownloads(ds, f);
    assert forall d :: multiset(kept)[d] == if Keeps(f, d) then multiset(ds)[d] else 0;
    var r := SortDownloads(kept, o);
    assert forall d :: d in r <==> d in multiset(r);
    r
  }

  // ---------------------------------------------------------------------------
  // Status changes keyed by id

  /** The list with every item of that id given status `st`. */
  function WithStatus(ds: seq<DownloadItem>, id: string, st: DownloadStatus): (r: seq<DownloadItem>)
    ensures |r| == |ds|
    ensures forall i :: 0 <= i < |ds| ==> r[i] == if ds[i].id == id then ds[i].(status := st) else ds[i]
  {
    seq(|ds|, i requires 0 <= i < |ds| => if ds[i].id == id then ds[i].(status := st) else ds[i])
  }

  /** Pausing a downloading item and resuming it gives back the same list. */
  lemma PauseThenResume(ds: seq<DownloadItem>, id: string)
    requires forall i :: 0 <= i < |ds| && ds[i].id == id ==> ds[i].status == Downloading
    ensures WithStatus(WithStatus(ds, id, Paused), id, Downloading) == ds
  {
  }

  /** Pausing or resuming an item that is not completed leaves the size
      total alone. */
  lemma WithStatusKeepsTotal(ds: seq<DownloadItem>, id: string, st: DownloadStatus)
    requires st != Completed
    requires forall i :: 0 <= i < |ds| && ds[i].id == id ==> ds[i].status != Completed
    ensures TotalSize(WithStatus(ds, id, st)) == TotalSize(ds)
  {
    SumOfPointwise(ds, WithStatus(ds, id, st));
  }

  lemma {:induction false} SumOfPointwise(a: seq<DownloadItem>, b: seq<DownloadItem>)
    requires |a| == |b|
    requires forall i :: 0 <= i < |a| ==> CompletedSize(a[i]) == CompletedSize(b[i])
    ensures Seqs.SumOf(a, CompletedSize) == Seqs.SumOf(b, CompletedSize)
    decreases |a|
  {
    if a != [] {
      SumOfPointwise(a[1..], b[1..]);
    }
  }

  function HasOtherId(id: string): DownloadItem -> bool {
    (d: DownloadItem) => d.id != id
  }

  /** The list without the items of that id, the rest in order. */
  function WithoutId(ds: seq<DownloadItem>, id: string): (r: seq<DownloadItem>)
    ensures Seqs.IsSubsequence(r, ds)
    ensures forall d :: d in r <==> d in ds && d.id != id
    ensures forall d: DownloadItem :: d.id != id ==> multiset(r)[d] == multiset(ds)[d]
  {
    Seqs.Filter(ds, HasOtherId(id))
  }

  function NotCompletedTest(): DownloadItem -> bool {
    (d: DownloadItem) => d.status != Completed
  }

  /** The list without its completed items, the rest in order. */
  function WithoutCompleted(ds: seq<DownloadItem>): (r: seq<DownloadItem>)
    ensures Seqs.IsSubsequence(r, ds)
    ensures forall d :: d in r <==> d in ds && d.status != Completed
    ensures forall d: DownloadItem :: d.status != Completed ==> multiset(r)[d] == multiset(ds)[d]
    ensures TotalSize(r) == 0
  {
    var r := Seqs.Filter(ds, NotCompletedTest());
    NoCompletedNoSize(r);
    r
  }

  lemma {:induction false} NoCompletedNoSize(ds: seq<DownloadItem>)
    requires forall i :: 0 <= i < |ds| ==> ds[i].status != Completed
    ensures Seqs.SumOf(ds, CompletedSize) == 0
    decreases |ds|
  {
    if ds != [] {
      NoCompletedNoSize(ds[1..]);
    }
  }

  /** `playVideo`: the route to the video player, only for a completed item. */
  function PlayRoute(d: DownloadItem): (r: Option<string>)
    ensures r.Some? <==> d.status == Completed
    ensures r.Some? ==> r.value == "/video/" + d.videoId
  {
    if d.status == Completed then Some("/video/" + d.videoId) else None
  }

  // ---------------------------------------------------------------------------
  // Duration text

  /** `formatDuration`: "{h}:{mm}:00" with at least one whole hour, else
      "{m}:00"; the seconds field is always "00". */
  function FormatDuration(seconds: int): (r: string)
    ensures |r| >= 4 && r[|r| - 3..] == ":00"
  {
    var hours := JsNumber.FloorDiv(seconds, 3600);
    var minutes := JsNumber.FloorDiv(JsNumber.Rem(seconds, 3600), 60);
    if hours > 0 then Strings.IntToString(hours) + ":" + Strings.PadStart2(Strings.IntToString(minutes)) + ":00"
    else Strings.IntToString(minutes) + ":00"
  }

  /** For a non-negative duration the text shows the whole hours and the
      whole minutes left over, in 0..59, dropping the seconds. */
  lemma FormatDurationFields(seconds: nat)
    ensures var h := seconds / 3600; var m := (seconds % 3600) / 60;
      && 0 <= m < 60
      && h * 3600 + m * 60 <= seconds < h * 3600 + m * 60 + 60
      && FormatDuration(seconds) ==
           if h > 0 then Strings.NatToString(h) + ":" + Strings.PadStart2(Strings.NatToString(m)) + ":00"
           else Strings.NatToString(m) + ":00"
  {
  }

  // ---------------------------------------------------------------------------
  // The screen's state

  class DownloadList {
    var downloads: seq<DownloadItem>
    var sortBy: SortOrder
    var filter: StatusFilter

    /** The screen starts with no downloads, sorted by recency, unfiltered. */
    constructor ()
      ensures downloads == [] && sortBy == ByRecent && filter == AllDownloads
    {
      downloads := [];
      sortBy := ByRecent;
      filter := AllDownloads;
    }

    /** `pauseDownload`: the items of that id become paused; every other
        item and every other field is unchanged, and so is the length. */
    method PauseDownload(id: string)
      modifies this
      ensures downloads == WithStatus(old(downloads), id, Paused)
      ensures sortBy == old(sortBy) && filter == old(filter)
    {
      downloads := WithStatus(downloads, id, Paused);
    }

    /** `resumeDownload`: the items of that id go back to downloading. */
    method ResumeDownload(id: string)
      modifies this
      ensures downloads == WithStatus(old(downloads), id, Downloading)
      ensures sortBy == old(sortBy) && filter == old(filter)
    {
      downloads := WithStatus(downloads, id, Downloading);
    }

    /** `cancelDownload` once confirmed: the items of that id are gone, the
        rest keep their order. */
    method CancelDownload(id: string)
      modifies this
      ensures downloads == WithoutId(old(downloads), id)
      ensures sortBy == old(sortBy) && filter == old(filter)
    {
      downloads := WithoutId(downloads, id);
    }

    /** `deleteDownload` once confirmed: the same effect as cancelling. */
    method DeleteDownload(id: string)
      modifies this
      ensures downloads == WithoutId(old(downloads), id)
      ensures sortBy == old(sortBy) && filter == old(filter)
    {
      downloads := WithoutId(downloads, id);
    }

    /** `clearCompleted` once confirmed: every completed item is gone, so the
        size total drops to zero. */
    method ClearCompleted()
      modifies this
      ensures downloads == WithoutCompleted(old(downloads))
      ensures TotalSize(downloads) == 0
      ensures sortBy == old(sortBy) && filter == old(filter)
    {
      downloads := WithoutCompleted(downloads);
    }

    /** `getFilteredDownloads`. `Array.prototype.sort` sorts in place, and
        with the `all` chip the array it sorts is the state's own, so the
        stored list comes out in the sorted order too. */
    method GetFilteredDownloads() returns (r: seq<DownloadItem>)
      modifies this
      ensures r == FilteredDownloads(old(downloads), filter, sortBy)
      ensures filter == AllDownloads ==> downloads == r
      ensures filter != AllDownloads ==> downloads == old(downloads)
      ensures multiset(downloads) == multiset(old(downloads))
      ensures sortBy == old(sortBy) && filter == old(filter)
    {
      r := FilteredDownloads(downloads, filter, sortBy);
      if filter == AllDownloads {
        downloads := r;
      }
    }
  }
}
