/** The persistence logic of `services/StorageService.ts`. The secure
    key/value store is the map `store` from key to stored value; a typed value
    stands for the JSON text the service writes under that key, and a key
    that is absent, or holds a value of another shape, reads as the empty
    default the service falls back to. */
module Storage {
  import opened Wrappers
  import Seqs

  /** The most entries the watch history keeps. */
  const HistoryCap: nat := 100

  const SettingsKey: string := "userSettings"
  const WatchHistoryKey: string := "watchHistory"
  const ProfileKey: string := "userProfile"
  const AuthTokenKey: string := "authToken"
  const DownloadedVideosKey: string := "downloadedVideos"
  const FavoritesKey: string := "favorites"

  /** The keys `clearAllData` deletes, in its order. */
  const ClearedKeys: seq<string> :=
    [SettingsKey, WatchHistoryKey, ProfileKey, AuthTokenKey, DownloadedVideosKey, FavoritesKey]

  /** One watched video; `progress` is the fraction watched, carried as is. */
  datatype WatchHistoryItem = WatchHistoryItem(
    id: string, videoId: string, title: string, thumbnail: string,
    duration: int, watchedAt: int, progress: real, category: string, genre: Option<string>)

  /** An entry of the downloaded-video map; `metadata` is the caller's
      object, carried as its JSON text. */
  datatype DownloadRecord = DownloadRecord(localPath: string, metadata: string, downloadedAt: int)

  datatype StoredValue =
    | HistoryValue(history: seq<WatchHistoryItem>)
    | FavoritesValue(favorites: seq<string>)
    | ProgressValue(videoId: string, progress: real, duration: real, updatedAt: int)
    | DownloadsValue(downloads: map<string, DownloadRecord>)
    | TextValue(text: string)

  /** What `getVideoProgress` hands back. */
  datatype Progress = Progress(progress: real, duration: real)

  /** The key under which one video's playback position is kept. */
  function ProgressKey(videoId: string): (k: string)
    ensures |k| == |videoId| + 9 && k[..9] == "progress_" && k[9..] == videoId
  {
    "progress_" + videoId
  }

  /** Different videos keep their positions under different keys. */
  lemma ProgressKeyInjective(v: string, w: string)
    requires ProgressKey(v) == ProgressKey(w)
    ensures v == w
  {
    assert v == ProgressKey(v)[9..];
  }

  /** `clearAllData` names six different keys. */
  lemma ClearedKeysAreSix()
    ensures |ClearedKeys| == 6
    ensures forall i, j :: 0 <= i < j < |ClearedKeys| ==> ClearedKeys[i] != ClearedKeys[j]
  {
  }

  /** No progress key is one of the keys `clearAllData` deletes. */
  lemma ProgressKeysAreNotCleared(videoId: string)
    ensures ProgressKey(videoId) !in ClearedKeys
  {
    var k := ProgressKey(videoId);
    assert k[0] == 'p' && k[1] == 'r';
  }

  // ---------------------------------------------------------------------------
  // Watch history

  predicate UniqueVideoIds(h: seq<WatchHistoryItem>) {
    forall i, j :: 0 <= i < j < |h| ==> h[i].videoId != h[j].videoId
  }

  /** `findIndex` on the video id: the first entry for that video, if any. */
  function FindIndex(h: seq<WatchHistoryItem>, videoId: string): (r: Option<nat>)
    ensures r.Some? ==> r.value < |h| && h[r.value].videoId == videoId
    ensures r.Some? ==> forall j :: 0 <= j < r.value ==> h[j].videoId != videoId
    ensures r.None? <==> forall j :: 0 <= j < |h| ==> h[j].videoId != videoId
    decreases |h|
  {
    if h == [] then None
    else if h[0].videoId == videoId then Some(0)
    else
      match FindIndex(h[1..], videoId)
      case None => None
      case Some(i) => Some(i + 1)
  }

  /** `{ ...existing, ...item, watchedAt: now }`: every field from the new
      item, except that the time is now and a genre the item lacks comes
      from the existing entry. */
  function Merge(existing: WatchHistoryItem, item: WatchHistoryItem, nowMs: int): (m: WatchHistoryItem)
    ensures m.(watchedAt := item.watchedAt, genre := item.genre) == item
    ensures m.watchedAt == nowMs
    ensures m.genre == if item.genre.Some? then item.genre else existing.genre
  {
    item.(watchedAt := nowMs, genre := if item.genre.Some? then item.genre else existing.genre)
  }

  function Min(a: int, b: int): int {
    if a <= b then a else b
  }

  /** The history `addToWatchHistory` writes back: the entry for that video
      updated where it stands, or the item put in front, then cut to 100. */
  function AddedToHistory(h: seq<WatchHistoryItem>, item: WatchHistoryItem, nowMs: int): (r: seq<WatchHistoryItem>)
    ensures |r| <= HistoryCap
    ensures FindIndex(h, item.videoId).None? ==>
      |r| == Min(|h| + 1, HistoryCap) && r[0] == item &&
      forall i :: 1 <= i < |r| ==> r[i] == h[i - 1]
    ensures FindIndex(h, item.videoId).Some? ==>
      var k := FindIndex(h, item.videoId).value;
      |r| == Min(|h|, HistoryCap) &&
      (k < HistoryCap ==> r[k] == Merge(h[k], item, nowMs)) &&
      forall i :: 0 <= i < |r| && i != k ==> r[i] == h[i]
  {
    var updated := match FindIndex(h, item.videoId)
      case Some(k) => h[k := Merge(h[k], item, nowMs)]
      case None => [item] + h;
    updated[..Min(|updated|, HistoryCap)]
  }

  /** After the write the video is on the list, as long as the list read
      back was within the cap. */
  lemma AddedVideoIsListed(h: seq<WatchHistoryItem>, item: WatchHistoryItem, nowMs: int)
    requires |h| <= HistoryCap
    ensures exists i :: 0 <= i < |AddedToHistory(h, item, nowMs)| && AddedToHistory(h, item, nowMs)[i].videoId == item.videoId
  {
    var r := AddedToHistory(h, item, nowMs);
    match FindIndex(h, item.videoId)
    case None =>
      assert r[0].videoId == item.videoId;
    case Some(k) =>
      assert r[k].videoId == item.videoId;
  }

  /** A history without repeated videos stays so. */
  lemma AddKeepsVideoIdsUnique(h: seq<WatchHistoryItem>, item: WatchHistoryItem, nowMs: int)
    requires UniqueVideoIds(h)
    ensures UniqueVideoIds(AddedToHistory(h, item, nowMs))
  {
    var r := AddedToHistory(h, item, nowMs);
    match FindIndex(h, item.videoId)
    case None =>
      forall i, j | 0 <= i < j < |r|
        ensures r[i].videoId != r[j].videoId
      {
        if i > 0 {
          assert r[i] == h[i - 1] && r[j] == h[j - 1];
        }
      }
    case Some(k) =>
      forall i, j | 0 <= i < j < |r|
        ensures r[i].videoId != r[j].videoId
      {
        assert r[i].videoId == h[i].videoId && r[j].videoId == h[j].videoId;
      }
  }

  /** Watching the same video again updates its entry in place: the second
      write finds the entry the first one made and the list does not grow. */
  lemma AddTwiceUpdatesInPlace(h: seq<WatchHistoryItem>, item: WatchHistoryItem, t1: int, t2: int)
    requires |h| < HistoryCap
    ensures var once := AddedToHistory(h, item, t1);
      FindIndex(once, item.videoId).Some? &&
      |AddedToHistory(once, item, t2)| == |once|
  {
    var once := AddedToHistory(h, item, t1);
    match FindIndex(h, item.videoId)
    case None =>
      assert once[0].videoId == item.videoId;
    case Some(k) =>
      assert once[k].videoId == item.videoId;
  }

  function OtherVideo(videoId: string): WatchHistoryItem -> bool {
    (e: WatchHistoryItem) => e.videoId != videoId
  }

  function OtherId(id: string): string -> bool {
    (x: string) => x != id
  }

  // ---------------------------------------------------------------------------
  // Favourites

  predicate NoDuplicates(s: seq<string>) {
    forall i, j :: 0 <= i < j < |s| ==> s[i] != s[j]
  }

  /** The favourites after `addToFavorites`: the id appended when absent. */
  function AddedFavorite(f: seq<string>, id: string): (r: seq<string>)
    ensures id in r
    ensures forall x :: x in r <==> x in f || x == id
    ensures id in f ==> r == f
    ensures id !in f ==> r == f + [id]
    ensures NoDuplicates(f) ==> NoDuplicates(r)
  {
    if id in f then f else f + [id]
  }

  /** Adding a favourite twice is adding it once. */
  lemma AddFavoriteIdempotent(f: seq<string>, id: string)
    ensures AddedFavorite(AddedFavorite(f, id), id) == AddedFavorite(f, id)
  {
  }

  /** Removing a favourite just added gives back a list without it, the
      others in their order. */
  lemma RemoveUndoesAdd(f: seq<string>, id: string)
    requires id !in f
    ensures Seqs.Filter(AddedFavorite(f, id), OtherId(id)) == f
  {
    FilterAppendDropped(f, id);
  }

  lemma {:induction false} FilterAppendDropped(f: seq<string>, id: string)
    requires id !in f
    ensures Seqs.Filter(f + [id], OtherId(id)) == f
    decreases |f|
  {
    if f == [] {
      assert [] + [id] == [id];
      assert [id][1..] == [];
    } else {
      assert (f + [id])[0] == f[0] && (f + [id])[1..] == f[1..] + [id];
      FilterAppendDropped(f[1..], id);
      assert f == [f[0]] + f[1..];
    }
  }

  // ---------------------------------------------------------------------------
  // The service over the store

  class StorageService {
    var store: map<string, StoredValue>

    /** What `getWatchHistory` reads: the stored list, or an empty one. */
    function StoredHistory(): seq<WatchHistoryItem>
      reads this
    {
      if WatchHistoryKey in store && store[WatchHistoryKey].HistoryValue? then store[WatchHistoryKey].history else []
    }

    /** What `getFavorites` reads. */
    function StoredFavorites(): seq<string>
      reads this
    {
      if FavoritesKey in store && store[FavoritesKey].FavoritesValue? then store[FavoritesKey].favorites else []
    }

    /** What `getDownloadedVideos` reads. */
    function StoredDownloads(): map<string, DownloadRecord>
      reads this
    {
      if DownloadedVideosKey in store && store[DownloadedVideosKey].DownloadsValue? then store[DownloadedVideosKey].downloads else map[]
    }

    /** What `getVideoProgress` reads for one video. */
    function VideoProgress(videoId: string): Option<Progress>
      reads this
    {
      var k := ProgressKey(videoId);
      if k in store && store[k].ProgressValue? then Some(Progress(store[k].progress, store[k].duration)) else None
    }

    /** The history is within its cap. */
    predicate Valid()
      reads this
    {
      |StoredHistory()| <= HistoryCap
    }

    constructor (initial: map<string, StoredValue>)
      ensures store == initial
    {
      store := initial;
    }

    method GetWatchHistory() returns (h: seq<WatchHistoryItem>)
      ensures h == StoredHistory()
    {
      if WatchHistoryKey in store && store[WatchHistoryKey].HistoryValue? {
        h := store[WatchHistoryKey].history;
      } else {
        h := [];
      }
    }

    method GetFavorites() returns (f: seq<string>)
      ensures f == StoredFavorites()
    {
      if FavoritesKey in store && store[FavoritesKey].FavoritesValue? {
        f := store[FavoritesKey].favorites;
      } else {
        f := [];
      }
    }

    method GetDownloadedVideos() returns (d: map<string, DownloadRecord>)
      ensures d == StoredDownloads()
    {
      if DownloadedVideosKey in store && store[DownloadedVideosKey].DownloadsValue? {
        d := store[DownloadedVideosKey].downloads;
      } else {
        d := map[];
      }
    }

    /** `addToWatchHistory`: writes the updated history and nothing else;
        the cap holds afterwards whatever was stored before. */
    method AddToWatchHistory(item: WatchHistoryItem, nowMs: int)
      modifies this
      ensures store == old(store)[WatchHistoryKey := HistoryValue(AddedToHistory(old(StoredHistory()), item, nowMs))]
      ensures Valid()
    {
      var history := GetWatchHistory();
      var existingIndex := FindIndex(history, item.videoId);
      if existingIndex.Some? {
        history := history[existingIndex.value := Merge(history[existingIndex.value], item, nowMs)];
      } else {
        history := [item] + history;
      }
      var trimmed := history[..Min(|history|, HistoryCap)];
      store := store[WatchHistoryKey := HistoryValue(trimmed)];
    }

    /** `clearWatchHistory`: the history key is gone. */
    method ClearWatchHistory()
      modifies this
      ensures store == old(store) - {WatchHistoryKey}
      ensures StoredHistory() == [] && Valid()
    {
      store := store - {WatchHistoryKey};
    }

    /** `removeFromWatchHistory`: every entry for that video goes, the rest
        keep their order. */
    method RemoveFromWatchHistory(videoId: string)
      modifies this
      ensures store == old(store)[WatchHistoryKey := HistoryValue(Seqs.Filter(old(StoredHistory()), OtherVideo(videoId)))]
      ensures forall e :: e in StoredHistory() <==> e in old(StoredHistory()) && e.videoId != videoId
      ensures Seqs.IsSubsequence(StoredHistory(), old(StoredHistory()))
      ensures old(Valid()) ==> Valid()
    {
      var history := GetWatchHistory();
      var filtered := Seqs.Filter(history, OtherVideo(videoId));
      store := store[WatchHistoryKey := HistoryValue(filtered)];
    }

    /** `addToFavorites`: the id appended and written back when absent; when
        present nothing is written at all. */
    method AddToFavorites(videoId: string)
      modifies this
      ensures videoId in old(StoredFavorites()) ==> store == old(store)
      ensures videoId !in old(StoredFavorites()) ==>
        store == old(store)[FavoritesKey := FavoritesValue(AddedFavorite(old(StoredFavorites()), videoId))]
      ensures StoredFavorites() == AddedFavorite(old(StoredFavorites()), videoId)
    {
      var favorites := GetFavorites();
      if videoId !in favorites {
        favorites := favorites + [videoId];
        store := store[FavoritesKey := FavoritesValue(favorites)];
      }
    }

    /** `removeFromFavorites`: every occurrence of the id goes. */
    method RemoveFromFavorites(videoId: string)
      modifies this
      ensures store == old(store)[FavoritesKey := FavoritesValue(Seqs.Filter(old(StoredFavorites()), OtherId(videoId)))]
      ensures videoId !in StoredFavorites()
      ensures forall x :: x in StoredFavorites() <==> x in old(StoredFavorites()) && x != videoId
    {
      var favorites := GetFavorites();
      var filtered := Seqs.Filter(favorites, OtherId(videoId));
      store := store[FavoritesKey := FavoritesValue(filtered)];
    }

    /** `saveVideoProgress`: one write under the video's own key; reading it
        back gives the saved pair and no other video's position moves. */
    method SaveVideoProgress(videoId: string, progress: real, duration: real, nowMs: int)
      modifies this
      ensures store == old(store)[ProgressKey(videoId) := ProgressValue(videoId, progress, duration, nowMs)]
      ensures VideoProgress(videoId) == Some(Progress(progress, duration))
      ensures forall v :: v != videoId ==> VideoProgress(v) == old(VideoProgress(v))
      ensures StoredHistory() == old(StoredHistory()) && StoredFavorites() == old(StoredFavorites())
      ensures StoredDownloads() == old(StoredDownloads())
    {
      ProgressKeysAreNotCleared(videoId);
      store := store[ProgressKey(videoId) := ProgressValue(videoId, progress, duration, nowMs)];
      forall v | v != videoId
        ensures ProgressKey(v) != ProgressKey(videoId)
      {
        if ProgressKey(v) == ProgressKey(videoId) {
          ProgressKeyInjective(v, videoId);
        }
      }
    }

    /** `getVideoProgress`. */
    method GetVideoProgress(videoId: string) returns (r: Option<Progress>)
      ensures r == VideoProgress(videoId)
    {
      var k := ProgressKey(videoId);
      if k in store && store[k].ProgressValue? {
        r := Some(Progress(store[k].progress, store[k].duration));
      } else {
        r := None;
      }
    }

    /** `saveDownloadedVideo`: the map gains or replaces the entry for that
        video; no other entry changes. */
    method SaveDownloadedVideo(videoId: string, localPath: string, metadata: string, nowMs: int)
      modifies this
      ensures store == old(store)[DownloadedVideosKey := DownloadsValue(old(StoredDownloads())[videoId := DownloadRecord(localPath, metadata, nowMs)])]
      ensures StoredDownloads().Keys == old(StoredDownloads()).Keys + {videoId}
      ensures forall v :: v in StoredDownloads() && v != videoId ==> StoredDownloads()[v] == old(StoredDownloads())[v]
    {
      var downloads := GetDownloadedVideos();
      downloads := downloads[videoId := DownloadRecord(localPath, metadata, nowMs)];
      store := store[DownloadedVideosKey := DownloadsValue(downloads)];
    }

    /** `removeDownloadedVideo`: the entry for that video is gone; no other
        entry changes. */
    method RemoveDownloadedVideo(videoId: string)
      modifies this
      ensures store == old(store)[DownloadedVideosKey := DownloadsValue(old(StoredDownloads()) - {videoId})]
      ensures StoredDownloads().Keys == old(StoredDownloads()).Keys - {videoId}
      ensures forall v :: v in StoredDownloads() ==> StoredDownloads()[v] == old(StoredDownloads())[v]
    {
      var downloads := GetDownloadedVideos();
      downloads := downloads - {videoId};
      store := store[DownloadedVideosKey := DownloadsValue(downloads)];
    }

    /** `clearAllData`: deletes the six keys one by one; every other key,
        every video's position among them, stays. */
    method ClearAllData()
      modifies this
      ensures store == old(store) - (set k | k in ClearedKeys)
      ensures forall v :: VideoProgress(v) == old(VideoProgress(v))
      ensures StoredHistory() == [] && StoredFavorites() == [] && StoredDownloads() == map[]
    {
      for i := 0 to |ClearedKeys|
        invariant store == old(store) - (set k | k in ClearedKeys[..i])
      {
        store := store - {ClearedKeys[i]};
      }
      assert ClearedKeys[..|ClearedKeys|] == ClearedKeys;
      forall v
        ensures ProgressKey(v) !in (set k | k in ClearedKeys)
      {
        ProgressKeysAreNotCleared(v);
      }
    }
  }
}
