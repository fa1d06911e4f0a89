/** The static catalogue of `data/videos.js`: the daily check-in schedule, the
    ad reward, the coin packs and the episode tables of the sample videos. */
module Catalog {
  import opened Wrappers
  import Seqs

  /** One slot of the seven-day check-in schedule. */
  datatype CheckInReward = CheckInReward(day: int, coins: int, bonus: bool)

  /** `rewards.dailyCheckIn`: seven slots numbered 1 to 7, each worth more
      than the one before, only the last flagged as the bonus day. */
  function DailyCheckIn(): (r: seq<CheckInReward>)
    ensures |r| == 7
    ensures forall i :: 0 <= i < |r| ==> r[i].day == i + 1 && r[i].coins > 0
    ensures forall i, j :: 0 <= i < j < |r| ==> r[i].coins < r[j].coins
    ensures forall i :: 0 <= i < |r| ==> (r[i].bonus <==> r[i].day == 7)
  {
    [ CheckInReward(1, 10, false),
      CheckInReward(2, 15, false),
      CheckInReward(3, 20, false),
      CheckInReward(4, 25, false),
      CheckInReward(5, 30, false),
      CheckInReward(6, 40, false),
      CheckInReward(7, 50, true) ]
  }

  function Coins(r: CheckInReward): int {
    r.coins
  }

  /** Checking in on seven consecutive days earns 190 coins in all. */
  lemma FullCycleCoins()
    ensures Seqs.SumOf(DailyCheckIn(), Coins) == 190
  {
    var s := DailyCheckIn();
    assert Seqs.SumOf(s[6..], Coins) == 50;
    assert Seqs.SumOf(s[5..], Coins) == 90;
    assert Seqs.SumOf(s[4..], Coins) == 120;
    assert Seqs.SumOf(s[3..], Coins) == 145;
    assert Seqs.SumOf(s[2..], Coins) == 165;
    assert Seqs.SumOf(s[1..], Coins) == 180;
  }

  /** `rewards.watchAd`; `dailyLimit: null` means no limit in the catalogue. */
  datatype AdReward = AdReward(coinsPerAd: int, unlockEpisodes: int, dailyLimit: Option<int>)

  const WatchAd: AdReward := AdReward(9, 1, None)

  /** A coin pack; prices are whole currency units here. */
  datatype CoinPack = CoinPack(id: int, coins: int, price: int, originalPrice: int, discount: int)

  /** `coinPacks`: each discount is the saving on the original price, ids are
      distinct and the coin amount grows with the id. */
  function CoinPacks(): (r: seq<CoinPack>)
    ensures |r| == 4
    ensures forall i :: 0 <= i < |r| ==>
      r[i].discount == r[i].originalPrice - r[i].price && r[i].price < r[i].originalPrice
    ensures forall i, j :: 0 <= i < |r| && 0 <= j < |r| && i != j ==> r[i].id != r[j].id
    ensures forall i, j :: 0 <= i < |r| && 0 <= j < |r| && r[i].id < r[j].id ==> r[i].coins < r[j].coins
  {
    [ CoinPack(1, 100, 90, 99, 9),
      CoinPack(2, 500, 450, 499, 49),
      CoinPack(3, 1000, 900, 999, 99),
      CoinPack(4, 3000, 2700, 2999, 299) ]
  }

  datatype Episode = Episode(id: int, title: string, duration: string, isLocked: bool, watchedTime: int)

  /** The fields of a sample video that the rest of the model reads. */
  datatype SampleVideo = SampleVideo(
    id: string, title: string, category: string, genre: string,
    isLocked: bool, episodes: seq<Episode>, totalEpisodes: int,
    likes: int, downloadable: bool)

  /** The episode table of a video: episodes numbered 1, 2, ... with no gap, no
      more of them than `totalEpisodes`, the first one free, locked ones
      forming a suffix and never partly watched. */
  predicate WellFormedEpisodes(v: SampleVideo) {
    var eps := v.episodes;
    && 1 <= |eps| <= v.totalEpisodes
    && (forall i :: 0 <= i < |eps| ==> eps[i].id == i + 1)
    && !eps[0].isLocked
    && (forall i, j :: 0 <= i < j < |eps| && eps[i].isLocked ==> eps[j].isLocked)
    && (forall i :: 0 <= i < |eps| && eps[i].isLocked ==> eps[i].watchedTime == 0)
  }

  /** `sampleVideos`, restricted to the fields above. */
  function SampleVideos(): (r: seq<SampleVideo>)
    ensures |r| == 4
    ensures forall i :: 0 <= i < |r| ==> WellFormedEpisodes(r[i])
    ensures forall i, j :: 0 <= i < j < |r| ==> r[i].id != r[j].id
  {
    [ SampleVideo("1", "REEL REVENGE", "top1", "Drama", false,
        [ Episode(1, "Episode 1", "25:30", false, 0),
          Episode(2, "Episode 2", "23:45", false, 1250),
          Episode(3, "Episode 3", "26:15", true, 0),
          Episode(4, "Episode 4", "24:20", true, 0) ],
        12, 1200, true),
      SampleVideo("2", "LOVER", "top2", "Romance", false,
        [ Episode(1, "First Love", "28:30", false, 1710),
          Episode(2, "Heartbreak", "25:45", false, 0),
          Episode(3, "New Beginning", "27:15", true, 0) ],
        8, 2500, true),
      SampleVideo("3", "Falling for You", "top3", "Romance", false,
        [ Episode(1, "Meet Cute", "22:30", false, 0),
          Episode(2, "First Date", "24:45", true, 0) ],
        6, 890, false),
      SampleVideo("4", "THE NOTEBOOK", "popular", "Romance", true,
        [ Episode(1, "Young Love", "30:30", false, 1830),
          Episode(2, "Separation", "28:45", true, 0),
          Episode(3, "Reunion", "32:15", true, 0) ],
        10, 5600, true) ]
  }
}
