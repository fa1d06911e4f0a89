/** The player-local state of `components/VideoPlayer.tsx`: the play, controls
    and like toggles, the comment box, the `m:ss` clock text and the episode
    list with its lock rule. Calls into the video element, animations and
    timers are not part of this model. */
module Player {
  import opened Wrappers
  import Strings
  import JsNumber

  /** `formatTime`: whole minutes, a colon, and the seconds left over padded
      to two digits. */
  function FormatClock(seconds: int): (r: string)
    ensures |r| >= 4
  {
    var mins := JsNumber.FloorDiv(seconds, 60);
    var secs := JsNumber.Rem(seconds, 60);
    Strings.IntToString(mins) + ":" + Strings.PadStart2(Strings.IntToString(secs))
  }

  /** For a non-negative time the clock text reads back to the same number
      of seconds: the part before the colon is the whole minutes, the two
      digits after it the seconds in 0..59. */
  lemma FormatClockRoundTrip(seconds: nat)
    ensures var r := FormatClock(seconds); var i := |r| - 3;
      && Strings.AllDigits(r[..i]) && Strings.AllDigits(r[i + 1..]) && |r[..i]| >= 1
      && Strings.ParseNat(r[..i]) == seconds / 60
      && Strings.ParseNat(r[i + 1..]) == seconds % 60
      && Strings.ParseNat(r[..i]) * 60 + Strings.ParseNat(r[i + 1..]) == seconds
  {
    var r := FormatClock(seconds);
    var m := Strings.NatToString(seconds / 60);
    var p := Strings.PadStart2(Strings.NatToString(seconds % 60));
    ClockShape(seconds);
    TwoDigits(seconds % 60);
    SplitAtColon(m, p);
    Strings.ParseNatToString(seconds / 60);
  }

  lemma ClockShape(seconds: nat)
    ensures FormatClock(seconds) ==
      Strings.NatToString(seconds / 60) + ":" + Strings.PadStart2(Strings.NatToString(seconds % 60))
  {
  }

  lemma SplitAtColon(m: string, p: string)
    requires |p| == 2
    ensures var r := m + ":" + p; r[..|r| - 3] == m && r[|r| - 2..] == p
  {
    var r := m + ":" + p;
    assert r[..|m|] == m;
    assert r[|m| + 1..] == p;
  }

  /** A number below 60 is written in exactly two digits after padding, and
      reads back to itself. */
  lemma TwoDigits(d: nat)
    requires d < 60
    ensures |Strings.PadStart2(Strings.NatToString(d))| == 2
    ensures Strings.AllDigits(Strings.PadStart2(Strings.NatToString(d)))
    ensures Strings.ParseNat(Strings.PadStart2(Strings.NatToString(d))) == d
  {
    var p := Strings.PadStart2(Strings.NatToString(d));
    if d < 10 {
      assert p == "0" + [Strings.DigitChar(d)];
      assert p[..1] == "0";
      Strings.DigitRoundTrip(d);
    } else {
      assert Strings.NatToString(d) == Strings.NatToString(d / 10) + [Strings.DigitChar(d % 10)];
      Strings.ParseNatToString(d);
    }
  }

  // ---------------------------------------------------------------------------
  // Episode list

  /** `video.totalEpisodes || 12`, then the length `Array.from` makes of it:
      a missing or zero count shows 12 rows, a negative one none. */
  function EpisodeCount(totalEpisodes: Option<int>): (n: nat)
    ensures totalEpisodes.None? || totalEpisodes.value == 0 ==> n == 12
    ensures totalEpisodes.Some? && totalEpisodes.value > 0 ==> n == totalEpisodes.value
    ensures totalEpisodes.Some? && totalEpisodes.value < 0 ==> n == 0
  {
    match totalEpisodes
    case None => 12
    case Some(t) => if t == 0 then 12 else if t < 0 then 0 else t
  }

  /** `video.episode || 1`: a missing or zero episode counts as episode 1. */
  function CurrentEpisode(episode: Option<int>): (c: int)
    ensures episode.None? || episode.value == 0 ==> c == 1
    ensures c != 0
  {
    match episode
    case None => 1
    case Some(e) => if e == 0 then 1 else e
  }

  datatype EpisodeRow = EpisodeRow(number: int, title: string, isCurrent: bool, isLocked: bool)

  /** The rows of the episodes sheet: episode i+1 is highlighted when it is
      the current one and shows a lock exactly when it comes after it. */
  function EpisodeRows(title: string, totalEpisodes: Option<int>, episode: Option<int>): (r: seq<EpisodeRow>)
    ensures |r| == EpisodeCount(totalEpisodes)
    ensures forall i :: 0 <= i < |r| ==> r[i].number == i + 1
    ensures forall i :: 0 <= i < |r| ==> (r[i].isLocked <==> i + 1 > CurrentEpisode(episode))
    ensures forall i :: 0 <= i < |r| ==> (r[i].isCurrent <==> i + 1 == CurrentEpisode(episode))
    ensures forall i :: 0 <= i < |r| ==> r[i].title == title + " - Part " + Strings.NatToString(i + 1)
  {
    var current := CurrentEpisode(episode);
    seq(EpisodeCount(totalEpisodes), i requires 0 <= i =>
      EpisodeRow(i + 1, title + " - Part " + Strings.NatToString(i + 1), current == i + 1, i + 1 > current))
  }

  /** The locks form a tail of the list: the current episode and every one
      before it are open, every one after it is locked, and the first episode
      is open unless the current number is negative. */
  lemma LocksFormATail(title: string, totalEpisodes: Option<int>, episode: Option<int>, i: int, j: int)
    requires 0 <= i <= j < |EpisodeRows(title, totalEpisodes, episode)|
    ensures EpisodeRows(title, totalEpisodes, episode)[i].isLocked ==> EpisodeRows(title, totalEpisodes, episode)[j].isLocked
    ensures CurrentEpisode(episode) >= 1 ==> !EpisodeRows(title, totalEpisodes, episode)[0].isLocked
  {
  }

  // ---------------------------------------------------------------------------
  // The player's state

  datatype Comment = Comment(id: string, user: string, text: string, time: string, likes: int)

  /** The comment `handleAddComment` makes of the trimmed draft. */
  function NewComment(text: string, nowMs: int): Comment {
    Comment(Strings.IntToString(nowMs), "You", text, "now", 0)
  }

  class PlayerState {
    var isPlaying: bool
    var showControls: bool
    var isLiked: bool
    var comments: seq<Comment>
    var newComment: string
    const likes: int

    /** The like count shown beside the heart. */
    function LikesDisplayed(): (n: int)
      reads this
      ensures n == likes + 1 <==> isLiked
      ensures n == likes <==> !isLiked
    {
      likes + (if isLiked then 1 else 0)
    }

    /** A fresh player for a video with that many likes: playing, controls
        hidden, not liked, the three sample comments and an empty draft. */
    constructor (likes: int)
      ensures isPlaying && !showControls && !isLiked && newComment == ""
      ensures |comments| == 3 && this.likes == likes
    {
      isPlaying := true;
      showControls := false;
      isLiked := false;
      comments := [
        Comment("1", "Sarah Kim", "This is amazing! 😍", "2 min ago", 12),
        Comment("2", "John Lee", "Love this series!", "5 min ago", 8),
        Comment("3", "Maria Garcia", "Can't wait for the next episode!", "10 min ago", 15)
      ];
      newComment := "";
      this.likes := likes;
    }

    /** `togglePlayPause`: flips `isPlaying`, nothing else. */
    method TogglePlayPause()
      modifies this
      ensures isPlaying == !old(isPlaying)
      ensures showControls == old(showControls) && isLiked == old(isLiked)
      ensures comments == old(comments) && newComment == old(newComment)
    {
      isPlaying := !isPlaying;
    }

    /** `handleScreenPress`: flips `showControls`, nothing else. */
    method HandleScreenPress()
      modifies this
      ensures showControls == !old(showControls)
      ensures isPlaying == old(isPlaying) && isLiked == old(isLiked)
      ensures comments == old(comments) && newComment == old(newComment)
    {
      showControls := !showControls;
    }

    /** `handleLike`: flips `isLiked`, so the shown count moves by one. */
    method HandleLike()
      modifies this
      ensures isLiked == !old(isLiked)
      ensures LikesDisplayed() == if old(isLiked) then old(LikesDisplayed()) - 1 else old(LikesDisplayed()) + 1
      ensures isPlaying == old(isPlaying) && showControls == old(showControls)
      ensures comments == old(comments) && newComment == old(newComment)
    {
      isLiked := !isLiked;
    }

    /** The comment box's `onChangeText`. */
    method EditComment(text: string)
      modifies this
      ensures newComment == text
      ensures isPlaying == old(isPlaying) && showControls == old(showControls)
      ensures isLiked == old(isLiked) && comments == old(comments)
    {
      newComment := text;
    }

    /** `handleAddComment`: a draft that is only white space changes nothing;
        otherwise the trimmed draft becomes a new first comment by "You" with
        no likes, and the draft is cleared. */
    method HandleAddComment(nowMs: int)
      modifies this
      ensures Strings.AllWhitespace(old(newComment)) ==>
        comments == old(comments) && newComment == old(newComment)
      ensures !Strings.AllWhitespace(old(newComment)) ==>
        comments == [NewComment(Strings.Trim(old(newComment)), nowMs)] + old(comments) &&
        newComment == ""
      ensures |comments| == |old(comments)| + (if Strings.AllWhitespace(old(newComment)) then 0 else 1)
      ensures comments != old(comments) ==>
        comments[0].text != "" && !Strings.IsJsWhitespace(comments[0].text[0]) &&
        comments[0].user == "You" && comments[0].likes == 0 && comments[1..] == old(comments)
      ensures isPlaying == old(isPlaying) && showControls == old(showControls) && isLiked == old(isLiked)
    {
      var text := Strings.Trim(newComment);
      if text != "" {
        comments := [NewComment(text, nowMs)] + comments;
        newComment := "";
      }
    }
  }
}
