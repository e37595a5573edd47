/** The like toggle of one video (components/LikeButton.tsx). The state moves
    only after the store confirmed the insert or delete; the decrement is
    floored at zero. */
module Likes {
  import opened Remote

  /** What the button shows: whether the user likes the video, and the count. */
  datatype LikeState = LikeState(liked: bool, likeCount: int)

  /** The write `toggleLike` issues to the `likes` table. */
  datatype LikeRequest = InsertLike(userId: string, videoId: string) | DeleteLike(userId: string, videoId: string)

  /** The state `s` becomes when a toggle settles that was clicked while the
      button showed `wasLiked`: unchanged on failure; otherwise the flag is set
      to the opposite of `wasLiked` and the count current at settling moves by
      one, a decrement floored at zero (`Math.max(0, count - 1)`). */
  function Settled(s: LikeState, wasLiked: bool, succeeded: bool): (r: LikeState)
    ensures s.likeCount >= 0 ==> r.likeCount >= 0
    ensures !succeeded ==> r == s
    ensures succeeded ==> r.liked == !wasLiked
    ensures succeeded && !wasLiked ==> r.likeCount == s.likeCount + 1
    ensures succeeded && wasLiked ==> r.likeCount == (if s.likeCount > 0 then s.likeCount - 1 else 0)
  {
    if !succeeded then s
    else if wasLiked then LikeState(false, if s.likeCount - 1 > 0 then s.likeCount - 1 else 0)
    else LikeState(true, s.likeCount + 1)
  }

  /** A click that settles before anything else happens: unchanged on failure,
      otherwise the flag flips and the count moves by one, never below zero. */
  function Toggled(s: LikeState, succeeded: bool): (r: LikeState)
    ensures s.likeCount >= 0 ==> r.likeCount >= 0
    ensures succeeded <==> r.liked != s.liked
    ensures !succeeded ==> r == s
    ensures succeeded && !s.liked ==> r.likeCount == s.likeCount + 1
    ensures succeeded && s.liked ==> r.likeCount == (if s.likeCount > 0 then s.likeCount - 1 else 0)
  {
    Settled(s, s.liked, succeeded)
  }

  /** The state `fetchLikes` establishes: the server count, 0 when it is null
      or 0, and liked exactly when the lookup returned a like row. */
  function Fetched(count: Option<nat>, ownLike: Outcome<Option<string>>): (r: LikeState)
    ensures r.likeCount >= 0
    ensures count.Some? ==> r.likeCount == count.value
    ensures count.None? ==> r.likeCount == 0
    ensures r.liked <==> ownLike.Ok? && ownLike.value.Some?
  {
    LikeState(ownLike.Ok? && ownLike.value.Some?, count.GetOr(0))
  }

  /** From a state the user does not like, two successful toggles come back. */
  lemma ToggleTwiceFromUnliked(c: nat)
    ensures Toggled(Toggled(LikeState(false, c), true), true) == LikeState(false, c)
  {
  }

  /** From a liked state, two successful toggles come back only if the count
      was positive: the floor at zero turns (liked, 0) into (liked, 1). */
  lemma ToggleTwiceFromLiked(c: nat)
    ensures Toggled(Toggled(LikeState(true, c), true), true) == LikeState(true, if c == 0 then 1 else c)
  {
  }

  class LikeButton {
    const videoId: string
    var liked: bool
    var likeCount: int
    var loading: bool

    ghost predicate Valid()
      reads this
    {
      likeCount >= 0
    }

    function View(): LikeState
      reads this
    {
      LikeState(liked, likeCount)
    }

    constructor (videoId: string)
      ensures Valid()
      ensures this.videoId == videoId && !liked && likeCount == 0 && loading
    {
      this.videoId := videoId;
      liked := false;
      likeCount := 0;
      loading := true;
    }

    /** `fetchLikes`: with no user nothing happens, so the button stays in its
        loading state and renders nothing. Otherwise the count query's result
        (null on error) and the own-like lookup set the state. */
    method FetchLikes(user: Option<User>, count: Option<nat>, ownLike: Outcome<Option<string>>)
      requires Valid()
      modifies this
      ensures Valid()
      ensures user.None? ==> View() == old(View()) && loading == old(loading)
      ensures user.Some? ==> View() == Fetched(count, ownLike) && !loading
    {
      if user.None? {
        return;
      }
      likeCount := count.GetOr(0);
      liked := ownLike.Ok? && ownLike.value.Some?;
      loading := false;
    }

    /** `toggleLike` up to its await: with no user nothing is issued;
        otherwise a delete when the button shows liked, an insert when not.
        Nothing changes, and the button is not disabled meanwhile. */
    method BeginToggleLike(user: Option<User>) returns (request: Option<LikeRequest>)
      ensures user.None? ==> request == None
      ensures user.Some? ==> request == Some(
        if liked then DeleteLike(user.value.id, videoId) else InsertLike(user.value.id, videoId))
    {
      if user.None? {
        return None;
      }
      if liked {
        request := Some(DeleteLike(user.value.id, videoId));
      } else {
        request := Some(InsertLike(user.value.id, videoId));
      }
    }

    /** `toggleLike` after its await: only if the write succeeded, the flag is
        set from what the click saw and the current count moves by one. */
    method FinishToggleLike(request: LikeRequest, result: Ack)
      requires Valid()
      modifies this`liked, this`likeCount
      ensures Valid()
      ensures View() == Settled(old(View()), request.DeleteLike?, result.Ok?)
    {
      if request.DeleteLike? {
        if result.Ok? {
          liked := false;
          likeCount := if likeCount - 1 > 0 then likeCount - 1 else 0;
        }
      } else {
        if result.Ok? {
          liked := true;
          likeCount := likeCount + 1;
        }
      }
    }
  }

  /** A signed-in user who has not liked a video with `c` likes clicks twice,
      both writes succeed: the button is back where it started. */
  method LikeThenUnlike(user: User, videoId: string, c: nat) returns (shown: LikeState)
    ensures shown == LikeState(false, c)
  {
    var button := new LikeButton(videoId);
    button.FetchLikes(Some(user), Some(c), Ok(None));
    var like := button.BeginToggleLike(Some(user));
    button.FinishToggleLike(like.value, Ok(()));
    var unlike := button.BeginToggleLike(Some(user));
    button.FinishToggleLike(unlike.value, Ok(()));
    shown := button.View();
  }

  /** A user who has not liked a video with `c` likes clicks twice before the
      first insert returns: both clicks issue an insert, and once both
      succeed the button shows liked with `c + 2`. */
  method DoubleClickLikesTwice(user: User, videoId: string, c: nat)
    returns (first: Option<LikeRequest>, second: Option<LikeRequest>, shown: LikeState)
    ensures first == second == Some(InsertLike(user.id, videoId))
    ensures shown == LikeState(true, c + 2)
  {
    var button := new LikeButton(videoId);
    button.FetchLikes(Some(user), Some(c), Ok(None));
    first := button.BeginToggleLike(Some(user));
    second := button.BeginToggleLike(Some(user));
    button.FinishToggleLike(first.value, Ok(()));
    button.FinishToggleLike(second.value, Ok(()));
    shown := button.View();
  }
}
