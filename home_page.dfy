/** The home feed (pages/index.tsx): a title search, the video list it fetches,
    one comment count per listed video, and per-video "show comments" flags.
    Responses are applied in the order they arrive; nothing ties a response to
    the search term that asked for it. */
module Home {
  import opened Remote

  /** A row of the `videos` table as the feed holds it. */
  datatype Video = Video(id: string, title: string, videoUrl: string, userId: string)

  /** The feed query: all videos, newest first, and optionally a
      case-insensitive `ilike` pattern on the title. */
  datatype VideoQuery = VideoQuery(titlePattern: Option<string>)

  /** The query `fetchVideos(query)` builds: no title filter for the empty
      term, otherwise the pattern `%term%`, from which the term is read back
      by dropping its first and last character. */
  function QueryFor(term: string): (q: VideoQuery)
    ensures q.titlePattern.None? <==> term == ""
    ensures q.titlePattern.Some? ==>
      var p := q.titlePattern.value;
      |p| == |term| + 2 && p[0] == '%' && p[|p| - 1] == '%' && p[1..|p| - 1] == term
  {
    if term == "" then VideoQuery(None) else VideoQuery(Some("%" + term + "%"))
  }

  /** The count a successful count query contributes: `count ?? 0`. */
  function CountOf(count: Option<nat>): nat {
    count.GetOr(0)
  }

  /** The count map `fetchCommentCounts` builds from one count-query outcome per
      video, the queries' writes taken in list order. */
  function CountsFrom(videos: seq<Video>, results: seq<Outcome<Option<nat>>>): (r: map<string, nat>)
    requires |results| == |videos|
    ensures r.Keys <= set i | 0 <= i < |videos| && results[i].Ok? :: videos[i].id
  {
    if videos == [] then map[]
    else
      var n := |videos| - 1;
      var m := CountsFrom(videos[..n], results[..n]);
      if results[n].Ok? then m[videos[n].id := CountOf(results[n].value)] else m
  }

  /** A video id whose count query, at some position of the list, succeeded. */
  predicate Counted(videos: seq<Video>, results: seq<Outcome<Option<nat>>>, id: string)
    requires |results| == |videos|
  {
    exists i :: 0 <= i < |videos| && videos[i].id == id && results[i].Ok?
  }

  /** The count map has a key exactly for the videos whose query succeeded,
      and each value is the count one of that video's queries returned. */
  lemma {:induction false} CountsFromKeys(videos: seq<Video>, results: seq<Outcome<Option<nat>>>, id: string)
    requires |results| == |videos|
    ensures id in CountsFrom(videos, results) <==> Counted(videos, results, id)
    ensures id in CountsFrom(videos, results) ==>
      exists i :: 0 <= i < |videos| && videos[i].id == id && results[i].Ok?
        && CountsFrom(videos, results)[id] == CountOf(results[i].value)
  {
    if videos != [] {
      var n := |videos| - 1;
      CountsFromKeys(videos[..n], results[..n], id);
      if Counted(videos, results, id) && !(results[n].Ok? && videos[n].id == id) {
        var i :| 0 <= i < |videos| && videos[i].id == id && results[i].Ok?;
        assert i < n && videos[..n][i] == videos[i] && results[..n][i] == results[i];
      }
      if id in CountsFrom(videos, results) && !(results[n].Ok? && videos[n].id == id) {
        var i :| 0 <= i < n && videos[..n][i].id == id && results[..n][i].Ok?
          && CountsFrom(videos[..n], results[..n])[id] == CountOf(results[..n][i].value);
        assert videos[i] == videos[..n][i] && results[i] == results[..n][i];
      }
    }
  }

  /** No two videos share an id, as the table's primary key guarantees. */
  predicate DistinctIds(videos: seq<Video>) {
    forall i, j :: 0 <= i < j < |videos| ==> videos[i].id != videos[j].id
  }

  /** Partial-failure isolation: with distinct ids, every video whose query
      succeeded shows its own count, and every video whose query failed has
      no entry, whatever happened to the other queries. */
  lemma CountsIsolated(videos: seq<Video>, results: seq<Outcome<Option<nat>>>, i: nat)
    requires |results| == |videos| && DistinctIds(videos) && i < |videos|
    ensures results[i].Ok? ==>
      videos[i].id in CountsFrom(videos, results)
      && CountsFrom(videos, results)[videos[i].id] == CountOf(results[i].value)
    ensures results[i].Err? ==> videos[i].id !in CountsFrom(videos, results)
  {
    CountsFromKeys(videos, results, videos[i].id);
  }

  /** `fetchCommentCounts`: one count query per video, each successful one
      writing its entry into a fresh map. */
  method AggregateCounts(videos: seq<Video>, results: seq<Outcome<Option<nat>>>) returns (counts: map<string, nat>)
    requires |results| == |videos|
    ensures counts == CountsFrom(videos, results)
  {
    counts := map[];
    var i := 0;
    while i < |videos|
      invariant 0 <= i <= |videos|
      invariant counts == CountsFrom(videos[..i], results[..i])
    {
      if results[i].Ok? {
        counts := counts[videos[i].id := CountOf(results[i].value)];
      }
      assert videos[..i + 1][..i] == videos[..i] && results[..i + 1][..i] == results[..i];
      i := i + 1;
    }
    assert videos[..i] == videos && results[..i] == results;
  }

  /** What the feed prints for a video: its entry, or 0 when it has none. */
  function Shown(counts: map<string, nat>, id: string): (r: nat)
    ensures id in counts ==> r == counts[id]
    ensures id !in counts ==> r == 0
  {
    if id in counts then counts[id] else 0
  }

  /** Whether a video's comments are open: a missing flag reads as closed. */
  function IsOpen(flags: map<string, bool>, id: string): bool {
    id in flags && flags[id]
  }

  /** `toggleComments(id)`: that video's flag flips, every other flag stays. */
  function ToggleFlag(flags: map<string, bool>, id: string): (r: map<string, bool>)
    ensures r.Keys == flags.Keys + {id}
    ensures IsOpen(r, id) == !IsOpen(flags, id)
    ensures forall k :: k in flags && k != id ==> r[k] == flags[k]
  {
    flags[id := !IsOpen(flags, id)]
  }

  /** Toggling twice restores what every video shows. */
  lemma ToggleFlagTwice(flags: map<string, bool>, id: string, k: string)
    ensures IsOpen(ToggleFlag(ToggleFlag(flags, id), id), k) == IsOpen(flags, k)
  {
  }

  class HomePage {
    var videos: seq<Video>
    var loading: bool
    var searchQuery: string
    var commentCounts: map<string, nat>
    var showComments: map<string, bool>

    constructor ()
      ensures videos == [] && loading && searchQuery == ""
      ensures commentCounts == map[] && showComments == map[]
    {
      videos := [];
      loading := true;
      searchQuery := "";
      commentCounts := map[];
      showComments := map[];
    }

    /** `handleSearch`: the input shows the term at once; the debounced fetch
        is started separately with `BeginFetchVideos`. */
    method HandleSearch(term: string)
      modifies this`searchQuery
      ensures searchQuery == term
    {
      searchQuery := term;
    }

    /** `fetchVideos(term)` up to its await. */
    method BeginFetchVideos(term: string) returns (query: VideoQuery)
      modifies this`loading
      ensures query == QueryFor(term) && loading
    {
      loading := true;
      query := QueryFor(term);
    }

    /** `fetchVideos` after its await, whichever term it was for: data (or []
        for null data) replaces the list and the count fetch is started for
        exactly that list; an error keeps the list and starts nothing. */
    method FinishFetchVideos(result: Outcome<Option<seq<Video>>>) returns (countFor: Option<seq<Video>>)
      modifies this`videos, this`loading
      ensures result.Ok? ==> videos == result.value.GetOr([]) && countFor == Some(videos)
      ensures result.Err? ==> videos == old(videos) && countFor == None
      ensures !loading
    {
      countFor := None;
      if result.Ok? {
        videos := result.value.GetOr([]);
        countFor := Some(videos);
      }
      loading := false;
    }

    /** The count fetch for `forVideos` settled: its map replaces the previous
        one wholesale, so a video whose query failed loses any earlier count. */
    method FinishCommentCounts(forVideos: seq<Video>, results: seq<Outcome<Option<nat>>>)
      requires |results| == |forVideos|
      modifies this`commentCounts
      ensures commentCounts == CountsFrom(forVideos, results)
    {
      commentCounts := AggregateCounts(forVideos, results);
    }

    method ToggleComments(id: string)
      modifies this`showComments
      ensures showComments == ToggleFlag(old(showComments), id)
    {
      showComments := ToggleFlag(showComments, id);
    }
  }

  /** Two searches in flight: the newer one's answer arrives first, the older
      one's last. The feed ends up showing the older answer. */
  method StaleAnswerWins(older: seq<Video>, newer: seq<Video>) returns (shown: seq<Video>)
    ensures shown == older
  {
    var page := new HomePage();
    var q1 := page.BeginFetchVideos("ab");
    var q2 := page.BeginFetchVideos("abc");
    var c2 := page.FinishFetchVideos(Ok(Some(newer)));
    var c1 := page.FinishFetchVideos(Ok(Some(older)));
    shown := page.videos;
  }

  /** A video that had a count shows 0 after a refresh in which its count
      query failed. */
  method FailedRecountShowsZero(v: Video, earlier: nat) returns (shown: nat)
    ensures shown == 0
  {
    var page := new HomePage();
    page.FinishCommentCounts([v], [Ok(Some(earlier))]);
    page.FinishCommentCounts([v], [Err("count failed")]);
    shown := Shown(page.commentCounts, v.id);
  }
}
