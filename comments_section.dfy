/** The comment list of one video (components/CommentsSection.tsx): loaded once,
    grown by realtime INSERT pushes and by the user's own posts, shrunk by the
    user's deletes. Nothing deduplicates: a post and the push of the same row
    are two entries. */
module Comments {
  import opened Remote
  import Lists
  import Text

  /** A row of the `comments` table as the client holds it. */
  datatype Comment = Comment(
    id: string,
    videoId: string,
    userId: string,
    userEmail: Option<string>,
    content: string,
    createdAt: string)

  function IdOf(c: Comment): string { c.id }

  /** The row `addComment` asks the store to insert. */
  datatype CommentInsert = CommentInsert(videoId: string, userId: string, userEmail: string, content: string)

  /** The delete `deleteComment` issues: by comment id, constrained to the owner
      id of the current user (`user?.id`, undefined without a user). */
  datatype CommentDelete = CommentDelete(id: string, ownerId: Option<string>)

  /** How the first, synchronous part of `addComment` ended. */
  datatype PostStart = NotLoggedIn | Blank | Sent(insert: CommentInsert)

  /** What the guards of `addComment` decide for a user and the typed text. */
  function StartPost(user: Option<User>, videoId: string, typed: string): (r: PostStart)
    ensures r.NotLoggedIn? <==> user.None?
    ensures r.Blank? <==> user.Some? && Text.IsBlank(typed)
    ensures r.Sent? ==> r.insert.userId == user.value.id && r.insert.userEmail == user.value.email
    ensures r.Sent? ==> r.insert.videoId == videoId
    ensures r.Sent? ==> r.insert.content != [] && r.insert.content == Text.Trim(typed)
  {
    if user.None? then NotLoggedIn
    else if Text.Trim(typed) == [] then Blank
    else Sent(CommentInsert(videoId, user.value.id, user.value.email, Text.Trim(typed)))
  }

  class CommentsSection {
    const videoId: string
    var comments: seq<Comment>
    var newComment: string
    var loading: bool
    var posting: bool

    constructor (videoId: string)
      ensures this.videoId == videoId
      ensures comments == [] && newComment == "" && loading && !posting
    {
      this.videoId := videoId;
      comments := [];
      newComment := "";
      loading := true;
      posting := false;
    }

    /** The effect's guard and `setLoading(true)` before the fetch is awaited.
        Without a video id neither the fetch nor the realtime subscription
        is started. */
    method BeginFetch() returns (started: bool)
      modifies this`loading
      ensures started <==> videoId != ""
      ensures loading == (started || old(loading))
    {
      if videoId == "" {
        return false;
      }
      loading := true;
      started := true;
    }

    /** The fetch settled: rows replace the list wholesale, an error keeps it;
        loading ends either way. */
    method FinishFetch(result: Outcome<seq<Comment>>)
      modifies this`comments, this`loading
      ensures comments == (if result.Ok? then result.value else old(comments))
      ensures !loading
    {
      if result.Ok? {
        comments := result.value;
      }
      loading := false;
    }

    /** A realtime INSERT for this video: the pushed row goes in front, with no
        check for an entry of the same id. */
    method OnInsertPushed(row: Comment)
      modifies this`comments
      ensures comments == [row] + old(comments)
      ensures Lists.Count(comments, IdOf, row.id) == Lists.Count(old(comments), IdOf, row.id) + 1
    {
      comments := [row] + comments;
    }

    /** The textarea's change handler. */
    method EditNewComment(text: string)
      modifies this`newComment
      ensures newComment == text
    {
      newComment := text;
    }

    /** `addComment` up to its await: the guards, then `setPosting(true)` and
        the insert of the trimmed text. */
    method BeginAddComment(user: Option<User>) returns (start: PostStart)
      modifies this`posting
      ensures start == StartPost(user, videoId, newComment)
      ensures posting == (start.Sent? || old(posting))
    {
      if user.None? {
        return NotLoggedIn;
      }
      var content := Text.Trim(newComment);
      if content == [] {
        return Blank;
      }
      posting := true;
      start := Sent(CommentInsert(videoId, user.value.id, user.value.email, content));
    }

    /** `addComment` after its await: a returned row goes in front and the input
        is cleared; an error, or no row, changes neither. Posting ends either way. */
    method FinishAddComment(result: Outcome<Option<Comment>>)
      modifies this`comments, this`newComment, this`posting
      ensures result.Ok? && result.value.Some? ==>
        comments == [result.value.value] + old(comments) && newComment == ""
      ensures !(result.Ok? && result.value.Some?) ==>
        comments == old(comments) && newComment == old(newComment)
      ensures !posting
    {
      if result.Err? {
        // the store refused the row: the user is alerted
      } else if result.value.Some? {
        newComment := "";
        comments := [result.value.value] + comments;
      }
      posting := false;
    }

    /** `deleteComment(id)`: a declined confirmation issues nothing; otherwise
        the delete is issued and, only if it succeeded, every entry with that id
        is filtered out. */
    method DeleteComment(user: Option<User>, id: string, confirmed: bool, result: Ack)
      returns (request: Option<CommentDelete>)
      modifies this`comments
      ensures request == (if confirmed then Some(CommentDelete(id, if user.Some? then Some(user.value.id) else None)) else None)
      ensures comments == (if confirmed && result.Ok? then Lists.Without(old(comments), IdOf, id) else old(comments))
    {
      if !confirmed {
        return None;
      }
      request := Some(CommentDelete(id, if user.Some? then Some(user.value.id) else None));
      if result.Ok? {
        comments := Lists.Without(comments, IdOf, id);
      }
    }
  }

  /** A successful delete leaves no entry with that id, keeps every other
      entry in order, and repeating it changes nothing. */
  lemma DeleteProperties(comments: seq<Comment>, id: string, rest: seq<Comment>)
    ensures forall c :: c in Lists.Without(comments, IdOf, id) ==> c.id != id
    ensures Lists.Without(rest + comments, IdOf, id) == Lists.Without(rest, IdOf, id) + Lists.Without(comments, IdOf, id)
    ensures Lists.Without(Lists.Without(comments, IdOf, id), IdOf, id) == Lists.Without(comments, IdOf, id)
    ensures (forall c :: c in comments ==> c.id != id) ==> Lists.Without(comments, IdOf, id) == comments
  {
    Lists.WithoutAppend(rest, comments, IdOf, id);
    Lists.WithoutIdempotent(comments, IdOf, id);
    if forall c :: c in comments ==> c.id != id {
      Lists.NoneLeft(comments, IdOf, id);
      Lists.CountZero(comments, IdOf, id);
    }
  }

  /** The user's own post followed by the realtime push of the same row: the
      list holds that comment twice. */
  method PostThenPush(videoId: string, user: User, text: string, row: Comment) returns (copies: nat)
    requires !Text.IsBlank(text)
    ensures copies == 2
  {
    var section := new CommentsSection(videoId);
    section.EditNewComment(text);
    var start := section.BeginAddComment(Some(user));
    section.FinishAddComment(Ok(Some(row)));
    section.OnInsertPushed(row);
    copies := Lists.Count(section.comments, IdOf, row.id);
  }
}
