/** The profile page (pages/profile.tsx): the user's name and bio, the list of
    their own videos with delete and title edit, and the per-video editing
    state. Store writes change the list only once they succeeded. */
module Profile {
  import opened Remote
  import Lists

  /** A row of the `videos` table as the profile page holds it. */
  datatype Video = Video(id: int, title: string, videoUrl: string, storagePath: string, userId: string)

  function IdOf(v: Video): int { v.id }

  /** The `username, bio` columns of a `profiles` row. */
  datatype ProfileRow = ProfileRow(username: string, bio: string)

  /** The record `handleSave` upserts, keyed on `id`. */
  datatype ProfileUpdate = ProfileUpdate(id: string, username: string, bio: string, createdAt: string)

  /** The writes `handleDelete` issues, in order. */
  datatype DeleteRequests = DeleteRequests(dbDelete: Option<int>, storageRemove: Option<string>)

  /** The message `handleSave` alerts. */
  datatype SaveNotice = NoNotice | SaveFailed | Saved

  /** Every video whose id is `id` gets the title `title`; nothing else changes. */
  function Retitled(videos: seq<Video>, id: int, title: string): (r: seq<Video>)
    ensures |r| == |videos|
    ensures forall i :: 0 <= i < |videos| ==> r[i].(title := videos[i].title) == videos[i]
    ensures forall i :: 0 <= i < |videos| && videos[i].id == id ==> r[i].title == title
    ensures forall i :: 0 <= i < |videos| && videos[i].id != id ==> r[i] == videos[i]
  {
    if videos == [] then []
    else [if videos[0].id == id then videos[0].(title := title) else videos[0]] + Retitled(videos[1..], id, title)
  }

  /** The title the Save button sends: what was typed for that video, or ''. */
  function TitleToSave(newTitles: map<int, string>, id: int): (r: string)
    ensures id in newTitles ==> r == newTitles[id]
    ensures id !in newTitles ==> r == ""
  {
    if id in newTitles then newTitles[id] else ""
  }

  class ProfilePage {
    var username: string
    var bio: string
    var loadingProfile: bool
    var myVideos: seq<Video>
    var editingTitle: map<int, bool>
    var newTitles: map<int, string>

    constructor ()
      ensures username == "" && bio == "" && loadingProfile && myVideos == []
      ensures editingTitle == map[] && newTitles == map[]
    {
      username, bio := "", "";
      loadingProfile := true;
      myVideos := [];
      editingTitle, newTitles := map[], map[];
    }

    /** `loadProfile`: runs only with a user; a found row sets name and bio, a
        missing one keeps them; loading ends either way. */
    method LoadProfile(user: Option<User>, result: Outcome<ProfileRow>)
      modifies this`username, this`bio, this`loadingProfile
      ensures user.None? ==> username == old(username) && bio == old(bio) && loadingProfile == old(loadingProfile)
      ensures user.Some? && result.Ok? ==> username == result.value.username && bio == result.value.bio
      ensures user.Some? && result.Err? ==> username == old(username) && bio == old(bio)
      ensures user.Some? ==> !loadingProfile
    {
      if user.None? {
        return;
      }
      if result.Ok? {
        username := result.value.username;
        bio := result.value.bio;
      }
      loadingProfile := false;
    }

    /** `loadMyVideos`: runs only with a user; rows replace the list, an error
        or null data keeps it. */
    method LoadMyVideos(user: Option<User>, result: Outcome<Option<seq<Video>>>)
      modifies this`myVideos
      ensures myVideos == (if user.Some? && result.Ok? && result.value.Some? then result.value.value else old(myVideos))
    {
      if user.Some? && result.Ok? && result.value.Some? {
        myVideos := result.value.value;
      }
    }

    /** `handleSave`: with a user, upserts the current name and bio under the
        user's id and alerts the outcome; it changes no state. */
    method HandleSave(user: Option<User>, now: string, result: Ack) returns (upsert: Option<ProfileUpdate>, notice: SaveNotice)
      ensures upsert.None? <==> user.None?
      ensures upsert.Some? ==> upsert.value == ProfileUpdate(user.value.id, username, bio, now)
      ensures notice == (if user.None? then NoNotice else if result.Ok? then Saved else SaveFailed)
    {
      if user.None? {
        return None, NoNotice;
      }
      upsert := Some(ProfileUpdate(user.value.id, username, bio, now));
      notice := if result.Err? then SaveFailed else Saved;
    }

    /** `handleDelete(videoId, videoPath)`. `rendered` is the list the click
        handler closed over: the filter is applied to it, not to the list as it
        is when the writes come back. A declined confirmation issues nothing;
        a database error stops before the storage removal and keeps the list;
        a storage error does not keep the video in the list. */
    method HandleDelete(rendered: seq<Video>, videoId: int, videoPath: string, confirmed: bool, dbResult: Ack, storageResult: Ack)
      returns (requests: DeleteRequests)
      modifies this`myVideos
      ensures !confirmed ==> requests == DeleteRequests(None, None) && myVideos == old(myVideos)
      ensures confirmed && dbResult.Err? ==> requests == DeleteRequests(Some(videoId), None) && myVideos == old(myVideos)
      ensures confirmed && dbResult.Ok? ==>
        requests == DeleteRequests(Some(videoId), Some(videoPath)) && myVideos == Lists.Without(rendered, IdOf, videoId)
    {
      if !confirmed {
        return DeleteRequests(None, None);
      }
      if dbResult.Err? {
        return DeleteRequests(Some(videoId), None);
      }
      requests := DeleteRequests(Some(videoId), Some(videoPath));
      if storageResult.Err? {
        // logged only: the list is updated regardless
      }
      myVideos := Lists.Without(rendered, IdOf, videoId);
    }

    /** `handleTitleEdit(videoId, newTitle)`: only after the update succeeded,
        the matching videos get the new title and that id stops editing. */
    method HandleTitleEdit(videoId: int, newTitle: string, result: Ack)
      modifies this`myVideos, this`editingTitle
      ensures result.Err? ==> myVideos == old(myVideos) && editingTitle == old(editingTitle)
      ensures result.Ok? ==> myVideos == Retitled(old(myVideos), videoId, newTitle)
      ensures result.Ok? ==> editingTitle == old(editingTitle)[videoId := false]
    {
      if result.Err? {
        return;
      }
      myVideos := Retitled(myVideos, videoId, newTitle);
      editingTitle := editingTitle[videoId := false];
    }

    /** The Save button of a video being edited. */
    method SaveTitle(videoId: int, result: Ack) returns (sent: string)
      modifies this`myVideos, this`editingTitle
      ensures sent == TitleToSave(newTitles, videoId)
      ensures result.Err? ==> myVideos == old(myVideos) && editingTitle == old(editingTitle)
      ensures result.Ok? ==> myVideos == Retitled(old(myVideos), videoId, sent)
      ensures result.Ok? ==> editingTitle == old(editingTitle)[videoId := false]
    {
      sent := TitleToSave(newTitles, videoId);
      HandleTitleEdit(videoId, sent, result);
    }

    /** The "Edit Title" button. */
    method StartEditing(videoId: int)
      modifies this`editingTitle
      ensures editingTitle == old(editingTitle)[videoId := true]
    {
      editingTitle := editingTitle[videoId := true];
    }

    /** The title input of a video being edited. */
    method TypeTitle(videoId: int, text: string)
      modifies this`newTitles
      ensures newTitles == old(newTitles)[videoId := text]
    {
      newTitles := newTitles[videoId := text];
    }
  }

  /** A second retitle of the same id to the same title changes nothing. */
  lemma RetitledIdempotent(videos: seq<Video>, id: int, title: string)
    ensures Retitled(Retitled(videos, id, title), id, title) == Retitled(videos, id, title)
  {
  }

  /** The delete of video `a` is clicked while the list is [a, b]; a title edit
      of `b` completes during the delete's awaits. When the delete comes back,
      `b` has its old title again. */
  method DeleteUndoesConcurrentEdit(a: Video, b: Video, title: string) returns (shown: seq<Video>)
    requires a.id != b.id && b.title != title
    ensures shown == [b] && shown[0].title != title
  {
    var page := new ProfilePage();
    page.LoadMyVideos(Some(User("u", "u@example.com")), Ok(Some([a, b])));
    var rendered := page.myVideos;
    page.HandleTitleEdit(b.id, title, Ok(()));
    var requests := page.HandleDelete(rendered, a.id, a.storagePath, true, Ok(()), Ok(()));
    shown := page.myVideos;
  }
}
