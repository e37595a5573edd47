/** The upload form (pages/upload.tsx): three guards, then a storage upload to
    `<user id>/<timestamp>-<file name>`, then a `videos` row pointing at the
    public URL of that object. */
module Upload {
  import opened Remote

  /** The file picked in the file input (only its name is used). */
  datatype SelectedFile = SelectedFile(name: string)

  /** The `videos` row inserted after a successful upload. */
  datatype VideoRecord = VideoRecord(title: string, videoUrl: string, storagePath: string, userId: string)

  /** Where `handleUpload` stopped, with the requests it had issued. */
  datatype UploadResult =
    | StillLoading
    | NotLoggedIn
    | NoFile
    | UploadFailed(filePath: string)
    | SaveFailed(filePath: string, record: VideoRecord)
    | Uploaded(filePath: string, record: VideoRecord)

  /** The path of the public-object endpoint for the `videos` bucket. */
  const PublicVideosPath: string := "/storage/v1/object/public/videos/"

  predicate IsDigit(c: char) { '0' <= c <= '9' }

  predicate AllDigits(s: string) { forall i :: 0 <= i < |s| ==> IsDigit(s[i]) }

  /** The decimal text of a number, as a template literal prints `Date.now()`. */
  function Decimal(n: nat): (r: string)
    ensures |r| >= 1 && AllDigits(r)
  {
    var d := (n % 10) as char + '0' as char;
    if n < 10 then [d] else Decimal(n / 10) + [d]
  }

  /** The value of a string of decimal digits. */
  function DecimalValue(s: string): nat
    requires AllDigits(s)
  {
    if s == [] then 0
    else DecimalValue(s[..|s| - 1]) * 10 + (s[|s| - 1] as int - '0' as int)
  }

  lemma {:induction false} DecimalRoundTrip(n: nat)
    ensures DecimalValue(Decimal(n)) == n
  {
    var d := (n % 10) as char + '0' as char;
    if n >= 10 {
      var s := Decimal(n / 10);
      assert (s + [d])[..|s + [d]| - 1] == s;
      DecimalRoundTrip(n / 10);
    }
  }

  /** `${Date.now()}-${file.name}`, placed under the user's folder. */
  function FilePath(userId: string, now: nat, fileName: string): (p: string)
    ensures |p| > |userId| && p[..|userId| + 1] == userId + "/"
    ensures |p| > |fileName| && p[|p| - |fileName| - 1..] == "-" + fileName
  {
    userId + "/" + Decimal(now) + "-" + fileName
  }

  /** The position of the first `c` in `s`. */
  function IndexOf(s: string, c: char): (r: Option<nat>)
    ensures r.Some? ==> r.value < |s| && s[r.value] == c && c !in s[..r.value]
    ensures r.None? ==> c !in s
  {
    if s == [] then None
    else if s[0] == c then Some(0)
    else
      match IndexOf(s[1..], c)
      case None => None
      case Some(i) => assert s[..i + 1] == [s[0]] + s[1..][..i]; Some(i + 1)
  }

  /** The parts of a storage path. */
  datatype StoragePath = StoragePath(owner: string, timestamp: nat, fileName: string)

  /** Reads a storage path back: the owner up to the first '/', the timestamp's
      digits up to the next '-', and the file name after it. */
  function ParseFilePath(p: string): Option<StoragePath>
  {
    match IndexOf(p, '/')
    case None => None
    case Some(i) =>
      var rest := p[i + 1..];
      match IndexOf(rest, '-')
      case None => None
      case Some(j) =>
        if j > 0 && AllDigits(rest[..j]) then Some(StoragePath(p[..i], DecimalValue(rest[..j]), rest[j + 1..]))
        else None
  }

  lemma FirstAfterPrefix(a: string, c: char, b: string)
    requires c !in a
    ensures IndexOf(a + [c] + b, c) == Some(|a|)
  {
    var s := a + [c] + b;
    var r := IndexOf(s, c);
    assert s[|a|] == c;
    assert r.Some? by { assert c in s; }
  }

  /** For a user id without '/', the path gives back the user id, the
      timestamp and the file name it was built from. */
  lemma FilePathRoundTrip(userId: string, now: nat, fileName: string)
    requires '/' !in userId
    ensures ParseFilePath(FilePath(userId, now, fileName)) == Some(StoragePath(userId, now, fileName))
  {
    var digits := Decimal(now);
    var p := FilePath(userId, now, fileName);
    assert p == userId + ['/'] + (digits + "-" + fileName);
    FirstAfterPrefix(userId, '/', digits + "-" + fileName);
    var rest := p[|userId| + 1..];
    assert rest == digits + ['-'] + fileName;
    assert '-' !in digits by {
      forall i | 0 <= i < |digits| ensures digits[i] != '-' {
        assert IsDigit(digits[i]);
      }
    }
    FirstAfterPrefix(digits, '-', fileName);
    assert rest[..|digits|] == digits;
    assert rest[|digits| + 1..] == fileName;
    assert p[..|userId|] == userId;
    DecimalRoundTrip(now);
  }

  /** `${base}/storage/v1/object/public/videos/${filePath}`; an unset base
      prints as "undefined". */
  function VideoUrl(base: Option<string>, filePath: string): (url: string)
    ensures |url| >= |filePath| && url[|url| - |filePath|..] == filePath
  {
    base.GetOr("undefined") + PublicVideosPath + filePath
  }

  /** The object path a public URL on `base` points at. */
  function ObjectPathOf(base: Option<string>, url: string): Option<string>
  {
    var prefix := base.GetOr("undefined") + PublicVideosPath;
    if |prefix| <= |url| && url[..|prefix|] == prefix then Some(url[|prefix|..]) else None
  }

  lemma VideoUrlRoundTrip(base: Option<string>, filePath: string)
    ensures ObjectPathOf(base, VideoUrl(base, filePath)) == Some(filePath)
  {
  }

  /** What `handleUpload` has captured once its guards passed: the path it
      uploads to, and the title and user id the row will carry. */
  datatype PendingUpload = PendingUpload(filePath: string, title: string, userId: string)

  /** How the synchronous part of `handleUpload` ended. */
  datatype UploadStart = Stopped(result: UploadResult) | Started(pending: PendingUpload)

  /** The guards of `handleUpload`, in order, then the values read before the
      first await: the file (for its path) and the title. */
  function StartUpload(loading: bool, user: Option<User>, file: Option<SelectedFile>, title: string, now: nat): (s: UploadStart)
    ensures loading ==> s == Stopped(StillLoading)
    ensures !loading && user.None? ==> s == Stopped(NotLoggedIn)
    ensures !loading && user.Some? && file.None? ==> s == Stopped(NoFile)
    ensures s.Started? <==> !loading && user.Some? && file.Some?
    ensures s.Started? ==>
      s.pending == PendingUpload(FilePath(user.value.id, now, file.value.name), title, user.value.id)
  {
    if loading then Stopped(StillLoading)
    else if user.None? then Stopped(NotLoggedIn)
    else if file.None? then Stopped(NoFile)
    else Started(PendingUpload(FilePath(user.value.id, now, file.value.name), title, user.value.id))
  }

  /** The rest of `handleUpload` after the upload settled: an upload error
      stops before the insert; otherwise the row points at the public URL of
      the uploaded object. */
  function Completion(p: PendingUpload, base: Option<string>, uploadResult: Ack, dbResult: Ack): (r: UploadResult)
    ensures r.UploadFailed? <==> uploadResult.Err?
    ensures r.SaveFailed? <==> uploadResult.Ok? && dbResult.Err?
    ensures r.Uploaded? <==> uploadResult.Ok? && dbResult.Ok?
    ensures r.filePath == p.filePath
    ensures !r.UploadFailed? ==> r.record == VideoRecord(p.title, VideoUrl(base, p.filePath), p.filePath, p.userId)
  {
    if uploadResult.Err? then UploadFailed(p.filePath)
    else
      var record := VideoRecord(p.title, VideoUrl(base, p.filePath), p.filePath, p.userId);
      if dbResult.Err? then SaveFailed(p.filePath, record) else Uploaded(p.filePath, record)
  }

  /** What `handleUpload` does for the given user state, file, title, clock
      reading, configured base URL and remote outcomes, when nothing else
      happens during its awaits. */
  function UploadAttempt(
    loading: bool, user: Option<User>, file: Option<SelectedFile>, title: string,
    now: nat, base: Option<string>, uploadResult: Ack, dbResult: Ack): (r: UploadResult)
    ensures loading ==> r == StillLoading
    ensures !loading && user.None? ==> r == NotLoggedIn
    ensures !loading && user.Some? && file.None? ==> r == NoFile
    ensures r.UploadFailed? <==> !loading && user.Some? && file.Some? && uploadResult.Err?
    ensures r.SaveFailed? <==> !loading && user.Some? && file.Some? && uploadResult.Ok? && dbResult.Err?
    ensures r.Uploaded? <==> !loading && user.Some? && file.Some? && uploadResult.Ok? && dbResult.Ok?
    ensures r.UploadFailed? || r.SaveFailed? || r.Uploaded? ==>
      r.filePath == FilePath(user.value.id, now, file.value.name)
    ensures r.SaveFailed? || r.Uploaded? ==>
      r.record == VideoRecord(title, VideoUrl(base, r.filePath), r.filePath, user.value.id)
  {
    match StartUpload(loading, user, file, title, now)
    case Stopped(stop) => stop
    case Started(p) => Completion(p, base, uploadResult, dbResult)
  }

  class UploadPage {
    var title: string
    var file: Option<SelectedFile>

    constructor ()
      ensures title == "" && file == None
    {
      title := "";
      file := None;
    }

    method SetTitle(text: string)
      modifies this`title
      ensures title == text
    {
      title := text;
    }

    method SelectFile(picked: Option<SelectedFile>)
      modifies this`file
      ensures file == picked
    {
      file := picked;
    }

    /** `handleUpload` up to its first await: the guards, then the path built
        from the picked file and the title as the form shows it. Nothing
        changes, and the submit button is not disabled meanwhile. */
    method BeginUpload(loading: bool, user: Option<User>, now: nat) returns (start: UploadStart)
      ensures start == StartUpload(loading, user, file, title, now)
    {
      if loading {
        return Stopped(StillLoading);
      }
      if user.None? {
        return Stopped(NotLoggedIn);
      }
      if file.None? {
        return Stopped(NoFile);
      }
      var filePath := FilePath(user.value.id, now, file.value.name);
      start := Started(PendingUpload(filePath, title, user.value.id));
    }

    /** `handleUpload` after its awaits (nothing changes between the upload and
        the insert): the title and the file input are cleared, whatever they
        hold by then, only once the row was saved. */
    method FinishUpload(pending: PendingUpload, base: Option<string>, uploadResult: Ack, dbResult: Ack)
      returns (r: UploadResult)
      modifies this`title, this`file
      ensures r == Completion(pending, base, uploadResult, dbResult)
      ensures r.Uploaded? ==> title == "" && file == None
      ensures !r.Uploaded? ==> title == old(title) && file == old(file)
    {
      if uploadResult.Err? {
        return UploadFailed(pending.filePath);
      }
      var videoUrl := VideoUrl(base, pending.filePath);
      var record := VideoRecord(pending.title, videoUrl, pending.filePath, pending.userId);
      if dbResult.Err? {
        return SaveFailed(pending.filePath, record);
      }
      r := Uploaded(pending.filePath, record);
      title := "";
      file := None;
    }

    /** A submit whose awaits nothing interleaves with. */
    method HandleUpload(loading: bool, user: Option<User>, now: nat, base: Option<string>, uploadResult: Ack, dbResult: Ack)
      returns (r: UploadResult)
      modifies this`title, this`file
      ensures r == UploadAttempt(loading, user, old(file), old(title), now, base, uploadResult, dbResult)
      ensures r.Uploaded? ==> title == "" && file == None
      ensures !r.Uploaded? ==> title == old(title) && file == old(file)
    {
      var start := BeginUpload(loading, user, now);
      match start
      case Stopped(stop) =>
        r := stop;
      case Started(p) =>
        r := FinishUpload(p, base, uploadResult, dbResult);
    }
  }

  /** Two submits of the same form at different clock readings, the second
      before the first returned: two objects are uploaded and two rows saved. */
  method DoubleSubmitSavesTwice(user: User, picked: SelectedFile, title: string, t1: nat, t2: nat, base: Option<string>)
    returns (r1: UploadResult, r2: UploadResult)
    requires '/' !in user.id && t1 != t2
    ensures r1.Uploaded? && r2.Uploaded?
    ensures r1.record.title == title && r2.record.title == title
    ensures r1.record.storagePath != r2.record.storagePath
  {
    var page := new UploadPage();
    page.SetTitle(title);
    page.SelectFile(Some(picked));
    var s1 := page.BeginUpload(false, Some(user), t1);
    var s2 := page.BeginUpload(false, Some(user), t2);
    r1 := page.FinishUpload(s1.pending, base, Ok(()), Ok(()));
    r2 := page.FinishUpload(s2.pending, base, Ok(()), Ok(()));
    FilePathRoundTrip(user.id, t1, picked.name);
    FilePathRoundTrip(user.id, t2, picked.name);
  }

  /** A title typed while an upload is in flight is wiped when that upload's
      row is saved; the row carries the title of the submit. */
  method TitleTypedDuringUploadIsLost(user: User, picked: SelectedFile, title: string, typed: string, now: nat, base: Option<string>)
    returns (r: UploadResult, after: string)
    ensures r.Uploaded? && r.record.title == title
    ensures after == ""
  {
    var page := new UploadPage();
    page.SetTitle(title);
    page.SelectFile(Some(picked));
    var start := page.BeginUpload(false, Some(user), now);
    page.SetTitle(typed);
    r := page.FinishUpload(start.pending, base, Ok(()), Ok(()));
    after := page.title;
  }
}
