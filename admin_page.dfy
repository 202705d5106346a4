/** The admin blog-posting page (src/app/admin/page.tsx): an admin check
    that only lower-cases, the storage upload helper, and the submission
    sequence validate, upload image, upload audio, insert, reset. */
module AdminPage {
  import opened Common
  import opened Text

  /** The storage bucket that receives blog media. */
  const Bucket := "blog_media"

  const RequiredAlert := "Title and content are required"
  const UploadFailedAlert := "Failed to upload file. Check Supabase bucket permissions."
  const PostedAlert := "\U{1F389} Blog posted successfully!"
  const PostFailedPrefix := "Failed to post blog: "

  /** A file the admin selected; only its name matters here. */
  datatype File = File(name: string)

  /** What the outside world does during one upload: the clock reading
      (`Date.now()`), whether the storage upload reported an error, and the
      public URL the storage client hands back for the key, if any. */
  datatype UploadEnv = UploadEnv(now: nat, uploadError: bool, publicUrl: Option<string>)

  /** The row inserted into the "blogs" table; a missing URL is null. */
  datatype BlogRow = BlogRow(title: string, content: string, imageUrl: Option<string>,
                             audioUrl: Option<string>, likes: int)

  /** Calls to the hosted services made while submitting. */
  datatype Call = Upload(bucket: string, key: string) | InsertBlog(row: BlogRow)

  /** The page's admin test: the user's email, lower-cased, equals the
      configured admin email, lower-cased. Nothing is trimmed. */
  predicate IsAdmin(user: Option<AuthUser>, adminEmail: string)
    ensures IsAdmin(user, adminEmail) ==>
      user.Some? && user.value.email.Some? && |user.value.email.value| == |adminEmail|
    ensures user.Some? && user.value.email == Some(adminEmail) ==> IsAdmin(user, adminEmail)
    ensures IsAdmin(user, adminEmail) <==>
      && user.Some? && user.value.email.Some? && |user.value.email.value| == |adminEmail|
      && forall i :: 0 <= i < |adminEmail| ==> LowerChar(user.value.email.value[i]) == LowerChar(adminEmail[i])
  {
    match user
    case None => false
    case Some(u) => u.email.Some? && ToLower(u.email.value) == ToLower(adminEmail)
  }

  /** The storage key of an upload: the decimal timestamp, a hyphen, then
      the file's original name. */
  function StorageKey(now: nat, fileName: string): (key: string)
    ensures |key| == |Decimal(now)| + 1 + |fileName|
    ensures key[..|Decimal(now)|] == Decimal(now)
    ensures key[|Decimal(now)|] == '-'
    ensures key[|Decimal(now)| + 1..] == fileName
  {
    Decimal(now) + "-" + fileName
  }

  /** A storage key determines both the timestamp and the file name, so the
      same file uploaded at two different times gets two different keys. */
  lemma StorageKeyInjective(t1: nat, f1: string, t2: nat, f2: string)
    requires StorageKey(t1, f1) == StorageKey(t2, f2)
    ensures t1 == t2 && f1 == f2
  {
    var key := StorageKey(t1, f1);
    var d1, d2 := Decimal(t1), Decimal(t2);
    assert d1 == key[..|d1|] == d2;
    DecimalInjective(t1, t2);
  }

  /** The URL `uploadToSupabase` returns: the public URL when the upload
      succeeded and a non-empty public URL came back, null otherwise. */
  function UploadedUrl(env: UploadEnv): (url: Option<string>)
    ensures url.Some? <==> !env.uploadError && Truthy(env.publicUrl)
    ensures url.Some? ==> url == env.publicUrl
  {
    if env.uploadError then None
    else if !Truthy(env.publicUrl) then None
    else env.publicUrl
  }

  /** The effects of `uploadToSupabase`: the upload call under the file's
      key, then an alert if no URL came of it. */
  function UploadEffects(file: File, env: UploadEnv): seq<Effect<Call>>
  {
    [Call(Upload(Bucket, StorageKey(env.now, file.name)))]
    + (if UploadedUrl(env).None? then [Alert(UploadFailedAlert)] else [])
  }

  /** The URL an optional file contributes to the row: null when no file is
      selected, the upload's URL (null on failure) otherwise. */
  function SelectedUrl(file: Option<File>, env: UploadEnv): Option<string>
  {
    if file.Some? then UploadedUrl(env) else None
  }

  function SelectedUploadEffects(file: Option<File>, env: UploadEnv): seq<Effect<Call>>
  {
    if file.Some? then UploadEffects(file.value, env) else []
  }

  /** The upload call an optional file leads to. */
  function UploadCalls(file: Option<File>, env: UploadEnv): seq<Call>
  {
    if file.Some? then [Upload(Bucket, StorageKey(env.now, file.value.name))] else []
  }

  /** The form passes validation when neither field is blank. */
  predicate Valid(title: string, content: string)
  {
    Trim(title) != "" && Trim(content) != ""
  }

  /** The row a valid submission inserts. */
  function SubmittedRow(title: string, content: string, imageFile: Option<File>, audioFile: Option<File>,
                        imageEnv: UploadEnv, audioEnv: UploadEnv): (row: BlogRow)
    ensures row.title == Trim(title) && row.content == Trim(content) && row.likes == 0
    ensures imageFile.None? ==> row.imageUrl.None?
    ensures audioFile.None? ==> row.audioUrl.None?
    ensures imageFile.Some? ==> row.imageUrl == UploadedUrl(imageEnv)
    ensures audioFile.Some? ==> row.audioUrl == UploadedUrl(audioEnv)
  {
    BlogRow(Trim(title), Trim(content), SelectedUrl(imageFile, imageEnv), SelectedUrl(audioFile, audioEnv), 0)
  }

  /** Everything `handleSubmit` does, in order, given what the services do.
      `insertError` is the insert's error message, absent on success. */
  function SubmitEffects(title: string, content: string, imageFile: Option<File>, audioFile: Option<File>,
                         imageEnv: UploadEnv, audioEnv: UploadEnv, insertError: Option<string>): (effects: seq<Effect<Call>>)
    ensures !Valid(title, content) ==> effects == [Alert(RequiredAlert)]
    ensures Valid(title, content) && insertError.Some? ==>
      |effects| >= 2 && effects[|effects| - 1] == Alert(PostFailedPrefix + insertError.value)
      && effects[|effects| - 2] == Call(InsertBlog(SubmittedRow(title, content, imageFile, audioFile, imageEnv, audioEnv)))
    ensures Valid(title, content) && insertError.None? ==>
      |effects| >= 3 && effects[|effects| - 1] == Navigate("/blog") && effects[|effects| - 2] == Alert(PostedAlert)
      && effects[|effects| - 3] == Call(InsertBlog(SubmittedRow(title, content, imageFile, audioFile, imageEnv, audioEnv)))
  {
    if !Valid(title, content) then [Alert(RequiredAlert)]
    else
      SelectedUploadEffects(imageFile, imageEnv) + SelectedUploadEffects(audioFile, audioEnv)
      + [Call(InsertBlog(SubmittedRow(title, content, imageFile, audioFile, imageEnv, audioEnv)))]
      + InsertOutcomeEffects(insertError)
  }

  /** What follows the insert: the failure alert, or the success alert and
      the move to the blog listing. */
  function InsertOutcomeEffects(insertError: Option<string>): seq<Effect<Call>>
  {
    match insertError
    case Some(m) => [Alert(PostFailedPrefix + m)]
    case None => [Alert(PostedAlert), Navigate("/blog")]
  }

  lemma UploadEffectsCalls(file: Option<File>, env: UploadEnv)
    ensures Calls(SelectedUploadEffects(file, env)) == UploadCalls(file, env)
  {
  }

  /** A blank title or content stops the submission at an alert: nothing is
      uploaded and nothing inserted. */
  lemma BlankSubmissionCallsNothing(title: string, content: string, imageFile: Option<File>, audioFile: Option<File>,
                                    imageEnv: UploadEnv, audioEnv: UploadEnv, insertError: Option<string>)
    requires IsBlank(title) || IsBlank(content)
    ensures SubmitEffects(title, content, imageFile, audioFile, imageEnv, audioEnv, insertError) == [Alert(RequiredAlert)]
    ensures Calls(SubmitEffects(title, content, imageFile, audioFile, imageEnv, audioEnv, insertError)) == []
  {
  }

  /** A valid submission calls the services in this order: the image upload
      if an image was selected, the audio upload if audio was selected, and
      then the insert, which happens whether or not the uploads succeeded. */
  lemma SubmissionCallOrder(title: string, content: string, imageFile: Option<File>, audioFile: Option<File>,
                            imageEnv: UploadEnv, audioEnv: UploadEnv, insertError: Option<string>)
    requires !IsBlank(title) && !IsBlank(content)
    ensures Calls(SubmitEffects(title, content, imageFile, audioFile, imageEnv, audioEnv, insertError))
         == UploadCalls(imageFile, imageEnv) + UploadCalls(audioFile, audioEnv)
            + [InsertBlog(SubmittedRow(title, content, imageFile, audioFile, imageEnv, audioEnv))]
  {
    var a := SelectedUploadEffects(imageFile, imageEnv);
    var b := SelectedUploadEffects(audioFile, audioEnv);
    var row := SubmittedRow(title, content, imageFile, audioFile, imageEnv, audioEnv);
    var tail := InsertOutcomeEffects(insertError);
    var all := SubmitEffects(title, content, imageFile, audioFile, imageEnv, audioEnv, insertError);
    assert all == a + b + [Call(InsertBlog(row))] + tail;
    CallsAppend(a + b + [Call(InsertBlog(row))], tail);
    CallsAppend(a + b, [Call(InsertBlog(row))]);
    CallsAppend(a, b);
    CallsNone(tail);
    CallsOfCall(InsertBlog(row));
    UploadEffectsCalls(imageFile, imageEnv);
    UploadEffectsCalls(audioFile, audioEnv);
  }

  /** The inserted row holds the trimmed title and content, which are not
      empty, likes 0, and for each medium the uploaded URL, or null when no
      file was selected or its upload failed. */
  lemma SubmittedRowContents(title: string, content: string, imageFile: Option<File>, audioFile: Option<File>,
                             imageEnv: UploadEnv, audioEnv: UploadEnv)
    requires !IsBlank(title) && !IsBlank(content)
    ensures var row := SubmittedRow(title, content, imageFile, audioFile, imageEnv, audioEnv);
      && row.title == Trim(title) && row.title != ""
      && row.content == Trim(content) && row.content != ""
      && row.likes == 0
      && (row.imageUrl.Some? <==> imageFile.Some? && !imageEnv.uploadError && Truthy(imageEnv.publicUrl))
      && (row.audioUrl.Some? <==> audioFile.Some? && !audioEnv.uploadError && Truthy(audioEnv.publicUrl))
  {
  }

  /** The page's state. */
  class AdminPostForm {
    const adminEmail: string
    var title: string
    var content: string
    var imageFile: Option<File>
    var audioFile: Option<File>
    var loading: bool
    var isAdmin: bool
    var uploadProgress: nat

    constructor(adminEmail: string)
      ensures this.adminEmail == adminEmail
      ensures title == "" && content == "" && imageFile == None && audioFile == None
      ensures !loading && !isAdmin && uploadProgress == 0
    {
      this.adminEmail := adminEmail;
      title, content := "", "";
      imageFile, audioFile := None, None;
      loading, isAdmin := false, false;
      uploadProgress := 0;
    }

    /** The route guard: on each authentication event decide whether the
        user is the admin, and send anyone else to "/". */
    method OnAuthStateChanged(user: Option<AuthUser>) returns (navigateTo: Option<string>)
      modifies this`isAdmin
      ensures isAdmin == IsAdmin(user, adminEmail)
      ensures navigateTo == if isAdmin then None else Some("/")
    {
      if user.Some? && user.value.email.Some? && ToLower(user.value.email.value) == ToLower(adminEmail) {
        isAdmin := true;
        navigateTo := None;
      } else {
        isAdmin := false;
        navigateTo := Some("/");
      }
    }

    /** `uploadToSupabase`: progress goes to 10, the file is uploaded under
        its timestamped key, and on success progress goes to 100 and the
        public URL is returned; any failure alerts and returns null. */
    method UploadToStorage(file: File, env: UploadEnv) returns (url: Option<string>, effects: seq<Effect<Call>>)
      modifies this`uploadProgress
      ensures url == UploadedUrl(env)
      ensures effects == UploadEffects(file, env)
      ensures uploadProgress == if url.Some? then 100 else 10
    {
      uploadProgress := 10;
      var key := Decimal(env.now) + "-" + file.name;
      effects := [Call(Upload(Bucket, key))];
      if env.uploadError {
        effects := effects + [Alert(UploadFailedAlert)];
        return None, effects;
      }
      if env.publicUrl.None? || env.publicUrl.value == "" {
        effects := effects + [Alert(UploadFailedAlert)];
        return None, effects;
      }
      uploadProgress := 100;
      url := env.publicUrl;
    }

    /** `handleSubmit`. A blank field alerts and changes nothing. Otherwise
        the selected files are uploaded, the row is inserted, and on success
        the form is cleared; either way loading ends false and progress 0. */
    method HandleSubmit(imageEnv: UploadEnv, audioEnv: UploadEnv, insertError: Option<string>)
      returns (effects: seq<Effect<Call>>)
      modifies this
      ensures effects == SubmitEffects(old(title), old(content), old(imageFile), old(audioFile),
                                       imageEnv, audioEnv, insertError)
      ensures isAdmin == old(isAdmin)
      ensures (title, content, imageFile, audioFile) ==
        if Valid(old(title), old(content)) && insertError.None? then ("", "", None, None)
        else (old(title), old(content), old(imageFile), old(audioFile))
      ensures (loading, uploadProgress) ==
        if Valid(old(title), old(content)) then (false, 0) else (old(loading), old(uploadProgress))
    {
      var trimmedTitle, trimmedContent := Trim(title), Trim(content);
      if trimmedTitle == "" || trimmedContent == "" {
        effects := [Alert(RequiredAlert)];
        return;
      }
      ghost var submitted := (title, content, imageFile, audioFile);
      loading := true;
      var imageUrl: Option<string> := None;
      var audioUrl: Option<string> := None;
      var imageEffects: seq<Effect<Call>> := [];
      var audioEffects: seq<Effect<Call>> := [];
      if imageFile.Some? {
        imageUrl, imageEffects := UploadToStorage(imageFile.value, imageEnv);
      }
      if audioFile.Some? {
        audioUrl, audioEffects := UploadToStorage(audioFile.value, audioEnv);
      }
      var row := BlogRow(trimmedTitle, trimmedContent, imageUrl, audioUrl, 0);
      assert submitted == (title, content, imageFile, audioFile);
      effects := imageEffects + audioEffects + [Call(InsertBlog(row))] + InsertOutcomeEffects(insertError);
      if insertError.None? {
        title, content := "", "";
        imageFile, audioFile := None, None;
      }
      loading := false;
      uploadProgress := 0;
    }
  }
}
