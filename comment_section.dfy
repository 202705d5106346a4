/** The comment thread under a post (src/app/components/commentssection.tsx):
    the signed-in user's id and display name, the comments loaded once and
    then extended by live insert events, and the submit handler. */
module CommentSection {
  import opened Common
  import opened Text

  const Anonymous := "Anonymous"
  const LoginAlert := "Please log in to comment."
  const PostFailedAlert := "Failed to post comment. Please try again."

  /** A row of the "comments" table. */
  datatype Comment = Comment(id: string, postId: string, text: string, createdAt: string,
                             userId: string, username: Option<string>)

  /** The row the submit handler inserts. */
  datatype NewComment = NewComment(postId: string, text: string, userId: string, username: string)

  datatype Call = InsertComment(row: NewComment)

  /** Why the submit handler stops before inserting. */
  datatype Rejection = BlankText | NotSignedIn

  /** The user the storage service reports, with the optional full name
      from its metadata. */
  datatype SessionUser = SessionUser(id: string, fullName: Option<string>)

  /** A database change event as the real-time channel sees it. */
  datatype ChangeKind = Insert | Update | Delete
  datatype ChangeEvent = ChangeEvent(kind: ChangeKind, schema: string, table: string, row: Comment)

  /** The subscription's filter: INSERT events on public.comments whose row
      belongs to this post. */
  predicate Subscribed(e: ChangeEvent, postId: string)
    ensures e.kind != Insert ==> !Subscribed(e, postId)
    ensures e.row.postId != postId ==> !Subscribed(e, postId)
    ensures e.table != "comments" ==> !Subscribed(e, postId)
  {
    e.kind == Insert && e.schema == "public" && e.table == "comments" && e.row.postId == postId
  }

  /** The name shown or stored for a comment: the given name, or
      "Anonymous" when it is missing or empty. */
  function DisplayName(username: Option<string>): (n: string)
    ensures n != ""
    ensures Truthy(username) ==> n == username.value
    ensures !Truthy(username) ==> n == Anonymous
  {
    Or(username, Anonymous)
  }

  /** The submit button is enabled exactly when someone is signed in and the
      draft is not blank. */
  predicate SubmitEnabled(userId: Option<string>, draft: string)
    ensures SubmitEnabled(userId, draft) <==> Truthy(userId) && !IsBlank(draft)
  {
    !(!Truthy(userId) || Trim(draft) == "")
  }

  /** The guards and the row of `handleCommentSubmit`: a blank draft is
      dropped first, then a missing user is refused; otherwise the row
      carries the post, the trimmed text, the user id and the display name.
      The handler inserts exactly when the submit button is enabled. */
  function CheckComment(postId: string, draft: string, userId: Option<string>, username: string)
    : (r: Result<NewComment, Rejection>)
    ensures IsBlank(draft) ==> r == Err(BlankText)
    ensures !IsBlank(draft) && !Truthy(userId) ==> r == Err(NotSignedIn)
    ensures r.Ok? ==>
      && r.value.postId == postId
      && r.value.text == Trim(draft) && r.value.text != ""
      && r.value.userId == userId.value
      && r.value.username == DisplayName(Some(username))
    ensures r.Ok? <==> SubmitEnabled(userId, draft)
  {
    if Trim(draft) == "" then Err(BlankText)
    else if !Truthy(userId) then Err(NotSignedIn)
    else Ok(NewComment(postId, Trim(draft), userId.value, Or(Some(username), Anonymous)))
  }

  /** The list after the channel delivers a run of events: each subscribed
      event appends its row, every other event is not delivered. */
  function LiveAppend(comments: seq<Comment>, events: seq<ChangeEvent>, postId: string): (r: seq<Comment>)
    ensures |comments| <= |r| <= |comments| + |events|
    ensures r[..|comments|] == comments
    ensures forall i :: |comments| <= i < |r| ==> r[i].postId == postId
    decreases |events|
  {
    if events == [] then comments
    else
      var next := if Subscribed(events[0], postId) then comments + [events[0].row] else comments;
      LiveAppend(next, events[1..], postId)
  }

  /** Delivering two runs of events one after the other is delivering their
      concatenation. */
  lemma {:induction false} LiveAppendConcat(comments: seq<Comment>, e1: seq<ChangeEvent>, e2: seq<ChangeEvent>, postId: string)
    ensures LiveAppend(comments, e1 + e2, postId) == LiveAppend(LiveAppend(comments, e1, postId), e2, postId)
    decreases |e1|
  {
    if e1 != [] {
      assert (e1 + e2)[0] == e1[0];
      assert (e1 + e2)[1..] == e1[1..] + e2;
      var next := if Subscribed(e1[0], postId) then comments + [e1[0].row] else comments;
      LiveAppendConcat(next, e1[1..], e2, postId);
    } else {
      assert e1 + e2 == e2;
    }
  }

  /** One subscribed insert appends exactly its row at the end; an event
      outside the filter changes nothing. */
  lemma LiveAppendOne(comments: seq<Comment>, e: ChangeEvent, postId: string)
    ensures Subscribed(e, postId) ==> LiveAppend(comments, [e], postId) == comments + [e.row]
    ensures !Subscribed(e, postId) ==> LiveAppend(comments, [e], postId) == comments
  {
  }

  /** The thread's state. */
  class CommentSectionState {
    const postId: string
    var comments: seq<Comment>
    var newComment: string
    var userId: Option<string>
    var username: string

    constructor(postId: string)
      ensures this.postId == postId
      ensures comments == [] && newComment == "" && userId == None && username == ""
    {
      this.postId := postId;
      comments := [];
      newComment := "";
      userId := None;
      username := "";
    }

    /** The first half of the initial load: a reported user sets the id and
        the display name, "Anonymous" without a full name. */
    method LoadUser(user: Option<SessionUser>)
      modifies this`userId, this`username
      ensures user.None? ==> userId == old(userId) && username == old(username)
      ensures user.Some? ==> userId == Some(user.value.id) && username == DisplayName(user.value.fullName)
    {
      if user.Some? {
        userId := Some(user.value.id);
        username := Or(user.value.fullName, Anonymous);
      }
    }

    /** The second half of the initial load: the post's comments, as the
        query returns them (ordered by creation time), replace the list; a
        query error keeps it. */
    method LoadComments(reply: Result<Option<seq<Comment>>, string>)
      modifies this`comments
      ensures reply.Err? ==> comments == old(comments)
      ensures reply.Ok? && reply.value.Some? ==> comments == reply.value.value
      ensures reply.Ok? && reply.value.None? ==> comments == []
    {
      if reply.Ok? {
        comments := if reply.value.Some? then reply.value.value else [];
      }
    }

    /** The real-time callback, for an event the channel considers. */
    method OnChange(e: ChangeEvent)
      modifies this`comments
      ensures comments == LiveAppend(old(comments), [e], postId)
    {
      if Subscribed(e, postId) {
        comments := comments + [e.row];
      }
      LiveAppendOne(old(comments), e, postId);
    }

    /** `handleCommentSubmit`. A blank draft does nothing at all; without a
        user it alerts; otherwise it inserts the row and clears the draft
        only if the insert succeeded. */
    method HandleCommentSubmit(insertError: Option<string>) returns (effects: seq<Effect<Call>>)
      modifies this`newComment
      ensures match CheckComment(postId, old(newComment), userId, username)
        case Err(BlankText) => effects == [] && newComment == old(newComment)
        case Err(NotSignedIn) => effects == [Alert(LoginAlert)] && newComment == old(newComment)
        case Ok(row) =>
          if insertError.Some? then effects == [Call(InsertComment(row)), Alert(PostFailedAlert)] && newComment == old(newComment)
          else effects == [Call(InsertComment(row))] && newComment == ""
    {
      var text := Trim(newComment);
      if text == "" {
        return [];
      }
      if userId.None? || userId.value == "" {
        return [Alert(LoginAlert)];
      }
      var name := if username != "" then username else Anonymous;
      effects := [Call(InsertComment(NewComment(postId, text, userId.value, name)))];
      if insertError.Some? {
        effects := effects + [Alert(PostFailedAlert)];
      } else {
        newComment := "";
      }
    }
  }
}
