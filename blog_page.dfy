/** The public blog listing (src/app/components/blogpage.tsx): the fetched
    list, the open post, the admin test by exact email equality, deletion by
    id, the 150-character excerpt and the author fallback. */
module BlogPage {
  import opened Common

  const NoPermissionAlert := "You do not have permission to delete blogs."
  const DeleteFailedAlert := "Failed to delete blog. Please try again."

  /** A row of the "blogs" table as the listing reads it. */
  datatype Blog = Blog(id: string, title: string, content: string, imageUrl: string,
                       createdAt: string, author: Option<string>)

  datatype Call = DeleteBlog(id: string)

  /** The listing's admin test: a signed-in user whose email is exactly the
      configured admin email (case and whitespace count). */
  predicate IsAdmin(user: Option<AuthUser>, adminEmail: Option<string>)
    ensures adminEmail.None? ==> !IsAdmin(user, adminEmail)
    ensures IsAdmin(user, adminEmail) ==> user.Some? && user.value.email == adminEmail
    ensures user.Some? && adminEmail.Some? && user.value.email == adminEmail ==> IsAdmin(user, adminEmail)
  {
    user.Some? && user.value.email.Some? && adminEmail.Some? && user.value.email.value == adminEmail.value
  }

  /** The card text: content of at most 150 characters is shown as it is;
      longer content is cut to its first 150 characters followed by "...". */
  function Excerpt(content: string): (e: string)
    ensures |e| <= 153
    ensures |content| <= 150 ==> e == content
    ensures |content| > 150 ==> |e| == 153 && e[..150] == content[..150] && e[150..] == "..."
  {
    if |content| > 150 then content[..150] + "..." else content
  }

  /** The byline: the post's author, or "Admin" when it has none. */
  function AuthorLabel(author: Option<string>): (a: string)
    ensures a != ""
    ensures Truthy(author) ==> a == author.value
    ensures !Truthy(author) ==> a == "Admin"
  {
    Or(author, "Admin")
  }

  /** The list after a deletion: every entry with the id removed. */
  function RemoveById(blogs: seq<Blog>, id: string): (r: seq<Blog>)
    ensures |r| <= |blogs|
    ensures forall b :: b in r ==> b in blogs && b.id != id
  {
    if blogs == [] then []
    else (if blogs[0].id == id then [] else [blogs[0]]) + RemoveById(blogs[1..], id)
  }

  /** Removing by id distributes over concatenation, so the kept entries
      stay in their original order. */
  lemma {:induction false} RemoveByIdAppend(a: seq<Blog>, b: seq<Blog>, id: string)
    ensures RemoveById(a + b, id) == RemoveById(a, id) + RemoveById(b, id)
  {
    if a == [] {
      assert a + b == b;
    } else {
      var head := if a[0].id == id then [] else [a[0]];
      AppendHeadTail(a, b);
      RemoveByIdAppend(a[1..], b, id);
      AppendAssoc(head, RemoveById(a[1..], id), RemoveById(b, id));
    }
  }

  /** Every entry whose id differs is kept, as often as it occurred. */
  lemma {:induction false} RemoveByIdKeepsOthers(blogs: seq<Blog>, id: string, b: Blog)
    requires b.id != id
    ensures multiset(RemoveById(blogs, id))[b] == multiset(blogs)[b]
  {
    if blogs != [] {
      RemoveByIdKeepsOthers(blogs[1..], id, b);
      assert blogs == [blogs[0]] + blogs[1..];
    }
  }

  /** Deleting an id that no entry has leaves the list as it was. */
  lemma {:induction false} RemoveAbsentId(blogs: seq<Blog>, id: string)
    requires forall i :: 0 <= i < |blogs| ==> blogs[i].id != id
    ensures RemoveById(blogs, id) == blogs
  {
    if blogs != [] {
      RemoveAbsentId(blogs[1..], id);
    }
  }

  /** Deleting the same id twice is deleting it once. */
  lemma RemoveByIdIdempotent(blogs: seq<Blog>, id: string)
    ensures RemoveById(RemoveById(blogs, id), id) == RemoveById(blogs, id)
  {
    var r := RemoveById(blogs, id);
    forall i | 0 <= i < |r| ensures r[i].id != id {
      assert r[i] in r;
    }
    RemoveAbsentId(r, id);
  }

  /** The listing's state. */
  class BlogPageState {
    const adminEmail: Option<string>
    var blogs: seq<Blog>
    var selectedBlog: Option<Blog>
    var loading: bool
    var isAdmin: bool

    constructor(adminEmail: Option<string>)
      ensures this.adminEmail == adminEmail
      ensures blogs == [] && selectedBlog == None && loading && !isAdmin
    {
      this.adminEmail := adminEmail;
      blogs := [];
      selectedBlog := None;
      loading := true;
      isAdmin := false;
    }

    /** `fetchBlogs`: a query error keeps the previous list, a success
        replaces it (no data counts as empty); loading ends either way. */
    method FetchBlogs(reply: Result<Option<seq<Blog>>, string>)
      modifies this`blogs, this`loading
      ensures reply.Err? ==> blogs == old(blogs)
      ensures reply.Ok? && reply.value.Some? ==> blogs == reply.value.value
      ensures reply.Ok? && reply.value.None? ==> blogs == []
      ensures !loading
    {
      if reply.Ok? {
        blogs := if reply.value.Some? then reply.value.value else [];
      }
      loading := false;
    }

    method OnAuthStateChanged(user: Option<AuthUser>)
      modifies this`isAdmin
      ensures isAdmin == IsAdmin(user, adminEmail)
    {
      isAdmin := user.Some? && user.value.email.Some? && adminEmail.Some?
                 && user.value.email.value == adminEmail.value;
    }

    /** "Read More" opens a post. */
    method Open(blog: Blog)
      modifies this`selectedBlog
      ensures selectedBlog == Some(blog)
    {
      selectedBlog := Some(blog);
    }

    /** The close buttons of the post view. */
    method Close()
      modifies this`selectedBlog
      ensures selectedBlog == None
    {
      selectedBlog := None;
    }

    /** `handleDelete`: a non-admin is refused, an unconfirmed delete does
        nothing, a failed delete alerts, and a successful one removes every
        entry with the id and closes the open post. */
    method HandleDelete(id: string, confirmed: bool, deleteError: Option<string>)
      returns (effects: seq<Effect<Call>>)
      modifies this`blogs, this`selectedBlog
      ensures !isAdmin ==> effects == [Alert(NoPermissionAlert)]
      ensures isAdmin && !confirmed ==> effects == []
      ensures isAdmin && confirmed && deleteError.Some? ==>
        effects == [Call(DeleteBlog(id)), Alert(DeleteFailedAlert)]
      ensures isAdmin && confirmed && deleteError.None? ==>
        effects == [Call(DeleteBlog(id))] && blogs == RemoveById(old(blogs), id) && selectedBlog == None
      ensures !(isAdmin && confirmed && deleteError.None?) ==>
        blogs == old(blogs) && selectedBlog == old(selectedBlog)
    {
      if !isAdmin {
        return [Alert(NoPermissionAlert)];
      }
      if !confirmed {
        return [];
      }
      effects := [Call(DeleteBlog(id))];
      if deleteError.Some? {
        effects := effects + [Alert(DeleteFailedAlert)];
      } else {
        blogs := RemoveById(blogs, id);
        selectedBlog := None;
      }
    }
  }
}
