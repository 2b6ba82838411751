/** The admin dashboard (src/pages/AdminDashboard.tsx): its post filter, which
    searches titles only, and the view, editing and confirmation-dialog state
    behind the create, edit, save, cancel and delete handlers. The parent's
    callbacks are recorded in order in `calls`; the toasts in `toasts`. */
module AdminDashboard {
  import opened Wrappers
  import opened Strings
  import opened Blog
  import opened PostSearch
  import opened PostEditor
  import opened LinkEditor
  import App

  // ---------------------------------------------------------------------------
  // The post filter

  /** The dashboard searches `title.en` and `title.vi` only. */
  predicate AdminSearchMatch(p: BlogPost, query: string) {
    query == "" || Mentions(p.title.en, query) || Mentions(p.title.vi, query)
  }

  predicate AdminKeeps(p: BlogPost, query: string, category: string, from: string, to: string) {
    AdminSearchMatch(p, query) && InCategory(p, category) && InDateRange(p, from, to)
  }

  function AdminFilteredPosts(posts: seq<BlogPost>, query: string, category: string,
                              from: string, to: string): (r: seq<BlogPost>)
    ensures IsSubsequence(r, posts)
    ensures forall p :: p in r <==> p in posts && AdminKeeps(p, query, category, from, to)
    ensures forall p :: multiset(r)[p] == if AdminKeeps(p, query, category, from, to) then multiset(posts)[p] else 0
  {
    Filter(posts, p => AdminKeeps(p, query, category, from, to))
  }

  /** Every post the dashboard lists is also listed by the blog view under the
      same query, category and dates. */
  lemma AdminResultsAreBlogResults(posts: seq<BlogPost>, query: string, category: string,
                                   from: string, to: string)
    ensures forall p :: p in AdminFilteredPosts(posts, query, category, from, to) ==>
                         p in App.FilteredBlogPosts(posts, query, category, from, to)
  {
  }

  /** A post that mentions the query only in its excerpt, and passes the
      category and date tests, is found by the blog view and not by the
      dashboard. */
  lemma ExcerptOnlyMatchDiffers(p: BlogPost, query: string, category: string, from: string, to: string)
    requires Mentions(p.excerpt.en, query) || Mentions(p.excerpt.vi, query)
    requires !Mentions(p.title.en, query) && !Mentions(p.title.vi, query)
    requires InCategory(p, category) && InDateRange(p, from, to)
    ensures App.FilteredBlogPosts([p], query, category, from, to) == [p]
    ensures AdminFilteredPosts([p], query, category, from, to) == []
  {
    if query == "" {
      ContainsEmpty(Lower(p.title.en));
      assert false;
    }
  }

  // ---------------------------------------------------------------------------
  // Dashboard state

  datatype DashboardView = PostsList | PostsCreate | PostsEdit | SocialList | SocialCreate | SocialEdit
  {
    /** `view.startsWith('posts')`. */
    predicate InPosts() { this in {PostsList, PostsCreate, PostsEdit} }
  }

  /** A callback into the parent (App), in the order the dashboard makes them. */
  datatype Call =
    | CreatePost(post: PostForm)
    | UpdatePost(post: PostForm)
    | DeletePost(postId: string)
    | CreateLink(platform: SocialPlatform, username: string, url: string)
    | UpdateLink(link: LinkData)
    | DeleteLink(linkId: string)

  datatype Toast = Success(message: string) | Error(message: string)

  /** The confirmation dialog: its texts and the delete it runs on confirm
      (`None` is the initial no-op). Closing keeps everything but `isOpen`. */
  datatype Dialog = Dialog(isOpen: bool, title: string, message: string, onConfirm: Option<Call>)

  /** `post?.title.en || post?.title.vi || 'this post'`. */
  function PostLabel(post: Option<BlogPost>): (r: string)
    ensures r != ""
    ensures post.Some? && post.value.title.en != "" ==> r == post.value.title.en
    ensures post.Some? && post.value.title.en == "" && post.value.title.vi != "" ==> r == post.value.title.vi
    ensures (post.None? || post.value.title == BilingualText("", "")) ==> r == "this post"
  {
    if post.Some? && post.value.title.en != "" then post.value.title.en
    else if post.Some? && post.value.title.vi != "" then post.value.title.vi
    else "this post"
  }

  /** `xs.find(matches)`: the first element that matches, if any. */
  function FindFirst<T(==,!new)>(xs: seq<T>, matches: T -> bool): (r: Option<T>)
    ensures r.None? <==> forall x :: x in xs ==> !matches(x)
    ensures r.Some? ==> exists k :: 0 <= k < |xs| && xs[k] == r.value && matches(xs[k])
                                    && forall j :: 0 <= j < k ==> !matches(xs[j])
  {
    if xs == [] then None
    else if matches(xs[0]) then Some(xs[0])
    else
      var r := FindFirst(xs[1..], matches);
      FindFirstSkip(xs, matches, r);
      r
  }

  /** When the head does not match, the search of the tail is the search of
      the whole. */
  lemma FindFirstSkip<T>(xs: seq<T>, matches: T -> bool, r: Option<T>)
    requires xs != [] && !matches(xs[0])
    requires r.None? <==> forall x :: x in xs[1..] ==> !matches(x)
    requires r.Some? ==> exists k :: 0 <= k < |xs[1..]| && xs[1..][k] == r.value && matches(xs[1..][k])
                                     && forall j :: 0 <= j < k ==> !matches(xs[1..][j])
    ensures r.None? <==> forall x :: x in xs ==> !matches(x)
    ensures r.Some? ==> exists k :: 0 <= k < |xs| && xs[k] == r.value && matches(xs[k])
                                    && forall j :: 0 <= j < k ==> !matches(xs[j])
  {
    assert forall x :: x in xs <==> x == xs[0] || x in xs[1..] by {
      assert xs == [xs[0]] + xs[1..];
    }
    if r.Some? {
      var k :| 0 <= k < |xs[1..]| && xs[1..][k] == r.value && matches(xs[1..][k])
               && forall j :: 0 <= j < k ==> !matches(xs[1..][j]);
      assert xs[k + 1] == r.value;
      assert forall j :: 1 <= j < k + 1 ==> xs[j] == xs[1..][j - 1];
    }
  }

  /** `link?.platform || 'social link'`: a platform name is never empty. */
  function LinkLabel(link: Option<SocialLink>): (r: string)
    ensures link.Some? ==> r == PlatformName(link.value.platform)
    ensures link.None? ==> r == "social link"
  {
    if link.Some? then PlatformName(link.value.platform) else "social link"
  }

  /** `err?.message || fallback`: the toast text of a failed call. */
  function FailureText(message: string, fallback: string): (r: string)
    ensures message != "" ==> r == message
    ensures message == "" ==> r == fallback
  {
    if message != "" then message else fallback
  }

  /** The id of a saved form counts only when it is a non-empty string. */
  predicate HasId(id: Option<string>) {
    id.Some? && id.value != ""
  }

  class Dashboard {
    var view: DashboardView
    var editingPost: Option<BlogPost>
    var editingLink: Option<SocialLink>
    var dialog: Dialog
    var toasts: seq<Toast>
    var calls: seq<Call>

    constructor ()
      ensures view == PostsList && editingPost.None? && editingLink.None?
      ensures dialog == Dialog(false, "", "", None) && toasts == [] && calls == []
    {
      view, editingPost, editingLink := PostsList, None, None;
      dialog := Dialog(false, "", "", None);
      toasts, calls := [], [];
    }

    /** `handleCreatePostClick`. */
    method NewPost()
      modifies this
      ensures view == PostsCreate && editingPost.None?
      ensures editingLink == old(editingLink) && dialog == old(dialog)
      ensures toasts == old(toasts) && calls == old(calls)
    {
      editingPost := None;
      view := PostsCreate;
    }

    /** `handleEditPostClick`. */
    method EditPost(p: BlogPost)
      modifies this
      ensures view == PostsEdit && editingPost == Some(p)
      ensures editingLink == old(editingLink) && dialog == old(dialog)
      ensures toasts == old(toasts) && calls == old(calls)
    {
      editingPost := Some(p);
      view := PostsEdit;
    }

    /** `handleCreateLinkClick`. */
    method NewLink()
      modifies this
      ensures view == SocialCreate && editingLink.None?
      ensures editingPost == old(editingPost) && dialog == old(dialog)
      ensures toasts == old(toasts) && calls == old(calls)
    {
      editingLink := None;
      view := SocialCreate;
    }

    /** `handleEditLinkClick`. */
    method EditLink(l: SocialLink)
      modifies this
      ensures view == SocialEdit && editingLink == Some(l)
      ensures editingPost == old(editingPost) && dialog == old(dialog)
      ensures toasts == old(toasts) && calls == old(calls)
    {
      editingLink := Some(l);
      view := SocialEdit;
    }

    /** `handleSavePost`: update when the form has an id, create otherwise.
        `failure` is the rejected call's message, `None` when it succeeded. */
    method SavePost(data: PostForm, failure: Option<string>)
      modifies this
      ensures calls == old(calls) + [if HasId(data.id) then UpdatePost(data) else CreatePost(data)]
      ensures failure.None? ==>
                && view == PostsList
                && toasts == old(toasts) + [Success(if HasId(data.id) then "Post updated successfully!" else "Post created successfully!")]
      ensures failure.Some? ==>
                && view == old(view)
                && toasts == old(toasts) + [Error(FailureText(failure.value, "Failed to save post. Please try again."))]
      ensures editingPost == old(editingPost) && editingLink == old(editingLink) && dialog == old(dialog)
    {
      if HasId(data.id) {
        calls := calls + [UpdatePost(data)];
      } else {
        calls := calls + [CreatePost(data)];
      }
      if failure.None? {
        toasts := toasts + [Success(if HasId(data.id) then "Post updated successfully!" else "Post created successfully!")];
        view := PostsList;
      } else {
        toasts := toasts + [Error(FailureText(failure.value, "Failed to save post. Please try again."))];
      }
    }

    /** `handleSaveLink`: the create path passes the fields without any `id`;
        success returns to the list. */
    method SaveLink(data: LinkData, failure: Option<string>)
      modifies this
      ensures calls == old(calls) + [if HasId(data.id) then UpdateLink(data)
                                     else CreateLink(data.platform, data.username, data.url)]
      ensures failure.None? ==>
                && view == SocialList
                && toasts == old(toasts) + [Success(if HasId(data.id) then "Social link updated successfully!" else "Social link created successfully!")]
      ensures failure.Some? ==>
                && view == old(view)
                && toasts == old(toasts) + [Error(FailureText(failure.value, "Failed to save social link. Please try again."))]
      ensures editingPost == old(editingPost) && editingLink == old(editingLink) && dialog == old(dialog)
    {
      if HasId(data.id) {
        calls := calls + [UpdateLink(data)];
      } else {
        calls := calls + [CreateLink(data.platform, data.username, data.url)];
      }
      if failure.None? {
        toasts := toasts + [Success(if HasId(data.id) then "Social link updated successfully!" else "Social link created successfully!")];
        view := SocialList;
      } else {
        toasts := toasts + [Error(FailureText(failure.value, "Failed to save social link. Please try again."))];
      }
    }

    /** `handleDeletePost`: only opens the dialog; nothing is deleted yet. */
    method AskDeletePost(posts: seq<BlogPost>, postId: string)
      modifies this
      ensures dialog.isOpen && dialog.onConfirm == Some(DeletePost(postId))
      ensures dialog.title == "Delete Post"
      ensures dialog.message == "Are you sure you want to delete \"" + PostLabel(FindFirst(posts, (p: BlogPost) => p.id == postId))
                                + "\"? This action cannot be undone."
      ensures calls == old(calls) && toasts == old(toasts)
      ensures view == old(view) && editingPost == old(editingPost) && editingLink == old(editingLink)
    {
      var shown := PostLabel(FindFirst(posts, (p: BlogPost) => p.id == postId));
      dialog := Dialog(true, "Delete Post",
                       "Are you sure you want to delete \"" + shown + "\"? This action cannot be undone.",
                       Some(DeletePost(postId)));
    }

    /** `handleDeleteSocialLink`: only opens the dialog. */
    method AskDeleteLink(links: seq<SocialLink>, linkId: string)
      modifies this
      ensures dialog.isOpen && dialog.onConfirm == Some(DeleteLink(linkId))
      ensures dialog.title == "Delete Social Link"
      ensures dialog.message == "Are you sure you want to delete the "
                                + LinkLabel(FindFirst(links, (l: SocialLink) => l.id == linkId))
                                + " link? This action cannot be undone."
      ensures calls == old(calls) && toasts == old(toasts)
      ensures view == old(view) && editingPost == old(editingPost) && editingLink == old(editingLink)
    {
      var link := FindFirst(links, (l: SocialLink) => l.id == linkId);
      dialog := Dialog(true, "Delete Social Link",
                       "Are you sure you want to delete the " + LinkLabel(link) + " link? This action cannot be undone.",
                       Some(DeleteLink(linkId)));
    }

    /** The dialog's confirm button: runs the pending delete, then closes.
        `failure` is the rejected call's message, `None` when it succeeded. */
    method Confirm(failure: Option<string>)
      requires dialog.isOpen
      modifies this
      ensures calls == old(calls) + (if dialog.onConfirm.Some? then [dialog.onConfirm.value] else [])
      ensures dialog == old(dialog).(isOpen := false)
      ensures dialog.onConfirm.None? ==> toasts == old(toasts)
      ensures dialog.onConfirm.Some? && failure.None? ==>
                toasts == old(toasts) + [Success(if dialog.onConfirm.value.DeletePost? then "Post deleted successfully!"
                                                 else "Social link deleted successfully!")]
      ensures dialog.onConfirm.Some? && failure.Some? ==>
                toasts == old(toasts) + [Error(FailureText(failure.value,
                                                           if dialog.onConfirm.value.DeletePost? then "Failed to delete post. Please try again."
                                                           else "Failed to delete social link. Please try again."))]
      ensures view == old(view) && editingPost == old(editingPost) && editingLink == old(editingLink)
    {
      match dialog.onConfirm {
        case Some(call) =>
        calls := calls + [call];
        var isPost := call.DeletePost?;
        if failure.None? {
          toasts := toasts + [Success(if isPost then "Post deleted successfully!" else "Social link deleted successfully!")];
        } else {
          toasts := toasts + [Error(FailureText(failure.value,
                              if isPost then "Failed to delete post. Please try again."
                              else "Failed to delete social link. Please try again."))];
        }
        case None =>
      }
      dialog := dialog.(isOpen := false);
    }

    /** The dialog's close or cancel button: nothing is deleted. */
    method Dismiss()
      modifies this
      ensures dialog == old(dialog).(isOpen := false)
      ensures calls == old(calls) && toasts == old(toasts)
      ensures view == old(view) && editingPost == old(editingPost) && editingLink == old(editingLink)
    {
      dialog := dialog.(isOpen := false);
    }

    /** `handleCancel`: back to the current section's list, clearing only
        that section's editing item. */
    method Cancel()
      modifies this
      ensures old(view).InPosts() ==> view == PostsList && editingPost.None? && editingLink == old(editingLink)
      ensures !old(view).InPosts() ==> view == SocialList && editingLink.None? && editingPost == old(editingPost)
      ensures dialog == old(dialog) && calls == old(calls) && toasts == old(toasts)
    {
      if view.InPosts() {
        view := PostsList;
        editingPost := None;
      } else {
        view := SocialList;
        editingLink := None;
      }
    }
  }

  /** A delete request followed by a dismissal calls nothing; followed by a
      confirmation it calls exactly that delete. */
  method AskThenDecide(d: Dashboard, posts: seq<BlogPost>, postId: string, confirm: bool)
    modifies d
    ensures !confirm ==> d.calls == old(d.calls)
    ensures confirm ==> d.calls == old(d.calls) + [DeletePost(postId)]
    ensures !d.dialog.isOpen
  {
    d.AskDeletePost(posts, postId);
    if confirm {
      d.Confirm(None);
    } else {
      d.Dismiss();
    }
  }
}
