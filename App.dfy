/** The blog application shell (src/App.tsx): the blog view's filter, the
    category list, the category pages' fixed names, and the view state
    machine with the cached posts and links. */
module App {
  import opened Wrappers
  import opened Strings
  import opened Blog
  import opened PostSearch
  import PostEditor

  /** `ViewState`. */
  datatype View = Home | BlogList | PostView | Admin | Books | Movies | Study | AI | Diary | Finance
  {
    predicate IsCategoryView() {
      this in {Books, Movies, Study, AI, Diary, Finance}
    }
  }

  // ---------------------------------------------------------------------------
  // The blog view's filter (getFilteredBlogPosts)

  /** The blog view searches title and excerpt in both languages. */
  predicate BlogSearchMatch(p: BlogPost, query: string) {
    || query == ""
    || Mentions(p.title.en, query) || Mentions(p.title.vi, query)
    || Mentions(p.excerpt.en, query) || Mentions(p.excerpt.vi, query)
  }

  predicate BlogKeeps(p: BlogPost, query: string, category: string, from: string, to: string) {
    BlogSearchMatch(p, query) && InCategory(p, category) && InDateRange(p, from, to)
  }

  function FilteredBlogPosts(posts: seq<BlogPost>, query: string, category: string,
                             from: string, to: string): (r: seq<BlogPost>)
    ensures IsSubsequence(r, posts)
    ensures forall p :: p in r <==> p in posts && BlogKeeps(p, query, category, from, to)
    ensures forall p :: multiset(r)[p] == if BlogKeeps(p, query, category, from, to) then multiset(posts)[p] else 0
  {
    Filter(posts, p => BlogKeeps(p, query, category, from, to))
  }

  /** With the search box, the category select and both dates cleared, the
      blog view lists every post in order. */
  lemma ClearedBlogFilterKeepsAll(posts: seq<BlogPost>)
    ensures FilteredBlogPosts(posts, "", "all", "", "") == posts
  {
  }

  // ---------------------------------------------------------------------------
  // allCategories = Array.from(new Set(posts.flatMap(p => p.categories)))

  function FlatCategories(posts: seq<BlogPost>): (r: seq<string>)
    ensures forall c :: c in r <==> exists p :: p in posts && c in p.categories
  {
    if posts == [] then []
    else
      var rest := FlatCategories(posts[1..]);
      assert forall p :: p in posts <==> p == posts[0] || p in posts[1..] by {
        assert posts == [posts[0]] + posts[1..];
      }
      posts[0].categories + rest
  }

  /** Set iteration order: each value at its first insertion. */
  function DedupFrom(flat: seq<string>, i: nat, seen: seq<string>): seq<string>
    requires i <= |flat|
    decreases |flat| - i
  {
    if i == |flat| then seen
    else if flat[i] in seen then DedupFrom(flat, i + 1, seen)
    else DedupFrom(flat, i + 1, seen + [flat[i]])
  }

  function AllCategories(posts: seq<BlogPost>): seq<string> {
    DedupFrom(FlatCategories(posts), 0, [])
  }

  /** The position of the first occurrence of `x`. */
  function FirstIndex(s: seq<string>, x: string): (k: nat)
    requires x in s
    ensures k < |s| && s[k] == x && x !in s[..k]
  {
    if s[0] == x then 0
    else
      var k := FirstIndex(s[1..], x);
      assert s[..k + 1] == [s[0]] + s[1..][..k];
      k + 1
  }

  ghost predicate Distinct(s: seq<string>) {
    forall i, j :: 0 <= i < j < |s| ==> s[i] != s[j]
  }

  /** `s` lists values of `flat` in the order they first appear there. */
  ghost predicate InFirstAppearanceOrder(s: seq<string>, flat: seq<string>) {
    && (forall x :: x in s ==> x in flat)
    && (forall i, j :: 0 <= i < j < |s| ==> FirstIndex(flat, s[i]) < FirstIndex(flat, s[j]))
  }

  lemma {:induction false} DedupFromCorrect(flat: seq<string>, i: nat, seen: seq<string>)
    requires i <= |flat|
    requires Distinct(seen)
    requires forall x :: x in seen <==> x in flat[..i]
    requires InFirstAppearanceOrder(seen, flat)
    requires forall x :: x in seen ==> FirstIndex(flat, x) < i
    ensures var r := DedupFrom(flat, i, seen);
            Distinct(r) && (forall x :: x in r <==> x in flat) && InFirstAppearanceOrder(r, flat)
    decreases |flat| - i
  {
    if i == |flat| {
      assert flat[..i] == flat;
    } else {
      assert flat[..i + 1] == flat[..i] + [flat[i]];
      if flat[i] in seen {
        DedupFromCorrect(flat, i + 1, seen);
      } else {
        var x := flat[i];
        assert x !in flat[..i];
        assert FirstIndex(flat, x) == i;
        var seen' := seen + [x];
        forall y | y in seen' ensures FirstIndex(flat, y) < i + 1 { }
        DedupFromCorrect(flat, i + 1, seen');
      }
    }
  }

  /** The category select offers every category of every post exactly once,
      in the order the categories first appear in the posts. */
  lemma AllCategoriesCorrect(posts: seq<BlogPost>)
    ensures var r := AllCategories(posts);
            && Distinct(r)
            && (forall c :: c in r <==> exists p :: p in posts && c in p.categories)
            && InFirstAppearanceOrder(r, FlatCategories(posts))
  {
    DedupFromCorrect(FlatCategories(posts), 0, []);
  }

  // ---------------------------------------------------------------------------
  // Category pages (getCurrentCategoryName, getCategoryPosts)

  /** `mapping[view] || ''`. */
  function CategoryNameOf(v: View): string {
    match v
    case Books => "Sách"
    case Movies => "Phim"
    case Study => "Học tập"
    case AI => "AI"
    case Diary => "Nhật kí"
    case Finance => "Tài chính"
    case _ => ""
  }

  /** The view whose page shows the given category. */
  function CategoryViewOf(name: string): (v: Option<View>)
    ensures v.Some? ==> v.value.IsCategoryView()
  {
    if name == "Sách" then Some(Books)
    else if name == "Phim" then Some(Movies)
    else if name == "Học tập" then Some(Study)
    else if name == "AI" then Some(AI)
    else if name == "Nhật kí" then Some(Diary)
    else if name == "Tài chính" then Some(Finance)
    else None
  }

  /** Each of the six category views has its own non-empty category name and
      is found again from it; every other view has the name `''`. */
  lemma CategoryNamesRoundTrip(v: View)
    ensures v.IsCategoryView() <==> CategoryNameOf(v) != ""
    ensures v.IsCategoryView() ==> CategoryViewOf(CategoryNameOf(v)) == Some(v)
    ensures CategoryViewOf(CategoryNameOf(v)).Some? ==> v.IsCategoryView()
  {
  }

  /** The six category pages are exactly the six categories the post editor
      offers. */
  lemma CategoryPagesMatchEditorCategories(name: string)
    ensures name in PostEditor.AvailableCategories <==> CategoryViewOf(name).Some?
    ensures |PostEditor.AvailableCategories| == 6
  {
  }

  function CategoryPosts(posts: seq<BlogPost>, v: View): (r: seq<BlogPost>)
    ensures !v.IsCategoryView() ==> r == []
    ensures v.IsCategoryView() ==>
              forall p :: p in r <==> p in posts && CategoryNameOf(v) in p.categories
    ensures v.IsCategoryView() ==>
              forall p :: multiset(r)[p] == if CategoryNameOf(v) in p.categories then multiset(posts)[p] else 0
    ensures IsSubsequence(r, posts)
  {
    var name := CategoryNameOf(v);
    if name == "" then [] else Filter(posts, (p: BlogPost) => name in p.categories)
  }

  // ---------------------------------------------------------------------------
  // The view state machine and the cached data

  class BlogContent {
    var view: View
    var previousView: View
    var selectedPost: Option<BlogPost>
    var posts: seq<BlogPost>
    var socialLinks: seq<SocialLink>

    constructor ()
      ensures view == Home && previousView == BlogList && selectedPost == None
      ensures posts == [] && socialLinks == []
    {
      view, previousView, selectedPost := Home, BlogList, None;
      posts, socialLinks := [], [];
    }

    /** `handleHomeClick`, `handleBlogClick`, `handleAdminClick` and
        `handleCategoryClick`: show the target view with no post selected. */
    method Navigate(target: View)
      requires target != PostView
      modifies this
      ensures view == target && selectedPost == None
      ensures previousView == old(previousView) && posts == old(posts) && socialLinks == old(socialLinks)
    {
      view := target;
      selectedPost := None;
    }

    /** `handlePostClick`: remembers where the reader came from, unless that
        was already a post. */
    method OpenPost(p: BlogPost)
      modifies this
      ensures view == PostView && selectedPost == Some(p)
      ensures previousView == if old(view) != PostView then old(view) else old(previousView)
      ensures posts == old(posts) && socialLinks == old(socialLinks)
    {
      if view != PostView {
        previousView := view;
      }
      selectedPost := Some(p);
      view := PostView;
    }

    /** `handleBackToBlog`: back to the remembered view, nothing selected. */
    method Back()
      modifies this
      ensures view == old(previousView) && selectedPost == None
      ensures previousView == old(previousView) && posts == old(posts) && socialLinks == old(socialLinks)
    {
      view := previousView;
      selectedPost := None;
    }

    /** The initial load: the fetched lists, or both empty when a request
        failed. */
    method Load(fetched: Option<(seq<BlogPost>, seq<SocialLink>)>)
      modifies this
      ensures fetched.Some? ==> posts == fetched.value.0 && socialLinks == fetched.value.1
      ensures fetched.None? ==> posts == [] && socialLinks == []
      ensures view == old(view) && previousView == old(previousView) && selectedPost == old(selectedPost)
    {
      if fetched.Some? {
        posts, socialLinks := fetched.value.0, fetched.value.1;
      } else {
        posts, socialLinks := [], [];
      }
    }

    /** `refreshData` after a mutation: replaces both lists, or keeps both
        when a request failed. */
    method Refresh(fetched: Option<(seq<BlogPost>, seq<SocialLink>)>)
      modifies this
      ensures fetched.Some? ==> posts == fetched.value.0 && socialLinks == fetched.value.1
      ensures fetched.None? ==> posts == old(posts) && socialLinks == old(socialLinks)
      ensures view == old(view) && previousView == old(previousView) && selectedPost == old(selectedPost)
    {
      if fetched.Some? {
        posts, socialLinks := fetched.value.0, fetched.value.1;
      }
    }
  }

  /** Opening a post, then another from the post page, then going back lands
      on the view the reader started from. */
  method OpenTwiceThenBack(app: BlogContent, p: BlogPost, q: BlogPost)
    requires app.view != PostView
    modifies app
    ensures app.view == old(app.view) && app.selectedPost == None
  {
    app.OpenPost(p);
    app.OpenPost(q);
    app.Back();
  }
}
