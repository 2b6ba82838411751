/** A category page (src/components/CategoryPage.tsx): App hands it the posts
    of one category, and the page narrows them by search text and dates only. */
module CategoryPage {
  import opened Strings
  import opened Blog
  import opened PostSearch
  import App

  /** The page's own copy of the search test: title and excerpt, both
      languages. */
  predicate PageKeeps(p: BlogPost, query: string, from: string, to: string) {
    && (|| query == ""
        || Mentions(p.title.en, query) || Mentions(p.title.vi, query)
        || Mentions(p.excerpt.en, query) || Mentions(p.excerpt.vi, query))
    && InDateRange(p, from, to)
  }

  function PageFilteredPosts(posts: seq<BlogPost>, query: string, from: string, to: string): (r: seq<BlogPost>)
    ensures IsSubsequence(r, posts)
    ensures forall p :: p in r <==> p in posts && PageKeeps(p, query, from, to)
    ensures forall p :: multiset(r)[p] == if PageKeeps(p, query, from, to) then multiset(posts)[p] else 0
  {
    Filter(posts, p => PageKeeps(p, query, from, to))
  }

  /** The page filters exactly as the blog view does with the category set
      to `'all'`: there is no category test of its own. */
  lemma PageIsBlogFilterWithAllCategories(posts: seq<BlogPost>, query: string, from: string, to: string)
    ensures PageFilteredPosts(posts, query, from, to) == App.FilteredBlogPosts(posts, query, "all", from, to)
  {
    FilterSameTest(posts, p => PageKeeps(p, query, from, to),
                   p => App.BlogKeeps(p, query, "all", from, to));
  }

  /** With no query and no dates the page shows every post it was given. */
  lemma ClearedPageFilterKeepsAll(posts: seq<BlogPost>)
    ensures PageFilteredPosts(posts, "", "", "") == posts
  {
  }

  /** The "no posts" line is shown exactly when nothing passes the filter. */
  predicate ShowsNoPostsMessage(posts: seq<BlogPost>, query: string, from: string, to: string) {
    |PageFilteredPosts(posts, query, from, to)| == 0
  }

  lemma NoPostsMessageIffNothingMatches(posts: seq<BlogPost>, query: string, from: string, to: string)
    ensures ShowsNoPostsMessage(posts, query, from, to) <==>
              forall p :: p in posts ==> !PageKeeps(p, query, from, to)
  {
    var r := PageFilteredPosts(posts, query, from, to);
    if |r| != 0 {
      assert r[0] in r;
    }
  }
}
