/** The pieces the three post lists (blog view, admin list, category page)
    build their filters from: `Array.prototype.filter`, the case-insensitive
    substring test, the category test and the inclusive date bounds. */
module PostSearch {
  import opened Strings
  import opened Blog

  /** `a` is `b` with some elements left out, order kept. */
  ghost predicate IsSubsequence<T>(a: seq<T>, b: seq<T>)
    decreases |b|
  {
    a == [] || (b != [] && ((a[0] == b[0] && IsSubsequence(a[1..], b[1..])) || IsSubsequence(a, b[1..])))
  }

  /** `posts.filter(keep)`: the posts `keep` accepts, in their order. */
  function Filter(posts: seq<BlogPost>, keep: BlogPost -> bool): (r: seq<BlogPost>)
    ensures IsSubsequence(r, posts)
    ensures forall p :: p in r <==> p in posts && keep(p)
    ensures forall p :: multiset(r)[p] == if keep(p) then multiset(posts)[p] else 0
    ensures (forall p :: p in posts ==> keep(p)) ==> r == posts
  {
    if posts == [] then []
    else
      var rest := Filter(posts[1..], keep);
      assert posts == [posts[0]] + posts[1..];
      assert forall p :: p in posts <==> p == posts[0] || p in posts[1..];
      assert multiset(posts) == multiset{posts[0]} + multiset(posts[1..]);
      if keep(posts[0]) then
        assert ([posts[0]] + rest)[1..] == rest;
        [posts[0]] + rest
      else
        rest
  }

  /** Two tests that agree on every post select the same posts. */
  lemma {:induction false} FilterSameTest(posts: seq<BlogPost>, k1: BlogPost -> bool, k2: BlogPost -> bool)
    requires forall p :: p in posts ==> k1(p) == k2(p)
    ensures Filter(posts, k1) == Filter(posts, k2)
  {
    if posts != [] {
      FilterSameTest(posts[1..], k1, k2);
    }
  }

  /** `text.toLowerCase().includes(query.toLowerCase())`. */
  predicate Mentions(text: string, query: string) {
    Contains(Lower(text), Lower(query))
  }

  /** `selectedCategory === 'all' || post.categories.includes(selectedCategory)`. */
  predicate InCategory(p: BlogPost, category: string) {
    category == "all" || category in p.categories
  }

  /** `(from === '' || date >= from) && (to === '' || date <= to)`. */
  predicate InDateRange(p: BlogPost, from: string, to: string) {
    (from == "" || LexLe(from, p.date)) && (to == "" || LexLe(p.date, to))
  }

  /** Both bounds are inclusive: a post dated exactly on either bound is kept. */
  lemma {:induction false} DateBoundsInclusive(p: BlogPost, other: string)
    ensures InDateRange(p, p.date, p.date)
    ensures LexLe(other, p.date) ==> InDateRange(p, other, p.date)
    ensures LexLe(p.date, other) ==> InDateRange(p, p.date, other)
  {
    LexLeReflexive(p.date);
  }

  /** Search is case-insensitive: a query and its lower-cased form find the
      same texts. */
  lemma {:induction false} MentionsIgnoresCase(text: string, query: string)
    ensures Mentions(text, query) == Mentions(text, Lower(query))
  {
    assert Lower(Lower(query)) == Lower(query);
  }
}
