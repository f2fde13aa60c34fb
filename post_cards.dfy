/**
 * The post record the home-page and post-list components receive, and the card both
 * derive from it with the same defaults (components/home-page/featured-posts.js:22-38,
 * components/posts/all-posts.js:44-59). Dates are timestamps: the parsing of date
 * strings is not part of this model.
 */
module PostCards {
  import opened Wrappers
  import opened Seqs

  /** The repository statistics a post may carry. */
  datatype Stats = Stats(stars: Option<int>)

  /** The front-matter fields the components read; `None` is a missing field. */
  datatype RawPost = RawPost(
    slug: string,
    postType: Option<string>,
    title: string,
    excerpt: string,
    date: int,
    tech: Option<seq<string>>,
    stats: Option<Stats>,
    isFeatured: Option<bool>,
    isTrending: Option<bool>,
    isNew: Option<bool>,
    locale: Option<string>,
    hasRussianVersion: Option<bool>,
    views: Option<int>)

  /** A formatted post as the components filter, sort and count it. */
  datatype Card = Card(
    id: string,
    postType: string,
    title: string,
    excerpt: string,
    date: int,
    slug: string,
    tech: seq<string>,
    stats: Option<Stats>,
    featured: bool,
    trending: bool,
    isNew: bool)

  /** `s || fallback` for a possibly missing string: the empty string is falsy too. */
  function OrDefault(s: Option<string>, fallback: string): (r: string)
    ensures (s.None? || s == Some("")) ==> r == fallback
    ensures s.Some? && s.value != "" ==> r == s.value
  {
    if s.Some? && s.value != "" then s.value else fallback
  }

  /** `flag || false`. */
  predicate IsSet(flag: Option<bool>) {
    flag == Some(true)
  }

  /** The card of a post, with the defaults for missing fields. */
  function FormatCard(p: RawPost): (c: Card)
    ensures c.id == p.slug && c.slug == p.slug
    ensures c.title == p.title && c.excerpt == p.excerpt && c.date == p.date
    ensures c.postType == OrDefault(p.postType, "article")
    ensures p.tech.None? ==> c.tech == []
    ensures p.tech.Some? ==> c.tech == p.tech.value
    ensures c.stats == p.stats
    ensures c.featured <==> p.isFeatured == Some(true)
    ensures c.trending <==> p.isTrending == Some(true)
    ensures c.isNew <==> p.isNew == Some(true)
  {
    Card(p.slug, OrDefault(p.postType, "article"), p.title, p.excerpt, p.date, p.slug,
         p.tech.GetOr([]), p.stats, IsSet(p.isFeatured), IsSet(p.isTrending), IsSet(p.isNew))
  }

  /** `post.stats?.stars || 0`. */
  function Stars(c: Card): int {
    if c.stats.Some? then c.stats.value.stars.GetOr(0) else 0
  }

  predicate HasStats(c: Card) {
    c.stats.Some?
  }

  /** `posts.filter(p => p.stats).reduce((sum, p) => sum + (p.stats.stars || 0), 0)`. */
  function TotalStars(cards: seq<Card>): (total: int)
    ensures total == SumOf(cards, Stars)
  {
    SumOfFilter(cards, HasStats, Stars);
    SumOf(Filter(cards, HasStats), Stars)
  }

  /** `posts.filter(p => p.type === t).length`. */
  function TypeCount(cards: seq<Card>, t: string): nat {
    |Filter(cards, (c: Card) => c.postType == t)|
  }

  function PostTypeOf(c: Card): string {
    c.postType
  }

  /** A type count is the number of times the type occurs among the cards' types. */
  lemma {:induction false} TypeCountIsMultiplicity(cards: seq<Card>, t: string)
    ensures TypeCount(cards, t) == multiset(MapOf(cards, PostTypeOf))[t]
  {
    if cards != [] {
      TypeCountIsMultiplicity(cards[1..], t);
      assert MapOf(cards, PostTypeOf) == [cards[0].postType] + MapOf(cards[1..], PostTypeOf);
    }
  }

  /** A card has one type, so the project, tutorial and article counts add up to at most the cards. */
  lemma TypeCountsBound(cards: seq<Card>)
    ensures TypeCount(cards, "project") + TypeCount(cards, "tutorial") + TypeCount(cards, "article") <= |cards|
  {
    ExclusiveFiltersBound(cards, (c: Card) => c.postType == "project",
                          (c: Card) => c.postType == "tutorial", (c: Card) => c.postType == "article");
  }
}
