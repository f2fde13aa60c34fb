/**
 * The post list page (components/posts/all-posts.js): the formatted posts without the
 * Russian translations of posts that have one, the search/category/flag/sort pipeline,
 * the counters, the view's filter state and the technology sidebar.
 */
module AllPosts {
  import opened Wrappers
  import opened JsStrings
  import opened Seqs
  import opened PostCards

  /** A listed post: its card, its locale, whether it has a Russian version, and its view count. */
  datatype Listed = Listed(card: Card, locale: string, hasRussianVersion: bool, views: Option<int>)

  /** A post kept by the list: not the Russian translation of a post that has one. */
  predicate Kept(p: RawPost) {
    !(p.hasRussianVersion == Some(true) && p.locale == Some("ru"))
  }

  predicate Dropped(p: RawPost) {
    !Kept(p)
  }

  /** Every post is either kept or dropped. */
  lemma {:induction false} KeptAndDroppedCount(posts: seq<RawPost>)
    ensures |Filter(posts, Kept)| + |Filter(posts, Dropped)| == |posts|
  {
    if posts != [] {
      KeptAndDroppedCount(posts[1..]);
    }
  }

  function FormatListed(p: RawPost): (l: Listed)
    ensures l.card == FormatCard(p)
    ensures l.locale == OrDefault(p.locale, "en")
    ensures l.hasRussianVersion <==> p.hasRussianVersion == Some(true)
    ensures l.views.Some? ==> l.views == p.views && l.views.value != 0
    ensures p.views.Some? && p.views.value != 0 ==> l.views == p.views
  {
    Listed(FormatCard(p), OrDefault(p.locale, "en"), IsSet(p.hasRussianVersion),
           if p.views.Some? && p.views.value != 0 then p.views else None)
  }

  /** `formattedPosts`: the kept posts, formatted, in their order. */
  function FormattedPosts(posts: seq<RawPost>): seq<Listed> {
    MapOf(Filter(posts, Kept), FormatListed)
  }

  /**
   * Exactly the Russian translations are dropped: every other post is listed, in order,
   * and no listed post is a Russian translation of a post with a Russian version.
   */
  lemma FormattedPostsSpec(posts: seq<RawPost>)
    ensures |FormattedPosts(posts)| + |Filter(posts, Dropped)| == |posts|
    ensures forall i :: 0 <= i < |FormattedPosts(posts)| ==>
              FormattedPosts(posts)[i] == FormatListed(Filter(posts, Kept)[i])
    ensures forall i :: 0 <= i < |FormattedPosts(posts)| ==>
              !(FormattedPosts(posts)[i].hasRussianVersion && FormattedPosts(posts)[i].locale == "ru")
    ensures forall p :: p in posts && Kept(p) ==> FormatListed(p) in FormattedPosts(posts)
  {
    var kept := Filter(posts, Kept);
    FilterSpec(posts, Kept);
    KeptAndDroppedCount(posts);
    forall p | p in posts && Kept(p) ensures FormatListed(p) in FormattedPosts(posts) {
      var i :| 0 <= i < |kept| && kept[i] == p;
      assert FormattedPosts(posts)[i] == FormatListed(p);
    }
  }

  /** The search hit: the lowercased title, excerpt or one technology contains the lowercased query. */
  predicate Matches(l: Listed, query: string) {
    var q := ToLower(query);
    || Contains(ToLower(l.card.title), q)
    || Contains(ToLower(l.card.excerpt), q)
    || exists i :: 0 <= i < |l.card.tech| && Contains(ToLower(l.card.tech[i]), q)
  }

  /** The search step: a blank query keeps every post. */
  function Searched(posts: seq<Listed>, query: string): seq<Listed> {
    if Trim(query) != "" then Filter(posts, (l: Listed) => Matches(l, query)) else posts
  }

  lemma BlankQueryKeepsAll(posts: seq<Listed>, query: string)
    requires IsBlank(query)
    ensures Searched(posts, query) == posts
  {
    TrimEmptyIffBlank(query);
  }

  /** A non-blank query keeps exactly the matching posts. */
  lemma SearchSpec(posts: seq<Listed>, query: string)
    requires !IsBlank(query)
    ensures forall l :: l in Searched(posts, query) <==> l in posts && Matches(l, query)
  {
    TrimEmptyIffBlank(query);
    FilterSpec(posts, (l: Listed) => Matches(l, query));
  }

  /** `typeMap[selectedCategory]`. */
  function CategoryType(category: string): Option<string> {
    if category == "projects" then Some("project")
    else if category == "tutorials" then Some("tutorial")
    else if category == "articles" then Some("article")
    else None
  }

  /** The category filter; "all" keeps everything and an unknown category nothing. */
  predicate InCategory(l: Listed, category: string) {
    category == "all" || (CategoryType(category).Some? && l.card.postType == CategoryType(category).value)
  }

  /** The extra filter: "featured", "trending" and "new" keep the flagged posts; any other value keeps all. */
  predicate Flagged(l: Listed, filter: string) {
    if filter == "featured" then l.card.featured
    else if filter == "trending" then l.card.trending
    else if filter == "new" then l.card.isNew
    else true
  }

  /** The posts the search, category and flag filters keep, in their order. */
  function Selection(posts: seq<Listed>, query: string, category: string, filter: string): seq<Listed> {
    Filter(Filter(Searched(posts, query), (l: Listed) => InCategory(l, category)),
           (l: Listed) => Flagged(l, filter))
  }

  /** Filtering only removes posts: the selection is a sub-multiset of the posts, with exactly the posts passing every filter. */
  lemma SelectionSpec(posts: seq<Listed>, query: string, category: string, filter: string)
    ensures multiset(Selection(posts, query, category, filter)) <= multiset(posts)
    ensures forall l :: l in Selection(posts, query, category, filter) <==>
              && l in posts
              && (Trim(query) != "" ==> Matches(l, query))
              && InCategory(l, category) && Flagged(l, filter)
  {
    var searched := Searched(posts, query);
    var inCategory := Filter(searched, (l: Listed) => InCategory(l, category));
    if Trim(query) != "" {
      FilterSpec(posts, (l: Listed) => Matches(l, query));
    }
    FilterSpec(searched, (l: Listed) => InCategory(l, category));
    FilterSpec(inCategory, (l: Listed) => Flagged(l, filter));
  }

  function Date(l: Listed): int {
    l.card.date
  }

  /** A hundred times the "popular" score `(stats?.stars || 0) + (views || 0) / 100`, which orders the same. */
  function PopularScore(l: Listed): int {
    100 * Stars(l.card) + l.views.GetOr(0)
  }

  /** The order of titles under `alphabetical`. */
  function ByTitle(collate: (string, string) -> bool): (le: (Listed, Listed) -> bool) {
    (a: Listed, b: Listed) => collate(a.card.title, b.card.title)
  }

  lemma ByTitleIsTotalPreorder(collate: (string, string) -> bool)
    requires TotalPreorder(collate)
    ensures TotalPreorder(ByTitle(collate))
  {
    forall a: Listed, b: Listed ensures ByTitle(collate)(a, b) || ByTitle(collate)(b, a) {
      assert collate(a.card.title, b.card.title) || collate(b.card.title, a.card.title);
    }
    forall a: Listed, b: Listed, c: Listed | ByTitle(collate)(a, b) && ByTitle(collate)(b, c)
      ensures ByTitle(collate)(a, c)
    {
      assert collate(a.card.title, b.card.title) && collate(b.card.title, c.card.title);
    }
  }

  /**
   * `filteredAndSortedPosts`: search, category and flag filters, then a stable sort:
   * newest first, oldest first, most popular first, or by title under the locale's
   * collation `collate`; any other option keeps the filtered order.
   */
  method FilteredAndSorted(posts: seq<Listed>, query: string, category: string, filter: string,
                           sortOption: string, collate: (string, string) -> bool)
      returns (filtered: seq<Listed>)
    ensures multiset(filtered) == multiset(Selection(posts, query, category, filter))
    ensures sortOption == "newest" ==> SortedBy(filtered, Descending(Date))
    ensures sortOption == "oldest" ==> SortedBy(filtered, Ascending(Date))
    ensures sortOption == "popular" ==> SortedBy(filtered, Descending(PopularScore))
    ensures sortOption == "alphabetical" && TotalPreorder(collate) ==> SortedBy(filtered, ByTitle(collate))
    ensures sortOption !in {"newest", "oldest", "popular", "alphabetical"} ==>
              filtered == Selection(posts, query, category, filter)
  {
    filtered := posts;
    if Trim(query) != "" {
      filtered := Filter(filtered, (l: Listed) => Matches(l, query));
    }
    if category != "all" {
      filtered := Filter(filtered, (l: Listed) => InCategory(l, category));
    }
    if filter == "featured" || filter == "trending" || filter == "new" {
      filtered := Filter(filtered, (l: Listed) => Flagged(l, filter));
    }
    StepsCompose(Searched(posts, query), category, filter);
    KeyOrdersArePreorders(Date);
    KeyOrdersArePreorders(PopularScore);
    if sortOption == "newest" {
      SortByCorrect(filtered, Descending(Date));
      filtered := SortBy(filtered, Descending(Date));
    } else if sortOption == "oldest" {
      SortByCorrect(filtered, Ascending(Date));
      filtered := SortBy(filtered, Ascending(Date));
    } else if sortOption == "popular" {
      SortByCorrect(filtered, Descending(PopularScore));
      filtered := SortBy(filtered, Descending(PopularScore));
    } else if sortOption == "alphabetical" {
      if TotalPreorder(collate) {
        ByTitleIsTotalPreorder(collate);
        SortByCorrect(filtered, ByTitle(collate));
      }
      SortByPermutes(filtered, ByTitle(collate));
      filtered := SortBy(filtered, ByTitle(collate));
    }
  }

  /** Skipping the category filter for "all" and the flag filter for other values changes nothing. */
  lemma {:induction false} StepsCompose(searched: seq<Listed>, category: string, filter: string)
    ensures var afterCategory := if category != "all" then Filter(searched, (l: Listed) => InCategory(l, category)) else searched;
            (if filter == "featured" || filter == "trending" || filter == "new"
             then Filter(afterCategory, (l: Listed) => Flagged(l, filter)) else afterCategory)
            == Filter(Filter(searched, (l: Listed) => InCategory(l, category)), (l: Listed) => Flagged(l, filter))
  {
    if searched != [] {
      StepsCompose(searched[1..], category, filter);
    }
  }

  /** The list counters. */
  datatype Summary = Summary(total: nat, projects: nat, tutorials: nat, articles: nat,
                             totalStars: int, totalViews: int)

  function CardOf(l: Listed): Card {
    l.card
  }

  function ViewsOf(l: Listed): int {
    l.views.GetOr(0)
  }

  /** `stats`: the total is the number of posts, which bounds the per-type counts together. */
  function StatsOf(posts: seq<Listed>): (s: Summary)
    ensures s.total == |posts|
    ensures s.projects + s.tutorials + s.articles <= s.total
    ensures s.projects == multiset(MapOf(MapOf(posts, CardOf), PostTypeOf))["project"]
    ensures s.tutorials == multiset(MapOf(MapOf(posts, CardOf), PostTypeOf))["tutorial"]
    ensures s.articles == multiset(MapOf(MapOf(posts, CardOf), PostTypeOf))["article"]
    ensures s.totalStars == SumOf(MapOf(posts, CardOf), Stars)
    ensures s.totalViews == SumOf(posts, ViewsOf)
  {
    var cards := MapOf(posts, CardOf);
    TypeCountsBound(cards);
    TypeCountIsMultiplicity(cards, "project");
    TypeCountIsMultiplicity(cards, "tutorial");
    TypeCountIsMultiplicity(cards, "article");
    Summary(|posts|, TypeCount(cards, "project"), TypeCount(cards, "tutorial"),
            TypeCount(cards, "article"), TotalStars(cards), SumOf(posts, ViewsOf))
  }

  function TechOf(l: Listed): seq<string> {
    l.card.tech
  }

  /** The sidebar: the distinct technologies in string order, at most fifteen. */
  function SidebarTech(posts: seq<Listed>): seq<string> {
    Take(SortBy(Dedup(Flatten(MapOf(posts, TechOf))), LexLe), 15)
  }

  /** The sidebar is sorted, duplicate-free and at most fifteen long. */
  lemma SidebarShape(posts: seq<Listed>)
    ensures |SidebarTech(posts)| <= 15
    ensures NoDuplicates(SidebarTech(posts))
    ensures SortedBy(SidebarTech(posts), LexLe)
  {
    var distinct := Dedup(Flatten(MapOf(posts, TechOf)));
    var sorted := SortBy(distinct, LexLe);
    LexLeIsTotalPreorder();
    SortByCorrect(distinct, LexLe);
    PermutationNoDuplicates(distinct, sorted);
    var r := SidebarTech(posts);
    assert forall i :: 0 <= i < |r| ==> r[i] == sorted[i];
  }

  /** The distinct technologies are those of the posts. */
  lemma DistinctTechOfPosts(posts: seq<Listed>)
    ensures forall x :: x in Dedup(Flatten(MapOf(posts, TechOf))) <==>
              exists i :: 0 <= i < |posts| && x in posts[i].card.tech
  {
    var lists := MapOf(posts, TechOf);
    forall x ensures x in Flatten(lists) <==> exists i :: 0 <= i < |posts| && x in posts[i].card.tech {
      InFlatten(lists, x);
      if x in Flatten(lists) {
        var i :| 0 <= i < |lists| && x in lists[i];
        assert x in posts[i].card.tech;
      }
    }
  }

  /** The sidebar lists only technologies of the posts, and all of them when there are at most fifteen. */
  lemma SidebarMembers(posts: seq<Listed>)
    ensures forall x :: x in SidebarTech(posts) ==> exists i :: 0 <= i < |posts| && x in posts[i].card.tech
    ensures |Dedup(Flatten(MapOf(posts, TechOf)))| <= 15 ==>
              forall i, x :: 0 <= i < |posts| && x in posts[i].card.tech ==> x in SidebarTech(posts)
  {
    DistinctTechOfPosts(posts);
    SortedPrefixMembers(Dedup(Flatten(MapOf(posts, TechOf))), LexLe, 15);
  }

  /** The expanded post after a click on `postId`: collapsed when it was the one expanded. */
  function ToggledExpansion(expanded: Option<string>, postId: string): (r: Option<string>)
    ensures r.None? <==> expanded == Some(postId)
    ensures r.Some? ==> r == Some(postId)
  {
    if expanded == Some(postId) then None else Some(postId)
  }

  /** Two clicks on the same post restore a collapsed list. */
  lemma ClickTwiceCollapses(postId: string)
    ensures ToggledExpansion(ToggledExpansion(None, postId), postId) == None
  {
  }

  /** The page's filter state. */
  class AllPostsView {
    var searchQuery: string
    var selectedCategory: string
    var selectedFilter: string
    var sortOption: string
    var expandedPostId: Option<string>

    /** The defaults: no search, every category and flag, newest first, nothing expanded. */
    predicate AtDefaults()
      reads this
    {
      searchQuery == "" && selectedCategory == "all" && selectedFilter == "all"
      && sortOption == "newest" && expandedPostId == None
    }

    constructor()
      ensures AtDefaults()
    {
      searchQuery := "";
      selectedCategory := "all";
      selectedFilter := "all";
      sortOption := "newest";
      expandedPostId := None;
    }

    /** `handleResetFilters`. */
    method ResetFilters()
      modifies this
      ensures AtDefaults()
    {
      searchQuery := "";
      selectedCategory := "all";
      selectedFilter := "all";
      sortOption := "newest";
      expandedPostId := None;
    }

    /** `handleSearchClear`: only the query is cleared. */
    method SearchClear()
      modifies this
      ensures searchQuery == ""
      ensures selectedCategory == old(selectedCategory) && selectedFilter == old(selectedFilter)
      ensures sortOption == old(sortOption) && expandedPostId == old(expandedPostId)
    {
      searchQuery := "";
    }

    /** A sidebar technology button: the technology becomes the query. */
    method SearchFor(tech: string)
      modifies this
      ensures searchQuery == tech
      ensures selectedCategory == old(selectedCategory) && selectedFilter == old(selectedFilter)
      ensures sortOption == old(sortOption) && expandedPostId == old(expandedPostId)
    {
      searchQuery := tech;
    }

    /** `handlePostClick`. */
    method PostClick(postId: string)
      modifies this
      ensures expandedPostId == ToggledExpansion(old(expandedPostId), postId)
      ensures searchQuery == old(searchQuery) && selectedCategory == old(selectedCategory)
      ensures selectedFilter == old(selectedFilter) && sortOption == old(sortOption)
    {
      expandedPostId := if expandedPostId == Some(postId) then None else Some(postId);
    }

    /** The posts shown for the current state. */
    method Visible(posts: seq<Listed>, collate: (string, string) -> bool) returns (shown: seq<Listed>)
      ensures multiset(shown) == multiset(Selection(posts, searchQuery, selectedCategory, selectedFilter))
      ensures sortOption == "newest" ==> SortedBy(shown, Descending(Date))
      ensures sortOption == "oldest" ==> SortedBy(shown, Ascending(Date))
      ensures sortOption == "popular" ==> SortedBy(shown, Descending(PopularScore))
      ensures sortOption == "alphabetical" && TotalPreorder(collate) ==> SortedBy(shown, ByTitle(collate))
      ensures sortOption !in {"newest", "oldest", "popular", "alphabetical"} ==>
                shown == Selection(posts, searchQuery, selectedCategory, selectedFilter)
    {
      shown := FilteredAndSorted(posts, searchQuery, selectedCategory, selectedFilter, sortOption, collate);
    }
  }
}
