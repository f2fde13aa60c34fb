/**
 * The home-page post grid (components/home-page/featured-posts.js): the formatted
 * cards, the technology filter list, the tab/technology/sort pipeline and the counters.
 */
module FeaturedPosts {
  import opened Wrappers
  import opened Seqs
  import opened PostCards

  /** `formattedPosts`: one card per post, in order. */
  function FormattedPosts(posts: seq<RawPost>): (cards: seq<Card>)
    ensures |cards| == |posts|
    ensures forall i :: 0 <= i < |posts| ==> cards[i] == FormatCard(posts[i])
  {
    MapOf(posts, FormatCard)
  }

  function TechLists(cards: seq<Card>): seq<seq<string>> {
    MapOf(cards, (c: Card) => c.tech)
  }

  /**
   * The effect behind `allTechStack`: with cards present, "all" followed by every
   * technology once in first-occurrence order; with none, the list stays as it was.
   */
  method AllTechStack(cards: seq<Card>, previous: seq<string>) returns (stack: seq<string>)
    ensures |cards| == 0 ==> stack == previous
    ensures |cards| > 0 ==> stack == ["all"] + Dedup(Flatten(TechLists(cards)))
  {
    if |cards| > 0 {
      var distinct := CollectDistinct(TechLists(cards));
      stack := ["all"] + distinct;
    } else {
      stack := previous;
    }
  }

  /** After "all", each technology of the cards appears exactly once. */
  lemma TechStackSpec(cards: seq<Card>)
    ensures NoDuplicates(Dedup(Flatten(TechLists(cards))))
    ensures forall x :: x in Dedup(Flatten(TechLists(cards))) <==>
              exists i :: 0 <= i < |cards| && x in cards[i].tech
  {
    forall x ensures x in Flatten(TechLists(cards)) <==> exists i :: 0 <= i < |cards| && x in cards[i].tech {
      InFlatten(TechLists(cards), x);
    }
  }

  /** `typeMap[activeTab]`. */
  function TabType(tab: string): Option<string> {
    if tab == "repositories" then Some("project")
    else if tab == "tutorials" then Some("tutorial")
    else if tab == "insights" then Some("article")
    else None
  }

  /** The tab filter: "all" keeps everything; another tab keeps its mapped type, and nothing when it maps to none. */
  predicate InTab(c: Card, tab: string) {
    tab == "all" || (TabType(tab).Some? && c.postType == TabType(tab).value)
  }

  /** The technology filter: "all" keeps everything. */
  predicate HasTech(c: Card, tech: string) {
    tech == "all" || tech in c.tech
  }

  /** The cards the tab and technology filters keep, in their order. */
  function Selection(cards: seq<Card>, tab: string, tech: string): seq<Card> {
    Filter(cards, (c: Card) => InTab(c, tab) && HasTech(c, tech))
  }

  /** The selection holds exactly the cards passing both filters, each at most as often as in the cards. */
  lemma SelectionSpec(cards: seq<Card>, tab: string, tech: string)
    ensures forall c :: c in Selection(cards, tab, tech) <==> c in cards && InTab(c, tab) && HasTech(c, tech)
    ensures multiset(Selection(cards, tab, tech)) <= multiset(cards)
    ensures |Selection(cards, tab, tech)| <= |cards|
  {
    FilterSpec(cards, (c: Card) => InTab(c, tab) && HasTech(c, tech));
  }

  /** The "popular" score, `(stats?.stars || 0) + (featured ? 50 : 0)`. */
  function PopularScore(c: Card): int {
    Stars(c) + if c.featured then 50 else 0
  }

  function Date(c: Card): int {
    c.date
  }

  /**
   * `filteredContent`: the tab filter, then the technology filter, then a stable sort by
   * date ("latest") or by popularity ("popular"), newest or most popular first.
   */
  method FilteredContent(cards: seq<Card>, activeTab: string, selectedTech: string, sortBy: string)
      returns (filtered: seq<Card>)
    ensures multiset(filtered) == multiset(Selection(cards, activeTab, selectedTech))
    ensures sortBy == "latest" ==> SortedBy(filtered, Descending(Date))
    ensures sortBy == "popular" ==> SortedBy(filtered, Descending(PopularScore))
    ensures sortBy != "latest" && sortBy != "popular" ==> filtered == Selection(cards, activeTab, selectedTech)
  {
    filtered := cards;
    if activeTab != "all" {
      filtered := Filter(filtered, (c: Card) => InTab(c, activeTab));
    }
    if selectedTech != "all" {
      filtered := Filter(filtered, (c: Card) => HasTech(c, selectedTech));
    }
    FiltersCompose(cards, activeTab, selectedTech);
    KeyOrdersArePreorders(Date);
    KeyOrdersArePreorders(PopularScore);
    if sortBy == "latest" {
      SortByCorrect(filtered, Descending(Date));
      filtered := SortBy(filtered, Descending(Date));
    } else if sortBy == "popular" {
      SortByCorrect(filtered, Descending(PopularScore));
      filtered := SortBy(filtered, Descending(PopularScore));
    }
  }

  /** Applying the two filters one after the other, skipping "all", gives the selection. */
  lemma {:induction false} FiltersCompose(cards: seq<Card>, tab: string, tech: string)
    ensures var afterTab := if tab != "all" then Filter(cards, (c: Card) => InTab(c, tab)) else cards;
            (if tech != "all" then Filter(afterTab, (c: Card) => HasTech(c, tech)) else afterTab)
            == Selection(cards, tab, tech)
  {
    if cards != [] {
      FiltersCompose(cards[1..], tab, tech);
    }
  }

  /** The home-page counters. */
  datatype Summary = Summary(totalProjects: nat, tutorials: nat, articles: nat, totalStars: int)

  /** `stats`: how often each type occurs among the cards, which adds up to at most the cards, and the stars summed over all cards. */
  function StatsOf(cards: seq<Card>): (s: Summary)
    ensures s.totalProjects + s.tutorials + s.articles <= |cards|
    ensures s.totalProjects == multiset(MapOf(cards, PostTypeOf))["project"]
    ensures s.tutorials == multiset(MapOf(cards, PostTypeOf))["tutorial"]
    ensures s.articles == multiset(MapOf(cards, PostTypeOf))["article"]
    ensures s.totalStars == SumOf(cards, Stars)
  {
    TypeCountsBound(cards);
    TypeCountIsMultiplicity(cards, "project");
    TypeCountIsMultiplicity(cards, "tutorial");
    TypeCountIsMultiplicity(cards, "article");
    Summary(TypeCount(cards, "project"), TypeCount(cards, "tutorial"), TypeCount(cards, "article"),
            TotalStars(cards))
  }
}
