# NextJS-Blog core in Dafny

This project models the logic of a personal blog and portfolio site built with Next.js. It covers:

- **The post store.** Posts are built from Markdown front matter, sorted newest first, and offered as featured, by-type and technology views.
- **The two post-grid pages.** The home page and the post list apply filter, search and sort pipelines and keep counters.
- **The dropdown.** It has keyboard navigation with wrap-around and translated labels.
- **The language context.** It holds the English/Russian switch and the dotted-key lookup `t`, which falls back to English.
- **The contact endpoint.** It validates the input, then maps each database outcome to a status code.
- **The post header's formatting helpers.**
- **The drag-and-drop JavaScript mini-game.** The model holds its catalogue of fifteen fill-in-the-blank challenges, its session state machine, and the display helpers: the clock, the accuracy and the mapping of blanks to slots.

Expression-only code (the rest of `lib/posts-util.js`, the formatting helpers, the translation tables, the catalogue) is modelled as functions with lemmas. Four operations are methods proved against specification functions, because the source builds their result by reassigning a local list step by step or by filling a `Set` in a loop:

- the two `useMemo` pipelines (`AllPosts.FilteredAndSorted`, `FeaturedPosts.FilteredContent`);
- the tech-stack effect (`FeaturedPosts.AllTechStack`);
- `getAllTechStack` (`PostsUtil.GetAllTechStack`).

Code that changes state step by step is modelled as classes whose methods state the whole new state:

- the game component (`Game.QuantumGame`);
- the dropdown (`CustomSelect.Dropdown`);
- the language provider (`Language.LanguageProvider`);
- the post list's filter state (`AllPosts.AllPostsView`).

Loops in the source are methods with loop invariants, each proved against a specification function:

- the slot count of `checkSolution`;
- the walks of `t`;
- the line and blank loops of `renderCodeWithSlots`;
- the `Set`-collecting loops.

The outside world is given as parameters:

- the file system and the front-matter parser;
- the clock (`Date.now()` and the timestamps);
- `localStorage`;
- the `MONGODB_URI` variable and the database's answers;
- the locale's string collation.

Files:

- `wrappers.dfy`: `Option`;
- `js_strings.dfy`: the JavaScript string operations used;
- `seqs.dfy`: filter, stable sort, first-occurrence dedup;
- `post_cards.dfy`: the card both post grids build from a post;
- `posts_util.dfy`, `featured_posts.dfy`, `all_posts.dfy`, `custom_select.dfy`, `translations.dfy`, `language.dfy`, `contact.dfy` and `post_header.dfy`: one per source file;
- `challenges.dfy`: the catalogue;
- `game.dfy`: the game state machine;
- `game_display.dfy`: the game's display helpers;
- `game_scenarios.dfy`: play-throughs.

## Model

| member | source | states |
|---|---|---|
| `PostsUtil.PostSlug` | lib/posts-util.js:13 | one trailing ".md" is removed and nothing else: the slug plus ".md" is the identifier when it ends in ".md"; otherwise the slug is the identifier |
| `PostsUtil.PostFile` | lib/posts-util.js:14 | the file read for a slug is the slug followed by ".md" |
| `PostsUtil.SlugOfPostFile` | lib/posts-util.js:13-14 | the slug of a slug's file name is the slug again |
| `PostsUtil.PostFileOfIdentifier` | lib/posts-util.js:13-14 | a listed Markdown file is read from itself; any other entry is read from its name plus ".md" |
| `PostsUtil.GetPostData` | lib/posts-util.js:12-25 | the record has `slug` and `content`; `content` is the parsed body; `slug` is the front matter's own slug when it has one, else the derived slug; every other field is exactly the front matter's |
| `PostsUtil.PostsOf` | lib/posts-util.js:28-32 | one record per listed file, in listing order, each read from its slug's file |
| `PostsUtil.DateOf` | lib/posts-util.js:34-36 | the date `>` compares: a string date is itself; a non-empty result is always the post's own string date (missing and non-string dates read as "", see Left out) |
| `PostsUtil.NewerFirst` | lib/posts-util.js:34-36 | the comparator as an order: a post with a strictly older date never comes first, posts with equal dates may come in either order, and every pair is ordered one way or the other |
| `PostsUtil.GetAllPosts` | lib/posts-util.js:27-39 | `getAllPosts` reorders the records and neither adds nor drops any (its order is stated by `GetAllPostsSorted`) |
| `PostsUtil.NewerFirstIsTotalPreorder` | lib/posts-util.js:34-36 | the comparison by date string orders every pair and is transitive |
| `PostsUtil.GetAllPostsSorted` | lib/posts-util.js:27-39 | `getAllPosts` is a permutation of the records; its dates are non-increasing |
| `PostsUtil.FilterOfAllPosts` | lib/posts-util.js:41-53 | filtering the sorted posts keeps exactly the records passing the filter, still newest first |
| `PostsUtil.GetFeaturedPosts` | lib/posts-util.js:41-47 | every post returned has a truthy `isFeatured`, and each record appears at most as often as it was read |
| `PostsUtil.GetPostsByType` | lib/posts-util.js:50-53 | every post returned has exactly the requested `type`, and each record appears at most as often as it was read |
| `PostsUtil.GetFeaturedPostsSpec` | lib/posts-util.js:41-47 | the featured posts are exactly the records with a truthy `isFeatured`, newest first |
| `PostsUtil.GetPostsByTypeSpec` | lib/posts-util.js:50-53 | the posts of a type are exactly the records whose `type` is that string, newest first |
| `PostsUtil.GetAllTechStack` | lib/posts-util.js:56-67 | the `forEach`/`Set` loops give the distinct technologies of the posts' array-valued `tech` fields, in first-occurrence order |
| `PostsUtil.TechStackSpec` | lib/posts-util.js:56-67 | that stack has no duplicates and holds exactly the technologies of the posts |
| `Seqs.SortByCorrect` | lib/posts-util.js:34-36 | the stable sort used for `Array.prototype.sort` orders by the comparator and is a permutation of its input |
| `Seqs.CollectDistinct` | components/home-page/featured-posts.js:43-49 | adding every element of every list to a `Set` and reading it back gives the first-occurrence dedup of the flattened lists |
| `Seqs.DedupFirstOccurrenceOrder` | lib/posts-util.js:58-66 | an element listed earlier by that dedup first occurs earlier in the input (the `Set` keeps insertion order) |
| `Seqs.Take` | components/posts/all-posts.js:606 | `slice(0, n)`: the first `n` elements, or all of them when there are fewer |
| `PostCards.OrDefault` | components/home-page/featured-posts.js:24 | `s \|\| fallback`: a missing or empty string gives the fallback; any other string gives itself |
| `PostCards.FormatCard` | components/home-page/featured-posts.js:22-38 | the card's id and slug are the post's slug; title, excerpt and date are copied; its type defaults to "article"; `tech` defaults to []; the three flags are true exactly when set to true; the stats are kept |
| `PostCards.TotalStars` | components/home-page/featured-posts.js:93-95 | summing the stars of the posts that have stats equals summing `stars \|\| 0` over all posts |
| `PostCards.TypeCountIsMultiplicity` | components/home-page/featured-posts.js:88-92 | `posts.filter(p => p.type === t).length` is the number of times `t` occurs among the cards' types |
| `PostCards.TypeCountsBound` | components/home-page/featured-posts.js:88-92 | the project, tutorial and article counts add up to at most the number of posts |
| `FeaturedPosts.FormattedPosts` | components/home-page/featured-posts.js:19-39 | one card per post, in order, each the post's formatted card |
| `FeaturedPosts.AllTechStack` | components/home-page/featured-posts.js:41-51 | with cards present the list is "all" followed by the distinct technologies in first-occurrence order; with none it keeps its previous value |
| `FeaturedPosts.TechStackSpec` | components/home-page/featured-posts.js:41-51 | after "all", each technology of the cards appears exactly once, and only those |
| `FeaturedPosts.SelectionSpec` | components/home-page/featured-posts.js:56-71 | the tab and technology filters keep exactly the cards passing both; the result is a sub-multiset of the cards |
| `FeaturedPosts.TabType` | components/home-page/featured-posts.js:56-61 | the `typeMap` lookup: "repositories", "tutorials" and "insights" map to "project", "tutorial" and "article"; any other tab maps to nothing, so it keeps no card (`SelectionSpec`) |
| `FeaturedPosts.Selection` | components/home-page/featured-posts.js:56-71 | the two filter steps as one filter on the tab and the technology; `SelectionSpec` and `FiltersCompose` state what it keeps |
| `FeaturedPosts.PopularScore` | components/home-page/featured-posts.js:75-81 | the "popular" score: `stars \|\| 0` plus 50 for a featured post; `FilteredContent` sorts by it, highest first |
| `FeaturedPosts.FiltersCompose` | components/home-page/featured-posts.js:56-71 | skipping a filter for "all" gives the same result as applying both filters |
| `FeaturedPosts.FilteredContent` | components/home-page/featured-posts.js:53-84 | the result is a permutation of the selection; "latest" sorts newest first; "popular" sorts by stars plus 50 for featured posts, descending; any other option keeps the filtered order |
| `FeaturedPosts.StatsOf` | components/home-page/featured-posts.js:86-98 | each per-type count is the number of cards of that type (its multiplicity among the cards' types), and together they total at most the number of cards; the star total is the sum of `stars \|\| 0` |
| `AllPosts.KeptAndDroppedCount` | components/posts/all-posts.js:36-42 | every post is either kept or dropped by the Russian-translation filter |
| `AllPosts.FormatListed` | components/posts/all-posts.js:44-65 | the listed post holds the card, the locale (default "en"), the Russian-version flag and the view count exactly when it is truthy (a falsy one is left unset) |
| `AllPosts.FormattedPostsSpec` | components/posts/all-posts.js:32-66 | exactly the Russian translations of posts with a Russian version are dropped: the rest are listed in order, and no listed post is such a translation |
| `AllPosts.FormattedPosts` | components/posts/all-posts.js:32-66 | the filter, then the formatting of each kept post; `FormattedPostsSpec` states which posts are kept and in what order |
| `AllPosts.BlankQueryKeepsAll` | components/posts/all-posts.js:129 | a query that is empty after `trim` keeps every post |
| `AllPosts.SearchSpec` | components/posts/all-posts.js:129-140 | a non-blank query keeps exactly the posts whose lowercased title, excerpt or a technology contains the lowercased query |
| `AllPosts.Matches` | components/posts/all-posts.js:130-139 | the search test: the lowercased title, excerpt or one technology contains the lowercased query |
| `AllPosts.Searched` | components/posts/all-posts.js:129-140 | the search step, applied only to a query non-blank after `trim`; `BlankQueryKeepsAll` and `SearchSpec` give both cases |
| `AllPosts.SelectionSpec` | components/posts/all-posts.js:128-161 | the search, category and flag filters keep exactly the posts passing each active filter; the result is a sub-multiset of the posts |
| `AllPosts.Selection` | components/posts/all-posts.js:128-161 | the search, category and flag steps composed; `SelectionSpec` states what it keeps |
| `AllPosts.StepsCompose` | components/posts/all-posts.js:143-161 | skipping the category filter for "all" and the flag filter for other values gives the same result as applying both |
| `AllPosts.ByTitleIsTotalPreorder` | components/posts/all-posts.js:174-178 | ordering by title under a consistent collation is a total preorder |
| `AllPosts.FilteredAndSorted` | components/posts/all-posts.js:125-192 | the result is a permutation of the selection; "newest"/"oldest" sort by date; "popular" sorts by stars + views/100, descending; "alphabetical" sorts by title under the collation; any other option keeps the order |
| `AllPosts.StatsOf` | components/posts/all-posts.js:195-211 | the total is the number of posts; each type count is the multiplicity of that type among the posts' types, and together they are bounded by the total; the star and view totals are the sums of `stars \|\| 0` and `views \|\| 0` |
| `AllPosts.SidebarShape` | components/posts/all-posts.js:600-606 | the sidebar technologies are sorted, duplicate-free and at most fifteen |
| `AllPosts.SidebarTech` | components/posts/all-posts.js:600-606 | the distinct technologies, sorted, first fifteen; `SidebarShape` and `SidebarMembers` state its shape and members |
| `AllPosts.DistinctTechOfPosts` | components/posts/all-posts.js:600-603 | the distinct technologies are exactly those of the posts |
| `AllPosts.SidebarMembers` | components/posts/all-posts.js:600-606 | the sidebar lists only the posts' technologies, and all of them when there are at most fifteen |
| `AllPosts.ToggledExpansion` | components/posts/all-posts.js:223-225 | a click collapses the post exactly when it was the expanded one; otherwise it expands that post |
| `AllPosts.ClickTwiceCollapses` | components/posts/all-posts.js:223-225 | two clicks on the same post from a collapsed list leave it collapsed |
| `AllPosts.AllPostsView.constructor` | components/posts/all-posts.js:10-14 | no search, every category and flag, newest first, nothing expanded |
| `AllPosts.AllPostsView.ResetFilters` | components/posts/all-posts.js:215-221 | every filter is back at its default |
| `AllPosts.AllPostsView.SearchClear` | components/posts/all-posts.js:214 | only the query is cleared |
| `AllPosts.AllPostsView.SearchFor` | components/posts/all-posts.js:611 | a sidebar technology becomes the query; nothing else changes |
| `AllPosts.AllPostsView.PostClick` | components/posts/all-posts.js:223-225 | the expanded post toggles; the filters are unchanged |
| `AllPosts.AllPostsView.Visible` | components/posts/all-posts.js:125-192 | the shown posts are a permutation of the selection for the view's state, ordered by the current sort option exactly as `FilteredAndSorted` states (newest first by default) |
| `CustomSelect.LeadingSpaces` | components/ui/custom-select.js:169 | the length of the whitespace run that starts the string, which `\s*` matches |
| `CustomSelect.MarkerAt` | components/ui/custom-select.js:169 | a match of `\s*\(\s*\)` at the start ends in ")" and lies within the string |
| `CustomSelect.StripParens` | components/ui/custom-select.js:169 | the global replace never lengthens the string |
| `CustomSelect.StripParensWithoutParens` | components/ui/custom-select.js:169 | a string with no "(" is left unchanged |
| `CustomSelect.StripParensOfKey` | components/ui/custom-select.js:35-40 | removing the marker from "key( )" gives back the key, for a key with no "(" that does not end in whitespace |
| `CustomSelect.StripParensKeyStep` | components/ui/custom-select.js:36-39 | before the marker, the replace keeps the key one character at a time |
| `CustomSelect.StripMarkerAlone` | components/ui/custom-select.js:36-39 | the bare marker "( )" is removed entirely |
| `CustomSelect.StripParensKeeps` | components/ui/custom-select.js:36-39 | where no match starts, the first character is kept |
| `CustomSelect.NoMarkerInsideKey` | components/ui/custom-select.js:36-39 | no match starts inside such a key |
| `CustomSelect.KeySpacesStop` | components/ui/custom-select.js:36-39 | the whitespace run at the start of such a key stops inside the key |
| `CustomSelect.ProcessLabel` | components/ui/custom-select.js:159-172 | a function label is called with `t`; a text with "(" and ")" is translated after the marker is removed; any other text is shown as is |
| `CustomSelect.KeyLabelIsTranslated` | components/ui/custom-select.js:29-41 | the label "key( )" shows `t(key)` |
| `CustomSelect.NewestOptionLabel` | components/ui/custom-select.js:35 | "sortOptions.newest( )" shows the translation of "sortOptions.newest" |
| `CustomSelect.ProcessPlaceholder` | components/ui/custom-select.js:49-62 | the placeholder is processed as a text label |
| `CustomSelect.FindIndex` | components/ui/custom-select.js:149 | `findIndex` gives the first index holding the value, and -1 exactly when no option holds it |
| `CustomSelect.SelectedLabel` | components/ui/custom-select.js:22-80 | the shown label is the matching option's, processed, when the value is non-empty and listed; otherwise the processed placeholder |
| `CustomSelect.Wrap` | components/ui/custom-select.js:150-153 | an index below 0 wraps to the last option; one past the end wraps to the first; others are kept |
| `CustomSelect.Navigate` | components/ui/custom-select.js:146-156 | nothing is reported without options; otherwise the value at the wrapped index |
| `CustomSelect.NavigationTarget` | components/ui/custom-select.js:146-156 | the value `navigateOptions` reports: nothing without options, else the option at the wrapped index; `FromNothingSelected`, `WrapAround` and `DownThenUp` state its behaviour |
| `CustomSelect.FromNothingSelected` | components/ui/custom-select.js:146-156 | with no option selected, down picks the first option and up the last |
| `CustomSelect.FindDistinct` | components/ui/custom-select.js:149 | with distinct values, an option's value is found at its own index |
| `CustomSelect.WrapAround` | components/ui/custom-select.js:152-153 | from the last option down goes to the first; from the first, up goes to the last |
| `CustomSelect.DownThenUp` | components/ui/custom-select.js:146-156 | with distinct values, a step down then a step up returns to the selected value |
| `CustomSelect.Dropdown.constructor` | components/ui/custom-select.js:14-17 | the dropdown starts closed |
| `CustomSelect.Dropdown.RefreshLabel` | components/ui/custom-select.js:22-80 | the label effect sets the shown label to the selected option's; the open state is unchanged |
| `CustomSelect.Dropdown.Toggle` | components/ui/custom-select.js:127-129 | the open state flips |
| `CustomSelect.Dropdown.Select` | components/ui/custom-select.js:122-125 | the option's value is reported and the dropdown closes |
| `CustomSelect.Dropdown.KeyDown` | components/ui/custom-select.js:131-144 | Enter and space toggle; the arrows report the navigation target only while open; Escape closes; other keys do nothing |
| `CustomSelect.Dropdown.DocumentEvent` | components/ui/custom-select.js:82-108 | a press outside the dropdown or Escape anywhere closes it; anything else leaves it |
| `Language.Step` | context/language-context.js:33-34 | one step of the walk moves on exactly when the value is a table holding the key |
| `Language.ResolveFailureSticks` | context/language-context.js:32-46 | once a step fails, the walk stays failed |
| `Language.ResolveSingle` | context/language-context.js:32-35 | a one-segment walk is one step |
| `Language.ResolveAppend` | context/language-context.js:32-35 | walking `a + b` is walking `a`, then `b` |
| `Language.Translate` | context/language-context.js:28-50 | `t` returns the entry the current table reaches; else the entry the English table reaches; else the key itself |
| `Language.Resolve` | context/language-context.js:32-35 | the walk of the key segments from a table; `ResolveSingle`, `ResolveAppend` and `ResolveFailureSticks` characterise it |
| `Language.Lookup` | context/language-context.js:28-50 | the value of `t(key)`: the current table's entry, else English, else the key; `Translate` proves the loop methods equal to it |
| `Language.EnglishFallback` | context/language-context.js:36-45 | the inner English walk returns the entry reached, or the key when a step fails |
| `Language.DottedKeyIsItsOwnTranslation` | context/language-context.js:28-50 | with flat tables a dotted key never resolves, so `t` returns it unchanged |
| `Language.FlatTwoSteps` | context/language-context.js:32-35 | in a flat table a walk of two or more segments fails |
| `Language.SiteTablesAgreeOnKeys` | lib/translations.js:2-122 | both site tables are flat and hold the same keys |
| `Language.EnglishFlat` | lib/translations.js:3-61 | every English entry is a text |
| `Language.RussianFlat` | lib/translations.js:62-121 | every Russian entry is a text |
| `Language.SameKeys` | lib/translations.js:2-122 | the two tables have the same key set |
| `Language.RussianNeedsNoFallback` | context/language-context.js:28-50 | the Russian table answers a key exactly when the English table does |
| `Language.ToggleLanguage` | context/language-context.js:24-26 | the next locale is supported and differs from a supported previous one; anything but "en" becomes "en" |
| `Language.ToggleTwice` | context/language-context.js:24-26 | toggling twice restores a supported locale |
| `Language.AdoptSavedLocale` | context/language-context.js:12-17 | a saved locale is adopted exactly when it is a key of `locales` |
| `Language.LanguageProvider.constructor` | context/language-context.js:9 | the provider starts on the default locale, "en" |
| `Language.LanguageProvider.Mount` | context/language-context.js:12-17 | the mount effect adopts a valid saved locale and keeps the locale supported |
| `Language.LanguageProvider.Toggle` | context/language-context.js:24-26 | the locale switches to the other supported one |
| `Language.LanguageProvider.T` | context/language-context.js:28-50 | `t` over the site's tables for the current locale |
| `Language.PlainKeyLookup` | context/language-context.js:28-50 | a key without dots that the current table holds as text translates to that text |
| `Language.AbsentKeyLookup` | context/language-context.js:36-43 | a key without dots that neither table holds comes back as itself |
| `Language.SiteTables` | lib/translations.js:2-122 | `translations.en` and `translations.ru` are the two tables |
| `Language.RussianHomeEntry` | lib/translations.js:63 | the Russian entry for "home" |
| `Language.RussianHome` | context/language-context.js:28-50 | `t("home")` in Russian is "Главная" |
| `Language.EnglishLacksFeaturedTitle` | lib/translations.js:3-61 | the English table has no "featuredTitle" |
| `Language.MissingKeyIsItsOwnTranslation` | context/language-context.js:42 | a key the tables lack is returned as is |
| `Language.SortOptionKeyIsItsOwnTranslation` | components/posts/all-posts.js:23 | the post list's "sortOptions.newest" is not in the flat tables and is shown as the key |
| `Contact.BlankIsEmptyAfterTrim` | pages/api/contact.js:10-13 | a field fails `!x \|\| x.trim() === ""` exactly when it is missing or whitespace only |
| `Contact.AcceptedInput` | pages/api/contact.js:7-17 | input is accepted exactly when the email contains "@" and the name and message are non-empty after `trim` |
| `Contact.InvalidInput` | pages/api/contact.js:7-17 | the rejection condition; `AcceptedInput` states it in terms of `trim` both ways |
| `Contact.NewMessage` | pages/api/contact.js:19-24 | the stored message holds the submitted fields and the creation time, with no id yet |
| `Contact.Handle` | pages/api/contact.js:3-70 | the responses: 405 for methods other than POST; 422 for invalid input; 500 for each database failure; 201 with the stored message and its id. The database is untouched before validation, and a connected client is always closed. Only a 201 carries data |
| `Contact.Outcome` | pages/api/contact.js:3-70 | the status decision table; `Handle` is proved to answer with it on every input |
| `PostHeader.FormattedReadingTime` | components/posts/post-detail/post-header.js:57-61 | "" for a missing or empty reading time; the value itself when it contains "min"; otherwise the value + " min read" |
| `PostHeader.FormattedMentionsMin` | components/posts/post-detail/post-header.js:56-61 | every non-empty result mentions "min" |
| `PostHeader.FormattingIdempotent` | components/posts/post-detail/post-header.js:56-61 | formatting an already formatted reading time changes nothing (no doubled "min") |
| `PostHeader.TypeLabelKey` | components/posts/post-detail/post-header.js:20-31 | only the three known types have a label key, namely the type followed by "Type" |
| `PostHeader.GetTypeLabel` | components/posts/post-detail/post-header.js:20-31 | a known type shows its translated label; any other type shows "" |
| `PostHeader.GetTypeIcon` | components/posts/post-detail/post-header.js:34-45 | the icon of each known type, and the generic one otherwise |
| `PostHeader.TypeBadgeDistinct` | components/posts/post-detail/post-header.js:20-45 | the known types and an unknown type have four different icons; an unknown type has no label |
| `Challenges.StartsWithBlankIff` | components/game/quantum-game.js:292 | a string starts with a marker exactly when its first three characters are "___" |
| `Challenges.CountBlanks` | components/game/quantum-game.js:292 | the number of `___` markers, counted left to right without overlap, as `split("___").length - 1` does; the lemmas below pin it down |
| `Challenges.CountBlanksFreePrefix` | components/game/quantum-game.js:292 | a prefix without "_" adds no marker to the count |
| `Challenges.CountBlanksMarker` | components/game/quantum-game.js:292 | a leading marker adds one to the count |
| `Challenges.JoinBlanks` | lib/challenges.js:1-273 | pieces without "_" joined by "___" hold exactly one blank fewer than there are pieces |
| `Challenges.TemplateBlanks` | lib/challenges.js:1-273 | a template whose fragments hold no "_" has one blank per gap between its pieces |
| `Challenges.CountBlanksSplit` | components/game/quantum-game.js:287-292 | a character other than "_" separates the markers before and after it |
| `Challenges.LinesBlanks` | components/game/quantum-game.js:287-292 | joining lines with "\n" neither creates nor loses a blank |
| `Challenges.CodeLinesBlanks` | components/game/quantum-game.js:287-292 | the blanks of `code.split("\n")` add up to the blanks of the code |
| `Challenges.OffersIff` | lib/challenges.js:1-273 | an element offers a value exactly when some element has that value |
| `Challenges.CatalogueSize` | lib/challenges.js:1-273 | the catalogue has fifteen challenges |
| `Challenges.FirstOfCatalogue` | lib/challenges.js:2-17 | the first challenge is "Сумма чисел" |
| `Challenges.CatalogueIds` | lib/challenges.js:1-273 | the challenge at index i has id i + 1, which `challenges[level - 1]` relies on |
| `Challenges.CatalogueWellFormed` | lib/challenges.js:1-273 | every challenge is playable: one slot per blank and no other underscore; distinct non-empty slot ids; distinct element ids and values; every answer offered |
| `Challenges.WellFormed` | lib/challenges.js:1-273 | a playable challenge: one slot per blank and no other underscore, distinct non-empty slot ids, distinct element ids and values, every answer offered |
| `Challenges.Challenge1WellFormed` | lib/challenges.js:2-17 | challenge 1, as transcribed, is well formed |
| `Challenges.Challenge2WellFormed` | lib/challenges.js:18-33 | challenge 2, as transcribed, is well formed |
| `Challenges.Challenge3WellFormed` | lib/challenges.js:34-52 | challenge 3, as transcribed, is well formed |
| `Challenges.Challenge4WellFormed` | lib/challenges.js:53-68 | challenge 4, as transcribed, is well formed |
| `Challenges.Challenge5WellFormed` | lib/challenges.js:69-87 | challenge 5, as transcribed, is well formed |
| `Challenges.Challenge6WellFormed` | lib/challenges.js:88-101 | challenge 6, as transcribed, is well formed |
| `Challenges.Challenge7WellFormed` | lib/challenges.js:102-122 | challenge 7, as transcribed, is well formed |
| `Challenges.Challenge8WellFormed` | lib/challenges.js:123-141 | challenge 8, as transcribed, is well formed |
| `Challenges.Challenge9WellFormed` | lib/challenges.js:142-159 | challenge 9, as transcribed, is well formed |
| `Challenges.Challenge10WellFormed` | lib/challenges.js:160-183 | challenge 10, as transcribed, is well formed |
| `Challenges.Challenge11WellFormed` | lib/challenges.js:184-205 | challenge 11, as transcribed, is well formed |
| `Challenges.Challenge12WellFormed` | lib/challenges.js:206-221 | challenge 12, as transcribed, is well formed |
| `Challenges.Challenge13WellFormed` | lib/challenges.js:222-237 | challenge 13, as transcribed, is well formed |
| `Challenges.Challenge14WellFormed` | lib/challenges.js:238-256 | challenge 14, as transcribed, is well formed |
| `Challenges.Challenge15WellFormed` | lib/challenges.js:257-272 | challenge 15, as transcribed, is well formed |
| `Challenges.CatalogueWellFormedLow` | lib/challenges.js:2-87 | challenges 1 to 5 are well formed |
| `Challenges.CatalogueWellFormedMiddle` | lib/challenges.js:88-183 | challenges 6 to 10 are well formed |
| `Challenges.CatalogueWellFormedHigh` | lib/challenges.js:184-272 | challenges 11 to 15 are well formed |
| `Challenges.WellFormedBlanks` | components/game/quantum-game.js:292-297 | the code of a well-formed challenge holds exactly one `___` per slot |
| `Challenges.TwoBlankChallenges` | lib/challenges.js:69-87 | the ternary and the concatenation challenges have two blanks and two slots each |
| `Challenges.Challenge14NeedsReuse` | lib/challenges.js:238-256 | challenge 14 needs "+" in both slots while only one element offers it, so dropping an element does not use it up |
| `Game.UpdatesKeepSessionOk` | components/game/quantum-game.js:91-103 | every session update keeps the invariant: the level within [1, 15], a non-negative score, the time within [0, 60], completed equal to correct answers, timestamps set |
| `Game.SessionOk` | components/game/quantum-game.js:6-19 | the invariant the session keeps: level in [1, 15], score non-negative, time in [0, 60], completed equal to correct answers, lives at most 3, timestamps set while playing and once finished |
| `Game.Fresh` | components/game/quantum-game.js:91-103 | the record `startGame` sets; `StartScenario` and `UpdatesKeepSessionOk` state its values and invariant |
| `Game.Rewarded` | components/game/quantum-game.js:198-206 | the update on success; `ScoreChanges` states the score change |
| `Game.Penalized` | components/game/quantum-game.js:227-234 | the update on failure; `ScoreChanges` states the lost life and points |
| `Game.Finished` | components/game/quantum-game.js:108-116 | the update `finishGame` makes: finished, with its end time |
| `Game.Advanced` | components/game/quantum-game.js:208-226 | the delayed update: the next level, or the end after the last one |
| `Game.ScoreChanges` | components/game/quantum-game.js:201-234 | success adds exactly 100 × level points and one completed and one correct answer, keeping lives and level; failure costs a life and 50 points, never going below 0, and adds one wrong answer |
| `Game.MatchCountFull` | components/game/quantum-game.js:191-198 | the solved count reaches the number of slots exactly when every slot holds its answer |
| `Game.CountCorrectSlots` | components/game/quantum-game.js:191-196 | the `forEach` loop counts the solved slots; the count is full exactly when all are solved |
| `Game.MatchCount` | components/game/quantum-game.js:191-196 | the number of slots holding their answer; `MatchCountFull` states when it is full |
| `Game.FindElement` | components/game/quantum-game.js:175-177 | `find` gives the first element with the id, which the challenge offers; nothing exactly when no element has the id |
| `Game.QuantumGame.constructor` | components/game/quantum-game.js:6-27 | the first render: idle session, nothing loaded, nothing dropped, results hidden, playing the imported challenges |
| `Game.QuantumGame.LoadChallenge` | components/game/quantum-game.js:78-86 | an existing level loads `challenges[level - 1]` and clears the drops; otherwise nothing changes |
| `Game.QuantumGame.StartGame` | components/game/quantum-game.js:88-106 | a fresh session at level 1 with 0 points, 3 lives and 60 s; the effect loads the first challenge |
| `Game.QuantumGame.RestartGame` | components/game/quantum-game.js:118-121 | the results are hidden and a fresh game starts |
| `Game.QuantumGame.ResetGame` | components/game/quantum-game.js:246-264 | a fresh session with the drops cleared, back on the first challenge |
| `Game.QuantumGame.FinishGame` | components/game/quantum-game.js:108-116 | the game is marked finished with its end time, and the results are shown |
| `Game.QuantumGame.CloseResults` | components/game/quantum-game.js:467 | the results are hidden; nothing else changes |
| `Game.QuantumGame.Tick` | components/game/quantum-game.js:54-63 | a tick while playing removes one second, or finishes the game once no time is left; ticks outside a game change nothing |
| `Game.QuantumGame.HandleDrop` | components/game/quantum-game.js:172-186 | the element's value is recorded on the slot when the element exists and the slot id is truthy; other slots keep theirs |
| `Game.QuantumGame.CheckSolution` | components/game/quantum-game.js:188-244 | all slots solved: score and schedule the advance. Otherwise a life and 50 points are lost, and the game ends when the lives before the update were at most 1 |
| `Game.QuantumGame.AdvanceAfterDelay` | components/game/quantum-game.js:208-226 | the delayed update goes to the next level and its challenge; after the last level it ends the game without opening the results |
| `Game.QuantumGame.AdvanceAfterDelayShowingResults` | components/game/quantum-game.js:208-226 | the corrected advance: the last level finishes through `finishGame`, which opens the results |
| `Game.QuantumGame.CheckSolutionGuarded` | components/game/quantum-game.js:188-244 | the corrected submission changes nothing once the game has ended, so lives stay non-negative |
| `GameDisplay.JsRem` | components/game/quantum-game.js:268 | JavaScript's `%`: the remainder takes the dividend's sign and is smaller than the divisor |
| `GameDisplay.PaddedSeconds` | components/game/quantum-game.js:269 | a number below 60, padded to two digits, reads back as itself |
| `GameDisplay.FormatTime` | components/game/quantum-game.js:266-270 | `formatTime`: floored minutes, a colon and the JavaScript remainder padded to two characters; `FormatTimeRoundTrip` proves its reading |
| `GameDisplay.FormatTimeRoundTrip` | components/game/quantum-game.js:266-270 | for a non-negative number of seconds, the clock text reads back to the number |
| `GameDisplay.FormatTotalTime` | components/game/quantum-game.js:272-276 | a falsy timestamp gives "0:00" |
| `GameDisplay.FormatTotalTimeElapsed` | components/game/quantum-game.js:272-276 | with both timestamps set and in order, the text shows the elapsed whole seconds |
| `GameDisplay.Accuracy` | components/game/quantum-game.js:278-282 | 100 with no answers; otherwise within [0, 100] and within half a point of the correct percentage |
| `GameDisplay.AccuracyIsNearest` | components/game/quantum-game.js:281 | that value is the only integer within half a point, halves rounded up, as `Math.round` does |
| `GameDisplay.ElementColor` | components/game/quantum-game.js:123-161 | purple exactly for the operators; blue exactly for the array methods; pink otherwise |
| `GameDisplay.SplitFirstBlank` | components/game/quantum-game.js:298-320 | `parts[0]` and `parts.slice(1).join("___")` put back around a marker give the line |
| `GameDisplay.SplitFirstBlankCount` | components/game/quantum-game.js:320 | the rest after the first marker has one marker fewer |
| `GameDisplay.ContainsBlankIffCount` | components/game/quantum-game.js:291-292 | `line.includes("___")` holds exactly when the line has a blank to count |
| `GameDisplay.RenderLine` | components/game/quantum-game.js:291-333 | a rendered line displays its source line; it has one slot per blank, and the slots are numbered on from the blanks above |
| `GameDisplay.RenderLines` | components/game/quantum-game.js:287-333 | one rendered line per code line; the n-th slot shown is bound to `slots[n]` |
| `GameDisplay.RenderNextLine` | components/game/quantum-game.js:290 | one step of the line loop keeps every line rendered and every slot bound |
| `GameDisplay.ViewsCount` | components/game/quantum-game.js:288-321 | the slots of all lines add up to the blanks of all lines |
| `GameDisplay.RenderCodeWithSlots` | components/game/quantum-game.js:284-287 | nothing without a challenge; otherwise one line per code line, one slot per blank of the code, the n-th bound to `slots[n]` |
| `GameDisplay.WellFormedBindsEveryBlank` | components/game/quantum-game.js:297 | in a well-formed challenge every slot has its own blank and drops land on its id |
| `GameScenarios.StartedGame` | components/game/quantum-game.js:88-106 | a started game is on challenge 1 with a fresh session |
| `GameScenarios.StartScenario` | components/game/quantum-game.js:91-103 | starting gives level 1, 0 points, 3 lives, 60 s, playing |
| `GameScenarios.FirstChallengeSolved` | components/game/quantum-game.js:198-226 | dropping "+" on challenge 1 scores 100 points, and the delayed advance moves to level 2 |
| `GameScenarios.FirstChallengeMissed` | components/game/quantum-game.js:227-234 | a wrong answer costs a life and leaves the score at 0 |
| `GameScenarios.LivesRunOut` | components/game/quantum-game.js:236-237 | three wrong answers end the game, with the results shown and time still left |
| `GameScenarios.TimeRunsOut` | components/game/quantum-game.js:54-63 | sixty ticks reach 0; the next one ends the game with no level done; later ticks change nothing |
| `GameScenarios.OfferingIndex` | lib/challenges.js:1-273 | an offered answer is at some element's index |
| `GameScenarios.FindUniqueId` | components/game/quantum-game.js:175-177 | with distinct element ids, `find` by an element's id gives that element |
| `GameScenarios.SolvingKeepsSolved` | components/game/quantum-game.js:180-183 | with distinct slot ids, a drop on one slot keeps the earlier slots solved |
| `GameScenarios.SolveCurrent` | components/game/quantum-game.js:172-186 | dropping an offering element on each slot solves the loaded challenge |
| `GameScenarios.PlayLevel` | components/game/quantum-game.js:188-226 | solving a level scores it and advances; only the corrected advance opens the results after the last level |
| `GameScenarios.PlayThrough` | components/game/quantum-game.js:188-226 | solving every level of a well-formed list: fifteen levels done, 12000 points, lives and time untouched; the results open only with the corrected advance |
| `GameScenarios.PlayThroughCatalogue` | lib/challenges.js:1-273 | the same play-through on the site's fifteen challenges |
| `GameScenarios.LivesBelowZeroAfterFinish` | components/game/quantum-game.js:188-244 | after the lives run out and the results are closed, a fourth wrong answer takes the lives to -1 and moves the end time |
| `GameScenarios.GuardedLivesStayAtZero` | components/game/quantum-game.js:188-244 | with the guarded submission the same moves stop at 0 lives and keep the end time |
| `JsStrings.TrimEmptyIffBlank` | pages/api/contact.js:11-13 | `s.trim() === ""` holds exactly for strings made only of ECMAScript whitespace |
| `JsStrings.ToLower` | components/posts/all-posts.js:130-137 | the length is kept and each character is lowercased |
| `JsStrings.Split` | context/language-context.js:29 | `split` gives at least one piece, none containing the separator |
| `JsStrings.JoinSplit` | components/game/quantum-game.js:287 | joining the pieces of a split gives back the string |
| `JsStrings.SplitJoin` | context/language-context.js:29 | splitting a join of separator-free pieces gives back the pieces |

## Left out

- **React rendering and effects beyond the state they change.** The model leaves out JSX, styles and animations. It also leaves out the psychedelic particles (components/posts/all-posts.js:68-122), the page loader, scrolling the dropdown to the selected option (components/ui/custom-select.js:110-120), the body-overflow effect (components/game/quantum-game.js:30-40) and the console output.
- **The game's transient UI state.** Messages, the hint and the rules toggles are left out. So are `draggingElement`, `handleDragStart`, `handleDragOver` and the `isTransitioning` flag: `StartGame` is the moment the 500 ms timeout fires. The element id read from the drag data is `HandleDrop`'s parameter.
- **Game timers.** The game's timers are methods the caller invokes: the interval is `Tick` and the 1.5 s timeout is `AdvanceAfterDelay`. The order in which React interleaves them with batched updates is left out. The timer effect fills in a missing `startTime` (components/game/quantum-game.js:47-52), but every start sets one, so that branch cannot fire.
- Game.QuantumGame.ResetGame: in the model the countdown goes on after a reset during a running game. In the component it stops: `resetGame` clears the interval, and the timer effect does not start a new one because `isPlaying` and `gameFinished` do not change.
- **The code highlighting** of lines without blanks (components/game/quantum-game.js:335-356) is left out. Those lines are kept as plain text.
- **Challenge code.** Each challenge's code is held as the text between its `___` markers, written as short fragments, and `Challenges.Code` rebuilds the string. The challenge texts are transcribed from lib/challenges.js.
- **Dates are integer timestamps.** Parsing date strings and `toLocaleDateString` (components/posts/post-detail/post-header.js:47-54) are left out. The front-matter `date` that `getAllPosts` compares is modelled as a string; a date the front-matter parser turns into a `Date` object is left out.
- PostsUtil.DateOf: a missing date, or one that is not a string, is read as "" and compared as a string. In the source, `>` compares two numeric dates as numbers, and compared with `undefined` it is false both ways. So the comparator answers 1 in both orders, and the engine's sort decides where an undated post goes. The model puts such posts after the dated ones.
- PostsUtil.GetAllPostsSorted: the comparator `a.date > b.date ? -1 : 1` never returns 0. The model sorts stably, and the order that a given JavaScript engine gives to posts with equal dates is left out.
- **The outside world of the post store.** Reading the posts directory and the files, and the gray-matter parser, are the inputs `files` and `read`.
- AllPosts.FormatListed: a missing or zero view count is left unset and counts as 0. The page sets a random number from 100 to 1099 in that case (components/posts/all-posts.js:61). The random `rating` is left out too.
- PostCards.RawPost: the component props are typed narrower than the components accept. `tech` is an array or missing, `title` and `excerpt` are always strings, and the flags are booleans or missing. So the model leaves out four paths: a string `tech` passed through `post.tech || []`, which the tech-stack effect's `Array.isArray` check skips (components/home-page/featured-posts.js:45) and the technology filter searches as a substring (components/home-page/featured-posts.js:69); the `TypeError` the post-list search throws on a missing title or excerpt or on a string `tech` (components/posts/all-posts.js:133-137); and a truthy non-boolean `isFeatured`, `isTrending` or `isNew`, which the components count as set but `PostCards.FormatCard` reads as unset.
- **Card fields that are only displayed** are left out: image, reading time, difficulty, demo URL, content, rating.
- AllPosts.FilteredAndSorted: `localeCompare` is the parameter `collate`. Sortedness by title is stated only when `collate` is a total preorder.
- **Ordering and lowercasing.** The default string `sort` compares UTF-16 code units; `Seqs.LexLe` compares code points, which agree below U+10000. JsStrings.ToLower lowercases only the Basic Latin and Cyrillic capitals.
- **Exact arithmetic.** The popularity score `stars + views / 100` is compared exactly, as `100 * stars + views`. `Math.round` in `calculateAccuracy` is computed in exact rationals; floating-point rounding at the halves is left out.
- Language.Translate: indexing into a string value with a further key segment is left out, and a text value ends the walk. Properties that every JavaScript object inherits, such as `locales["toString"]`, are left out too.
- Language.LanguageProvider.Mount: the saved locale is a parameter. The effect that writes the locale to `localStorage` (context/language-context.js:20-22) and the `useLanguage` error outside a provider are left out.
- CustomSelect.ProcessLabel: labels that are neither strings nor functions, such as React elements, are left out, and so are missing `options`. A press inside or outside the dropdown is a boolean parameter.
- Contact.Handle: the body fields are strings or missing; other JSON types are left out. `MongoClient` is an environment value: the connection succeeds or fails, and the insert returns an id or throws. The creation time is the parameter `now`.

## Findings

| source | as written | input that shows it | evidently intended | confidence | as-written member | corrected member |
|---|---|---|---|---|---|---|
| components/game/quantum-game.js:188-244 | `checkSolution` does not check that the game is still running | three wrong answers, close the results, then press check once more: lives become -1, the wrong count becomes 4 and the end time moves | a finished game accepts no more submissions; lives stop at 0 | medium, not executed | `GameScenarios.LivesBelowZeroAfterFinish` | `Game.QuantumGame.CheckSolutionGuarded` |
| components/game/quantum-game.js:215-223 | after the last level the delayed update sets `gameFinished` but never `showResult` | solve all fifteen challenges: the game ends, and the results dialog stays closed | winning opens the results just as losing does through `finishGame` | medium, not executed | `Game.QuantumGame.AdvanceAfterDelay` | `Game.QuantumGame.AdvanceAfterDelayShowingResults` |
