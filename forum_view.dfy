/**
 The forum screen's own logic: the search over the view model's filtered
 posts, the topic buttons that toggle the tag filter, and the icon each
 topic button shows.
 */
module ForumView {
  import opened Wrappers
  import Seqs
  import Strings
  import Forum

  /** The topic buttons, in display order. */
  const Topics: seq<string> := ["Recycling", "Upcycling", "Transport"]

  /** Some tag of the post contains `searchText`, ignoring case. */
  predicate SomeTagContains(tags: seq<string>, searchText: string)
  {
    exists t :: t in tags && Strings.ContainsIgnoringCase(t, searchText)
  }

  /** The search test: title, text or some tag contains the search text, ignoring case. */
  predicate MatchesSearch(p: Forum.Post, searchText: string)
  {
    || Strings.ContainsIgnoringCase(p.title, searchText)
    || Strings.ContainsIgnoringCase(p.text, searchText)
    || (p.tags.Some? && SomeTagContains(p.tags.value, searchText))
  }

  /** The search test as a closure over the search text. */
  function Matcher(searchText: string): Forum.Post -> bool
  {
    (p: Forum.Post) => MatchesSearch(p, searchText)
  }

  /** `filteredPosts` of the view: the view model's list unchanged for an empty search,
      otherwise its posts matching the search, in order. */
  function SearchResults(shown: seq<Forum.Post>, searchText: string): (r: seq<Forum.Post>)
    ensures searchText == [] ==> r == shown
    ensures searchText != [] ==> forall p :: p in r <==> p in shown && MatchesSearch(p, searchText)
    ensures |r| <= |shown|
  {
    if searchText == [] then shown
    else Seqs.Filter(shown, Matcher(searchText))
  }

  /** Searching keeps relative order: the search of a concatenation is the concatenation of the searches. */
  lemma SearchResultsAppend(a: seq<Forum.Post>, b: seq<Forum.Post>, searchText: string)
    ensures SearchResults(a + b, searchText) == SearchResults(a, searchText) + SearchResults(b, searchText)
  {
    if searchText != [] {
      Seqs.FilterAppend(a, b, Matcher(searchText));
    }
  }

  /** A post without tags is found only through its title or its text. */
  lemma UntaggedSearch(shown: seq<Forum.Post>, p: Forum.Post, searchText: string)
    requires p in shown && p.tags.None? && searchText != []
    ensures p in SearchResults(shown, searchText) <==>
      Strings.ContainsIgnoringCase(p.title, searchText) || Strings.ContainsIgnoringCase(p.text, searchText)
  {
  }

  /** A post whose title is the search text, in any case, is always found. */
  lemma TitleFound(shown: seq<Forum.Post>, p: Forum.Post)
    requires p in shown && p.title != []
    ensures p in SearchResults(shown, p.title)
    ensures p in SearchResults(shown, Strings.Lower(p.title))
  {
  }

  /** A topic button shows as selected exactly when the filter is the lower-cased topic. */
  predicate IsSelected(selectedFilter: Option<string>, topic: string)
    ensures IsSelected(selectedFilter, topic) ==> selectedFilter.Some? && |selectedFilter.value| == |topic|
    ensures IsSelected(selectedFilter, topic) ==> forall i :: 0 <= i < |topic| ==> !('A' <= selectedFilter.value[i] <= 'Z')
  {
    selectedFilter == Some(Strings.Lower(topic))
  }

  /** The filter a tap on `topic` selects: none if the topic was selected, else the lower-cased topic. */
  function ToggledFilter(selectedFilter: Option<string>, topic: string): (r: Option<string>)
    ensures IsSelected(r, topic) <==> !IsSelected(selectedFilter, topic)
    ensures r.None? <==> IsSelected(selectedFilter, topic)
  {
    if selectedFilter == Some(Strings.Lower(topic)) then None else Some(Strings.Lower(topic))
  }

  /** Two taps on the same topic from no filter return to no filter. */
  lemma TapTwiceFromNone(topic: string)
    ensures ToggledFilter(ToggledFilter(None, topic), topic) == None
  {
  }

  /** A tap on one topic after another selects the second, whatever the first was. */
  lemma TapOtherTopic(selectedFilter: Option<string>, first: string, second: string)
    requires Strings.Lower(first) != Strings.Lower(second)
    ensures ToggledFilter(ToggledFilter(selectedFilter, first), second) == Some(Strings.Lower(second))
  {
  }

  /** The topic button's action: toggles the view model's filter and refilters. */
  method TapTopic(viewModel: Forum.ForumViewModel, topic: string)
    modifies viewModel`selectedFilter, viewModel`filteredPosts
    ensures viewModel.selectedFilter == ToggledFilter(old(viewModel.selectedFilter), topic)
    ensures viewModel.Valid()
  {
    if viewModel.selectedFilter == Some(Strings.Lower(topic)) {
      viewModel.SetFilter(None);
    } else {
      viewModel.SetFilter(Some(Strings.Lower(topic)));
    }
  }

  /** `getIconName(for:)`: an SF Symbol name per known topic, ignoring case, and "tag" otherwise. */
  function IconName(topic: string): (r: string)
    ensures r == "arrow.3.trianglepath" <==> Strings.Lower(topic) == "recycling"
    ensures r == "arrow.up.circle" <==> Strings.Lower(topic) == "upcycling"
    ensures r == "car.fill" <==> Strings.Lower(topic) == "transport"
    ensures r == "tag" <==> Strings.Lower(topic) !in {"recycling", "upcycling", "transport"}
  {
    match Strings.Lower(topic)
    case "recycling" => "arrow.3.trianglepath"
    case "upcycling" => "arrow.up.circle"
    case "transport" => "car.fill"
    case _ => "tag"
  }

  /** The icon does not depend on the topic's case. */
  lemma IconNameIgnoresCase(topic: string)
    ensures IconName(Strings.Lower(topic)) == IconName(topic)
  {
  }

  /** Each of the three topic buttons shows its own icon. */
  lemma TopicIconsDistinct()
    ensures IconName(Topics[0]) == "arrow.3.trianglepath"
    ensures IconName(Topics[1]) == "arrow.up.circle"
    ensures IconName(Topics[2]) == "car.fill"
  {
    assert Strings.Lower(Topics[0]) == "recycling";
    assert Strings.Lower(Topics[1]) == "upcycling";
    assert Strings.Lower(Topics[2]) == "transport";
  }
}
