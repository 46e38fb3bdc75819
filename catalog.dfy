/** The storefront's catalog as the streaming view holds it after loading, and
    the two filters it renders from: channels by name, content by tab or title. */
module Catalog {
  import opened Seqs
  import opened Text
  import opened Store

  datatype Channel = Channel(id: Id, name: string, logoUrl: string, category: string, creditsCost: int)

  /** A content item; `kind` is the `type` column ("movie", "series", ...). */
  datatype Content = Content(id: Id, title: string, kind: string, posterUrl: string, category: string, creditsCost: int)

  datatype Tab = ChannelsTab | MoviesTab | SeriesTab

  /** The local subscription snapshot: the view selects only these two columns. */
  datatype Subscription = Subscription(id: Id, currentCredits: int)

  /** `text.toLowerCase().includes(query.toLowerCase())` */
  predicate MatchesQuery(text: string, query: string)
    ensures query == [] ==> MatchesQuery(text, query)
    ensures MatchesQuery(text, query) ==> |query| <= |text|
  {
    Contains(Lower(text), Lower(query))
  }

  /** Whether `filteredContent` keeps an item: on the movies and series tabs
      by type, and on the channels tab (its third branch) by title search. The
      view renders the content grid only on the movies and series tabs, so the
      title search never reaches the screen. */
  predicate ContentShown(tab: Tab, query: string, c: Content)
    ensures tab == ChannelsTab && query == [] ==> ContentShown(tab, query, c)
    ensures tab == ChannelsTab && ContentShown(tab, query, c) ==> |query| <= |c.title|
  {
    match tab
    case MoviesTab => c.kind == "movie"
    case SeriesTab => c.kind == "series"
    case ChannelsTab => MatchesQuery(c.title, query)
  }

  /** `filteredChannels`: the channels whose name contains the query, ignoring
      ASCII case, in their original order and with their multiplicities. */
  function FilteredChannels(channels: seq<Channel>, query: string): (r: seq<Channel>)
    ensures forall c :: c in r <==> c in channels && MatchesQuery(c.name, query)
    ensures forall i :: 0 <= i < |channels| && MatchesQuery(channels[i].name, query) ==>
      multiset(r)[channels[i]] == multiset(channels)[channels[i]]
    ensures SubsequenceOf(r, channels)
  {
    var r := Filter((c: Channel) => MatchesQuery(c.name, query), channels);
    FilterIsSubsequence((c: Channel) => MatchesQuery(c.name, query), channels);
    FilterCounts((c: Channel) => MatchesQuery(c.name, query), channels);
    assert forall c :: c in r ==> c in multiset(r);
    assert forall i :: 0 <= i < |channels| ==> channels[i] in multiset(channels);
    r
  }

  /** `filteredContent`: on the movies tab the movies, on the series tab the
      series (the query plays no part there), on the channels tab the items
      whose title contains the query, a list the view never renders; order and multiplicities are kept. */
  function FilteredContent(items: seq<Content>, tab: Tab, query: string): (r: seq<Content>)
    ensures tab == MoviesTab ==> forall c :: c in r <==> c in items && c.kind == "movie"
    ensures tab == SeriesTab ==> forall c :: c in r <==> c in items && c.kind == "series"
    ensures tab == ChannelsTab ==> forall c :: c in r <==> c in items && MatchesQuery(c.title, query)
    ensures forall i :: 0 <= i < |items| && ContentShown(tab, query, items[i]) ==>
      multiset(r)[items[i]] == multiset(items)[items[i]]
    ensures SubsequenceOf(r, items)
  {
    var r := Filter((c: Content) => ContentShown(tab, query, c), items);
    FilterIsSubsequence((c: Content) => ContentShown(tab, query, c), items);
    FilterCounts((c: Content) => ContentShown(tab, query, c), items);
    assert forall c :: c in r ==> c in multiset(r);
    assert forall i :: 0 <= i < |items| ==> items[i] in multiset(items);
    r
  }

  /** An empty search box shows every channel. */
  lemma EmptyQueryKeepsAllChannels(channels: seq<Channel>)
    ensures FilteredChannels(channels, "") == channels
  {
    forall i | 0 <= i < |channels| ensures MatchesQuery(channels[i].name, "") {
      ContainsEmpty(Lower(channels[i].name));
    }
    FilterKeepsAll((c: Channel) => MatchesQuery(c.name, ""), channels);
  }

  /** The search ignores ASCII case: lower-casing the query changes nothing. */
  lemma ChannelSearchIgnoresQueryCase(channels: seq<Channel>, query: string)
    ensures FilteredChannels(channels, Lower(query)) == FilteredChannels(channels, query)
  {
    LowerIdempotent(query);
    FilterAgrees((c: Channel) => MatchesQuery(c.name, Lower(query)),
                 (c: Channel) => MatchesQuery(c.name, query), channels);
  }

  /** On the movies and series tabs the search query has no effect. */
  lemma TypeTabsIgnoreQuery(items: seq<Content>, tab: Tab, q1: string, q2: string)
    requires tab != ChannelsTab
    ensures FilteredContent(items, tab, q1) == FilteredContent(items, tab, q2)
  {
    FilterAgrees((c: Content) => ContentShown(tab, q1, c), (c: Content) => ContentShown(tab, q2, c), items);
  }

  /** The credit badge: `subscription?.current_credits || 0`. */
  function CreditBadge(sub: Option<Subscription>): (shown: int)
    ensures sub.None? ==> shown == 0
    ensures sub.Some? ==> shown == sub.value.currentCredits
  {
    if sub.Some? && sub.value.currentCredits != 0 then sub.value.currentCredits else 0
  }
}
