/** `components/Intelligence.tsx`: the news and channel panel. Modelled are the
    news search, the icon chosen for a channel type and the channel label; the
    screenshot upload calls an external model and is not modelled. */
module Intelligence {
  import opened Seqs
  import opened Text
  import opened LegacyTypes

  /** `field && field.toLowerCase().includes(q)` for an optional field: a
      missing or empty field never matches. */
  predicate OptionalContains(field: Option<string>, q: string)
  {
    field.Some? && field.value != "" && Contains(Lower(field.value), q)
  }

  /** A news item matches when the lower-cased query occurs in its title,
      summary, related ticker, author or source. */
  predicate Matches(item: NewsItem, query: string)
  {
    var q := Lower(query);
    Contains(Lower(item.title), q) || Contains(Lower(item.summary), q) ||
    OptionalContains(item.relatedTicker, q) || OptionalContains(item.author, q) ||
    Contains(Lower(item.source), q)
  }

  /** `filteredNews`. */
  function FilteredNews(news: seq<NewsItem>, query: string): seq<NewsItem>
  {
    Filter(news, (n: NewsItem) => Matches(n, query))
  }

  /** An item is kept exactly when it matches; items without a related ticker
      or author are judged on their other fields alone; the kept items keep
      their order; the empty query keeps every item. */
  lemma FilteredNewsSpec(news: seq<NewsItem>, query: string)
    ensures forall n :: n in FilteredNews(news, query) <==> n in news && Matches(n, query)
    ensures forall n: NewsItem :: n.relatedTicker.None? && n.author.None? ==>
      (Matches(n, query) <==>
        var q := Lower(query);
        Contains(Lower(n.title), q) || Contains(Lower(n.summary), q) || Contains(Lower(n.source), q))
    ensures IsSubsequence(FilteredNews(news, query), news)
    ensures query == "" ==> FilteredNews(news, query) == news
  {
    var p := (n: NewsItem) => Matches(n, query);
    forall n {
      FilterMembership(news, p, n);
    }
    FilterIsSubsequence(news, p);
    if query == "" {
      forall i | 0 <= i < |news| ensures p(news[i]) {
        ContainsEmpty(Lower(news[i].title));
      }
      FilterAll(news, p);
    }
  }

  datatype Icon = SendIcon | VideoIcon | YoutubeIcon | MicIcon | TwitterIcon | InstagramIcon | LinkIcon

  /** `getIcon(type)`. */
  function GetIcon(kind: string): Icon
  {
    if kind == "send" then SendIcon
    else if kind == "video" then VideoIcon
    else if kind == "youtube" then YoutubeIcon
    else if kind == "mic" then MicIcon
    else if kind == "twitter" then TwitterIcon
    else if kind == "instagram" then InstagramIcon
    else LinkIcon
  }

  /** The six known channel types get six different icons, and every other
      type gets the link icon. */
  lemma GetIconSpec(kind: string, kind': string)
    ensures GetIcon(kind) == LinkIcon <==> kind !in {"send", "video", "youtube", "mic", "twitter", "instagram"}
    ensures GetIcon(kind) != LinkIcon && GetIcon(kind) == GetIcon(kind') ==> kind == kind'
  {
  }

  /** `channel.name.split('(')[0]`. */
  function ChannelLabel(name: string): string
  {
    BeforeFirst(name, '(')
  }

  /** The label is the part of the name before its first '(': a prefix of the
      name holding no '(', and the whole name when there is none. */
  lemma ChannelLabelSpec(name: string)
    ensures IsPrefix(ChannelLabel(name), name)
    ensures '(' !in ChannelLabel(name)
    ensures '(' !in name ==> ChannelLabel(name) == name
    ensures |ChannelLabel(name)| < |name| ==> name[|ChannelLabel(name)|] == '('
  {
    BeforeFirstSpec(name, '(');
  }
}
