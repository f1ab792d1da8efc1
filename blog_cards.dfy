/** The view models `AdvancedDevToBlogManager` builds from one dev.to article: the grid card
    (`createAdvancedBlogCard`), the modal preview (`getPostPreview`) and the generated placeholder
    cover (`generatePlaceholderImage`), script.js. */
module BlogCards {
  import opened Wrappers
  import opened JsBuiltins

  /** An article as the dev.to API returns it. The cover, description, counts and tag list may be
      missing; the title, URL and publication date are taken to be present. `publishedAt` is kept
      as the API's text, its formatting being a locale library call. */
  datatype Post = Post(
    title: string,
    url: string,
    publishedAt: string,
    coverImage: Option<string>,
    description: Option<string>,
    readingTimeMinutes: Option<int>,
    reactionsCount: Option<int>,
    commentsCount: Option<int>,
    tags: Option<seq<string>>)

  /** JavaScript truthiness of an optional text: absent and "" are false. */
  predicate Truthy(s: Option<string>) {
    s.Some? && s.value != ""
  }

  /** `s || fallback` for an optional text. */
  function TextOr(s: Option<string>, fallback: string): string {
    if Truthy(s) then s.value else fallback
  }

  /** `n || 5` for an optional whole number: absent and 0 give the default of 5 minutes. */
  function ReadingTime(n: Option<int>): (m: int)
    ensures m == 5 <==> n.None? || n.value == 0 || n.value == 5
    ensures n.Some? && n.value != 0 ==> m == n.value
  {
    if n.Some? && n.value != 0 then n.value else 5
  }

  const DefaultExcerpt: string := "Click to read this insightful post about my development journey..."
  const DefaultPreviewDescription: string :=
    "This post shares insights from my journey in web development, including personal experiences, lessons learned, and practical tips for fellow developers and career changers."

  /** The five background colours of a generated cover. */
  const PlaceholderColors: seq<string> := ["6366f1", "3b82f6", "8b5cf6", "f59e0b", "ef4444"]

  /** How many UTF-16 code units of the title a generated cover shows. */
  const CaptionLength: nat := 30

  /** A card's cover: the article's own image, or a generated SVG of one colour whose text is the
      percent-encoded `caption`. */
  datatype Cover = CoverImage(src: string) | Generated(color: string, caption: string)

  /** `generatePlaceholderImage(title)`, with the random draw `Math.floor(Math.random() * 5)` given
      as `colorIndex`: one of the five colours, and the first 30 code units of the title. When the
      30th unit is the first half of a surrogate pair, `encodeURIComponent` throws a URIError on
      the lone surrogate `substring` leaves, and there is no image (None). */
  function PlaceholderImage(title: string, colorIndex: int): (c: Option<Cover>)
    requires 0 <= colorIndex < |PlaceholderColors|
    ensures c.None? <==> SplitsPair(title, CaptionLength)
    ensures c.Some? ==> c.value.Generated? && c.value.color == PlaceholderColors[colorIndex]
    ensures c.Some? ==> c.value.caption <= title && Utf16Length(c.value.caption) <= CaptionLength
    ensures c.Some? ==> c.value.caption == title || Utf16Length(c.value.caption) == CaptionLength
  {
    match Utf16Prefix(title, CaptionLength)
    case None => None
    case Some(caption) => Some(Generated(PlaceholderColors[colorIndex], caption))
  }

  /** A title of only characters up to U+FFFF has a placeholder at any colour. */
  lemma BmpTitleHasPlaceholder(title: string, colorIndex: int)
    requires 0 <= colorIndex < |PlaceholderColors|
    requires forall k | 0 <= k < |title| :: Units(title[k]) == 1
    ensures PlaceholderImage(title, colorIndex).Some?
  {
  }

  /** 29 letters followed by an emoji: unit 30 is the emoji's high surrogate, so the generated
      cover throws. */
  lemma EmojiAtUnit30HasNoPlaceholder(colorIndex: int)
    requires 0 <= colorIndex < |PlaceholderColors|
    ensures PlaceholderImage(EmojiTitle, colorIndex).None?
  {
    assert EmojiTitle[..29] == seq(29, _ => 'a');
    Utf16LengthOfAs(29);
    assert SplitsPairAt(EmojiTitle, CaptionLength, 29);
  }

  /** A 30-character title whose last character is U+1F600. */
  const EmojiTitle: string := seq(29, _ => 'a') + ['\U{1F600}']

  lemma {:induction false} Utf16LengthOfAs(n: nat)
    ensures Utf16Length(seq(n, _ => 'a')) == n
  {
    if n > 0 {
      assert seq(n, _ => 'a')[1..] == seq(n - 1, _ => 'a');
      Utf16LengthOfAs(n - 1);
    }
  }

  /** The tag strip of a card: the first tags and, when some are left over, how many. */
  datatype TagStrip = TagStrip(shown: seq<string>, more: Option<nat>)

  /** `tag_list.slice(0, 3)` and the "+N" badge shown when there are more than 3 tags. */
  function TagStripOf(tags: seq<string>): (t: TagStrip)
    ensures t.shown <= tags
    ensures |t.shown| == if |tags| < 3 then |tags| else 3
    ensures t.more.Some? <==> |tags| > 3
    ensures |t.shown| + t.more.GetOr(0) == |tags|
  {
    TagStrip(tags[..if |tags| < 3 then |tags| else 3], if |tags| > 3 then Some(|tags| - 3) else None)
  }

  /** What one grid card displays. `index` is the card's position in the loaded list, which its
      preview buttons carry. */
  datatype Card = Card(
    index: nat,
    title: string,
    url: string,
    publishedAt: string,
    cover: Cover,
    readingTime: int,
    excerpt: string,
    tags: TagStrip,
    reactions: int,
    comments: int)

  /** Whether `createAdvancedBlogCard` throws on this post: it slices a missing tag list, or the
      placeholder it always generates for the image's `onerror` fallback throws. */
  predicate CardThrows(post: Post) {
    post.tags.None? || Utf16Prefix(post.title, CaptionLength).None?
  }

  /** A card throws exactly when the tag list is missing or the caption cut splits a surrogate
      pair of the title. */
  lemma CardThrowsExactly(post: Post)
    ensures CardThrows(post) <==> post.tags.None? || SplitsPair(post.title, CaptionLength)
  {
  }

  /** `createAdvancedBlogCard(post, index)`, given the colour a generated cover would draw. It
      throws (None) exactly when `CardThrows`. */
  function CardFor(post: Post, index: nat, colorIndex: int): (r: Option<Card>)
    requires 0 <= colorIndex < |PlaceholderColors|
    ensures r.None? <==> CardThrows(post)
    ensures r.Some? ==>
      && r.value.index == index && r.value.title == post.title && r.value.url == post.url
      && r.value.publishedAt == post.publishedAt
      && r.value.tags == TagStripOf(post.tags.value)
      && r.value.readingTime == ReadingTime(post.readingTimeMinutes)
      && r.value.reactions == post.reactionsCount.GetOr(0)
      && r.value.comments == post.commentsCount.GetOr(0)
      && (Truthy(post.description) ==> r.value.excerpt == post.description.value)
      && (!Truthy(post.description) ==> r.value.excerpt == DefaultExcerpt)
      && (Truthy(post.coverImage) ==> r.value.cover == CoverImage(post.coverImage.value))
      && (!Truthy(post.coverImage) ==> r.value.cover == PlaceholderImage(post.title, colorIndex).value)
  {
    match post.tags
    case None => None
    case Some(tags) =>
      match PlaceholderImage(post.title, colorIndex)
      case None => None
      case Some(placeholder) =>
        var cover := if Truthy(post.coverImage) then CoverImage(post.coverImage.value) else placeholder;
        Some(Card(index, post.title, post.url, post.publishedAt, cover,
                  ReadingTime(post.readingTimeMinutes), TextOr(post.description, DefaultExcerpt),
                  TagStripOf(tags), post.reactionsCount.GetOr(0), post.commentsCount.GetOr(0)))
  }

  /** What the modal preview body displays. */
  datatype PreviewView = PreviewView(
    cover: Option<string>,
    publishedAt: string,
    readingTime: int,
    description: string,
    tags: seq<string>,
    reactions: int,
    comments: int)

  /** `getPostPreview(post)`: like the card, but with every tag and its own fallback text. It
      throws (None) exactly when the post has no tag list. */
  function PreviewFor(post: Post): (r: Option<PreviewView>)
    ensures r.None? <==> post.tags.None?
    ensures r.Some? ==>
      && r.value.tags == post.tags.value
      && r.value.publishedAt == post.publishedAt
      && (r.value.cover.Some? <==> Truthy(post.coverImage))
      && (r.value.cover.Some? ==> r.value.cover.value == post.coverImage.value)
      && r.value.readingTime == ReadingTime(post.readingTimeMinutes)
      && r.value.description == TextOr(post.description, DefaultPreviewDescription)
      && r.value.reactions == post.reactionsCount.GetOr(0)
      && r.value.comments == post.commentsCount.GetOr(0)
  {
    match post.tags
    case None => None
    case Some(tags) =>
      Some(PreviewView(if Truthy(post.coverImage) then post.coverImage else None,
                       post.publishedAt, ReadingTime(post.readingTimeMinutes),
                       TextOr(post.description, DefaultPreviewDescription),
                       tags, post.reactionsCount.GetOr(0), post.commentsCount.GetOr(0)))
  }

  /** The card shows a prefix of the tags the preview lists, and the badge counts the rest. */
  lemma CardTagsArePreviewPrefix(post: Post, index: nat, colorIndex: int)
    requires 0 <= colorIndex < |PlaceholderColors|
    requires !CardThrows(post)
    ensures var card := CardFor(post, index, colorIndex).value;
            var preview := PreviewFor(post).value;
            && card.tags.shown <= preview.tags
            && |card.tags.shown| + card.tags.more.GetOr(0) == |preview.tags|
  {
  }
}
