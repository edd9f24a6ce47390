/**
  The index page `Home`: one list item per collection entry, in the collection's
  order. An entry that carries a last-edited time, a `Name` property with a `title`,
  and an id becomes a card linking to `/<id>`, titled by its title runs' plain text
  and showing its external cover, if any; any other entry becomes a fixed message.
 */
module IndexPage {
  import opened Options

  /** A rich-text run; the page reads only its plain text. */
  datatype RichText = RichText(plainText: string)

  /** A page property; `title` is present exactly on a title property. */
  datatype Property = Property(title: Option<seq<RichText>>)

  /** A page cover: an external URL or a file hosted by the workspace. */
  datatype Cover = External(url: string) | File(url: string)

  /** A collection entry, with each field the page checks for as present or absent. */
  datatype Entry = Entry(
    id: Option<string>,
    lastEditedTime: Option<string>,
    properties: Option<map<string, Property>>,
    cover: Option<Cover>)

  /** What the page renders for one entry. */
  datatype Item = Card(key: string, href: string, title: string, coverUrl: string) | Fallback(message: string)

  /** "Not enough data." */
  const FallbackMessage: string := "データが不足しています。"

  /** The page's guard: every field it reads is present. */
  predicate Complete(post: Entry) {
    && post.lastEditedTime.Some?
    && post.properties.Some?
    && "Name" in post.properties.value
    && post.properties.value["Name"].title.Some?
    && post.id.Some?
  }

  /** The plain texts of `runs` joined with no separator. */
  function TitleText(runs: seq<RichText>): string {
    if runs == [] then "" else runs[0].plainText + TitleText(runs[1..])
  }

  /** The image source: the external URL for an external cover, the empty string otherwise. */
  function CoverUrl(cover: Option<Cover>): (url: string)
    ensures cover.Some? && cover.value.External? ==> url == cover.value.url
    ensures cover.None? || cover.value.File? ==> url == ""
  {
    match cover
    case Some(External(u)) => u
    case _ => ""
  }

  /** The item for one entry: a card exactly when the entry is complete. */
  function ViewEntry(post: Entry): (item: Item)
    ensures item.Card? <==> Complete(post)
    ensures item.Card? ==>
              && item.key == post.id.value
              && item.href == "/" + post.id.value
              && item.title == TitleText(post.properties.value["Name"].title.value)
              && item.coverUrl == CoverUrl(post.cover)
    ensures item.Fallback? ==> item.message == FallbackMessage
  {
    if Complete(post) then
      var id := post.id.value;
      Card(id, "/" + id, TitleText(post.properties.value["Name"].title.value), CoverUrl(post.cover))
    else
      Fallback(FallbackMessage)
  }

  /** `posts.map(...)`: one item per entry, in order. */
  function Home(posts: seq<Entry>): (items: seq<Item>)
    ensures |items| == |posts|
    ensures forall i :: 0 <= i < |posts| ==> items[i] == ViewEntry(posts[i])
  {
    if posts == [] then [] else [ViewEntry(posts[0])] + Home(posts[1..])
  }

  /** Joining distributes over concatenation of the runs. */
  lemma {:induction false} TitleTextAppend(a: seq<RichText>, b: seq<RichText>)
    ensures TitleText(a + b) == TitleText(a) + TitleText(b)
    decreases |a|
  {
    if a == [] {
      assert a + b == b;
    } else {
      assert (a + b)[1..] == a[1..] + b;
      TitleTextAppend(a[1..], b);
    }
  }

  /** No separator: run `i`'s text sits right between the texts of the runs around it. */
  lemma TitleTextRun(runs: seq<RichText>, i: nat)
    requires i < |runs|
    ensures TitleText(runs) == TitleText(runs[..i]) + runs[i].plainText + TitleText(runs[i + 1..])
  {
    var rest := runs[i..];
    assert runs == runs[..i] + rest;
    assert rest[0] == runs[i] && rest[1..] == runs[i + 1..];
    assert TitleText(rest) == runs[i].plainText + TitleText(runs[i + 1..]);
    TitleTextAppend(runs[..i], rest);
  }

  /** The cards of the page link to their entries' ids, one card per complete entry. */
  lemma {:induction false} HomeCards(posts: seq<Entry>)
    ensures |Cards(Home(posts))| == |CompleteIds(posts)|
    ensures forall i :: 0 <= i < |CompleteIds(posts)| ==>
              Cards(Home(posts))[i].href == "/" + CompleteIds(posts)[i]
    decreases |posts|
  {
    if posts != [] {
      HomeCards(posts[1..]);
      assert Home(posts)[1..] == Home(posts[1..]);
    }
  }

  /** The cards of `items`, in order. */
  function Cards(items: seq<Item>): (cards: seq<Item>)
    ensures forall i :: 0 <= i < |cards| ==> cards[i].Card?
  {
    if items == [] then []
    else if items[0].Card? then [items[0]] + Cards(items[1..])
    else Cards(items[1..])
  }

  /** The ids of the complete entries, in order. */
  function CompleteIds(posts: seq<Entry>): seq<string> {
    if posts == [] then []
    else if Complete(posts[0]) then [posts[0].id.value] + CompleteIds(posts[1..])
    else CompleteIds(posts[1..])
  }
}
