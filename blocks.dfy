/**
  The blocks of a workspace page, as the block-tree fetcher sees them.

  A block from the workspace carries an optional `id`, a `type` tag (the field
  `kind` here, since `type` is a Dafny keyword) and a payload keyed by that tag.
  The payload of an ordinary block is opaque to the fetcher; the payload of a
  synthetic list container holds the grouped list items. After fetching, a block
  also carries the `children` attached by the fetcher.
 */
module Blocks {
  import opened Options

  /**
    The `type` tag: the four kinds the grouper looks at — `bulleted_list_item`,
    `numbered_list_item` and the synthetic `bulleted_list`, `numbered_list` — and every
    other type by its name (`paragraph`, `toggle`, `unsupported`, ...).
   */
  datatype Kind = BulletedListItem | NumberedListItem | BulletedList | NumberedList | Other(name: string)

  /** The names of the four kinds above; an `Other` kind never carries one of them. */
  const ReservedNames: set<string> := {"bulleted_list_item", "numbered_list_item", "bulleted_list", "numbered_list"}

  /** The tag is spelled by its own case: `Other` is used only for the remaining type names. */
  predicate CanonicalKind(k: Kind) {
    k.Other? ==> k.name !in ReservedNames
  }

  datatype Block = Block(id: Option<string>, kind: Kind, payload: Payload, children: Children)

  /** The `children` field: `Absent` until the fetcher attaches the block's fetched children. */
  datatype Children = Absent | Present(blocks: seq<Block>)

  /** `block[block.type]`: opaque data, or the `{children: [...]}` of a list container. */
  datatype Payload = Opaque(data: string) | Items(children: seq<Block>)

  /** `if (block.id)`: an id counts only when present and not the empty string. */
  predicate HasId(b: Block) {
    b.id.Some? && b.id.value != ""
  }

  predicate IsListItem(b: Block) {
    b.kind == BulletedListItem || b.kind == NumberedListItem
  }

  predicate IsContainer(b: Block) {
    b.kind == BulletedList || b.kind == NumberedList
  }

  /** The container type that wraps a run of list items of type `item`. */
  function ContainerOf(item: Kind): (t: Kind)
    requires item == BulletedListItem || item == NumberedListItem
    ensures t == BulletedList || t == NumberedList
    ensures (t == BulletedList) <==> (item == BulletedListItem)
  {
    if item == BulletedListItem then BulletedList else NumberedList
  }

  /** The item type that a container of type `list` holds. */
  function ItemOf(list: Kind): (t: Kind)
    requires list == BulletedList || list == NumberedList
    ensures t == BulletedListItem || t == NumberedListItem
    ensures ContainerOf(t) == list
  {
    if list == BulletedList then BulletedListItem else NumberedListItem
  }

  /** A synthetic list container, as the grouper builds it: no `children` of its own. */
  function Container(list: Kind, id: string, items: seq<Block>): Block {
    Block(Some(id), list, Items(items), Absent)
  }

  /** No block of `s` has a synthetic container type. */
  predicate NoContainers(s: seq<Block>) {
    forall i :: 0 <= i < |s| ==> !IsContainer(s[i])
  }

  /** No block of `s` is a list item. */
  predicate NoListItems(s: seq<Block>) {
    forall i :: 0 <= i < |s| ==> !IsListItem(s[i])
  }
}
