/**
  The block-tree fetcher `getBlocks`: canonicalise the id, list the block's children
  (one page of at most 100), attach to every child that has an id its own fetched
  children, and group the list items of the result.

  The workspace client is a parameter: `client(req)` is the page of blocks the
  workspace returns for `req`. The recursion ends because the workspace's block tree
  is finite; here that is a `rank` on canonical ids that every child with an id
  lies strictly below (`Ranked`). The fresh ids of the synthetic containers come
  from a generator `newId` and a counter that the fetch threads through the tree:
  the children of a block, in order, draw first, then the block's own grouping.
 */
module Fetch {
  import opened Options
  import opened Blocks
  import opened BlockIds
  import opened Grouping

  /** The page size the fetcher asks for. */
  const PageSize: nat := 100

  /** `notion.blocks.children.list({block_id, page_size})`. */
  datatype ListRequest = ListRequest(blockId: string, pageSize: nat)

  /** The fetched sibling sequence and the counter after the fresh ids it drew. */
  datatype Fetched = Fetched(blocks: seq<Block>, next: nat)

  /** The request `getBlocks(id)` sends. */
  function Request(id: string): (req: ListRequest)
    ensures Separator !in req.blockId
    ensures req.pageSize == PageSize
  {
    ListRequest(Canonical(id), PageSize)
  }

  /** Every child with an id, in every page the client returns, ranks below its parent. */
  ghost predicate Ranked(client: ListRequest -> seq<Block>, rank: string -> nat) {
    forall c: string, i: int ::
      0 <= i < |client(ListRequest(c, PageSize))| && HasId(client(ListRequest(c, PageSize))[i])
      ==> rank(Canonical(client(ListRequest(c, PageSize))[i].id.value)) < rank(c)
  }

  /** Every block of `raw` with an id ranks below `bound`. */
  predicate RankedBelow(raw: seq<Block>, rank: string -> nat, bound: nat) {
    forall i :: 0 <= i < |raw| && HasId(raw[i]) ==> rank(Canonical(raw[i].id.value)) < bound
  }

  /**
    A block as the workspace returns it: none of the grouper's synthetic container
    types (the workspace has no such block type), its type tag in its own case, no
    `children` yet, and a payload the fetcher does not look into.
   */
  predicate Plain(b: Block) {
    !IsContainer(b) && CanonicalKind(b.kind) && b.children.Absent? && b.payload.Opaque?
  }

  /** What the workspace promises of a page: at most the page size, of plain blocks. */
  ghost predicate Paged(client: ListRequest -> seq<Block>) {
    forall req: ListRequest ::
      |client(req)| <= req.pageSize && forall i :: 0 <= i < |client(req)| ==> Plain(client(req)[i])
  }

  /**
    Every sibling sequence in a fetched tree is grouped: at the top, under every
    `children`, and inside every container (where the items' own `children` are).
   */
  predicate Tidy(bs: seq<Block>)
    decreases bs
  {
    Grouped(bs) && forall i :: 0 <= i < |bs| ==> TidyBlock(bs[i])
  }

  predicate TidyBlock(b: Block)
    decreases b
  {
    && (b.children.Present? ==> Tidy(b.children.blocks))
    && (b.payload.Items? ==> forall j :: 0 <= j < |b.payload.children| ==> TidyBlock(b.payload.children[j]))
  }

  /** `{...block, children}` for a block with an id, the block itself otherwise. */
  predicate Keeps(raw: Block, out: Block) {
    && out.id == raw.id
    && out.kind == raw.kind
    && out.payload == raw.payload
    && (HasId(raw) ==> out.children.Present?)
    && (!HasId(raw) ==> out == raw)
  }

  /** `getBlocks(id)`: the grouped, child-attached page of the children of block `id`. */
  function Fetch(client: ListRequest -> seq<Block>, rank: string -> nat, newId: nat -> string,
                 id: string, next: nat): (r: Fetched)
    requires Ranked(client, rank)
    ensures next <= r.next
    decreases rank(Canonical(id)), 1
  {
    var raw := client(Request(id));
    var attached := Attach(client, rank, newId, raw, rank(Canonical(id)), next);
    Fetched(Group(attached.blocks, newId, attached.next), attached.next + Runs(attached.blocks))
  }

  /**
    `results.map(...)` awaited with `Promise.all`: every block of `raw` that has an id
    gets its fetched children, in order.
   */
  function Attach(client: ListRequest -> seq<Block>, rank: string -> nat, newId: nat -> string,
                  raw: seq<Block>, ghost bound: nat, next: nat): (r: Fetched)
    requires Ranked(client, rank) && RankedBelow(raw, rank, bound)
    ensures next <= r.next
    ensures |r.blocks| == |raw|
    ensures forall i :: 0 <= i < |raw| ==> Keeps(raw[i], r.blocks[i])
    decreases bound, 0, |raw|
  {
    if raw == [] then Fetched([], next)
    else
      var init := Attach(client, rank, newId, raw[..|raw| - 1], bound, next);
      var b := raw[|raw| - 1];
      if HasId(b) then
        var sub := Fetch(client, rank, newId, b.id.value, init.next);
        Fetched(init.blocks + [b.(children := Present(sub.blocks))], sub.next)
      else
        Fetched(init.blocks + [b], init.next)
  }

  /** `getBlocks` canonicalises first: an id and its canonical form fetch the same tree. */
  lemma FetchCanonical(client: ListRequest -> seq<Block>, rank: string -> nat, newId: nat -> string,
                       id: string, next: nat)
    requires Ranked(client, rank)
    ensures Fetch(client, rank, newId, id, next) == Fetch(client, rank, newId, Canonical(id), next)
  {
    CanonicalIdempotent(id);
  }

  lemma RankedPrefix(raw: seq<Block>, rank: string -> nat, bound: nat, i: nat)
    requires RankedBelow(raw, rank, bound) && i <= |raw|
    ensures RankedBelow(raw[..i], rank, bound)
  {
    assert forall j :: 0 <= j < i ==> raw[..i][j] == raw[j];
  }

  /**
    The `i`-th block after attaching: a block with an id gains, as `children`, exactly
    what `getBlocks` fetches for that id (drawing fresh ids after the blocks before
    it); a block without an id is left as it is.
   */
  lemma {:induction false} AttachAt(client: ListRequest -> seq<Block>, rank: string -> nat,
                                    newId: nat -> string, raw: seq<Block>, bound: nat, next: nat, i: nat)
    requires Ranked(client, rank) && RankedBelow(raw, rank, bound) && i < |raw|
    ensures RankedBelow(raw[..i], rank, bound)
    ensures var before := Attach(client, rank, newId, raw[..i], bound, next);
            Attach(client, rank, newId, raw, bound, next).blocks[i]
            == if HasId(raw[i])
               then raw[i].(children := Present(Fetch(client, rank, newId, raw[i].id.value, before.next).blocks))
               else raw[i]
    decreases |raw|
  {
    RankedPrefix(raw, rank, bound, i);
    var init := raw[..|raw| - 1];
    RankedPrefix(raw, rank, bound, |raw| - 1);
    if i == |raw| - 1 {
    } else {
      AttachAt(client, rank, newId, init, bound, next, i);
      assert init[..i] == raw[..i];
    }
  }

  lemma PlainKept(raw: seq<Block>, out: seq<Block>)
    requires |out| == |raw|
    requires forall i :: 0 <= i < |raw| ==> Plain(raw[i]) && Keeps(raw[i], out[i])
    ensures NoContainers(out)
  {
  }

  /**
    One fetched page: grouped, no longer than a page, and flattening its containers
    gives back the workspace's page for the canonical id, each block with its id, type
    and payload, and `children` exactly when it has an id.
   */
  lemma FetchPage(client: ListRequest -> seq<Block>, rank: string -> nat, newId: nat -> string,
                  id: string, next: nat)
    requires Ranked(client, rank) && Paged(client)
    ensures var r := Fetch(client, rank, newId, id, next);
            var raw := client(ListRequest(Canonical(id), PageSize));
            && Grouped(r.blocks)
            && |r.blocks| <= PageSize
            && |Flatten(r.blocks)| == |raw|
            && forall i :: 0 <= i < |raw| ==> Keeps(raw[i], Flatten(r.blocks)[i])
  {
    var raw := client(Request(id));
    var a := Attach(client, rank, newId, raw, rank(Canonical(id)), next);
    assert forall i :: 0 <= i < |raw| ==> Plain(raw[i]);
    PlainKept(raw, a.blocks);
    GroupIsGrouped(a.blocks, newId, a.next);
    GroupNoLonger(a.blocks, newId, a.next);
    GroupFlattens(a.blocks, newId, a.next);
  }

  /** Every sibling sequence of a fetched tree, at any depth, is grouped. */
  lemma {:induction false} FetchTidy(client: ListRequest -> seq<Block>, rank: string -> nat,
                                     newId: nat -> string, id: string, next: nat)
    requires Ranked(client, rank) && Paged(client)
    ensures Tidy(Fetch(client, rank, newId, id, next).blocks)
    decreases rank(Canonical(id)), 1
  {
    var raw := client(Request(id));
    var a := Attach(client, rank, newId, raw, rank(Canonical(id)), next);
    AttachTidy(client, rank, newId, raw, rank(Canonical(id)), next);
    var g := Group(a.blocks, newId, a.next);
    GroupIsGrouped(a.blocks, newId, a.next);
    GroupDrawsFrom(a.blocks, newId, a.next);
    forall i | 0 <= i < |g| ensures TidyBlock(g[i]) {
      if g[i] !in a.blocks {
        assert forall j :: 0 <= j < |g[i].payload.children| ==> TidyBlock(g[i].payload.children[j]);
      }
    }
  }

  /** Attaching keeps every block of a plain page tidy. */
  lemma {:induction false} AttachTidy(client: ListRequest -> seq<Block>, rank: string -> nat,
                                      newId: nat -> string, raw: seq<Block>, bound: nat, next: nat)
    requires Ranked(client, rank) && Paged(client) && RankedBelow(raw, rank, bound)
    requires forall i :: 0 <= i < |raw| ==> Plain(raw[i])
    ensures forall b :: b in Attach(client, rank, newId, raw, bound, next).blocks ==> TidyBlock(b)
    decreases bound, 0, |raw|
  {
    if raw != [] {
      var init := raw[..|raw| - 1];
      RankedPrefix(raw, rank, bound, |raw| - 1);
      AttachTidy(client, rank, newId, init, bound, next);
      var before := Attach(client, rank, newId, init, bound, next);
      var b := raw[|raw| - 1];
      if HasId(b) {
        FetchTidy(client, rank, newId, b.id.value, before.next);
      }
    }
  }

  /**
    The container ids of a fetched tree, at every depth, are exactly the ids drawn with
    the counter values the fetch used, `next` up to `r.next`, each as often as drawn.
   */
  lemma {:induction false} FetchIds(client: ListRequest -> seq<Block>, rank: string -> nat,
                                    newId: nat -> string, id: string, next: nat, x: string)
    requires Ranked(client, rank) && Paged(client)
    ensures var r := Fetch(client, rank, newId, id, next);
            IdCount(x, r.blocks) == DrawnCount(newId, x, next, r.next)
    decreases rank(Canonical(id)), 1
  {
    var raw := client(Request(id));
    assert forall i :: 0 <= i < |raw| ==> Plain(raw[i]);
    AttachIds(client, rank, newId, raw, rank(Canonical(id)), next, x);
    GroupedIds(newId, x, next, Attach(client, rank, newId, raw, rank(Canonical(id)), next));
  }

  /** Grouping an attached page whose ids are those drawn from `next` on keeps that so. */
  lemma GroupedIds(newId: nat -> string, x: string, next: nat, a: Fetched)
    requires next <= a.next
    requires IdCount(x, a.blocks) == DrawnCount(newId, x, next, a.next)
    ensures IdCount(x, Group(a.blocks, newId, a.next))
            == DrawnCount(newId, x, next, a.next + Runs(a.blocks))
  {
    GroupIds(a.blocks, newId, a.next, x);
    DrawnSplit(newId, x, next, a.next, a.next + Runs(a.blocks));
  }

  /** Attaching children adds exactly the ids the children's fetches draw. */
  lemma {:induction false} AttachIds(client: ListRequest -> seq<Block>, rank: string -> nat,
                                     newId: nat -> string, raw: seq<Block>, bound: nat, next: nat, x: string)
    requires Ranked(client, rank) && Paged(client) && RankedBelow(raw, rank, bound)
    requires forall i :: 0 <= i < |raw| ==> Plain(raw[i])
    ensures var r := Attach(client, rank, newId, raw, bound, next);
            IdCount(x, r.blocks) == DrawnCount(newId, x, next, r.next)
    decreases bound, 0, |raw|
  {
    if raw != [] {
      var init := raw[..|raw| - 1];
      RankedPrefix(raw, rank, bound, |raw| - 1);
      AttachIds(client, rank, newId, init, bound, next, x);
      var before := Attach(client, rank, newId, init, bound, next);
      var b := raw[|raw| - 1];
      if HasId(b) {
        var sub := Fetch(client, rank, newId, b.id.value, before.next);
        var b' := b.(children := Present(sub.blocks));
        FetchIds(client, rank, newId, b.id.value, before.next, x);
        assert IdCountOf(x, b') == IdCount(x, sub.blocks);
        LastCount(x, before.blocks, b');
        DrawnSplit(newId, x, next, before.next, sub.next);
      } else {
        assert IdCountOf(x, b) == 0;
        LastCount(x, before.blocks, b);
      }
    }
  }

  lemma LastCount(x: string, init: seq<Block>, b: Block)
    ensures IdCount(x, init + [b]) == IdCount(x, init) + IdCountOf(x, b)
  {
    IdCountAppend(x, init, [b]);
    assert [b][1..] == [];
  }

  /** When the generator never repeats an id, no two containers anywhere in a fetched tree share an id. */
  lemma FetchIdsDistinct(client: ListRequest -> seq<Block>, rank: string -> nat,
                         newId: nat -> string, id: string, next: nat)
    requires Ranked(client, rank) && Paged(client) && Injective(newId)
    ensures var r := Fetch(client, rank, newId, id, next);
            forall x :: IdCount(x, r.blocks) <= 1
  {
    var r := Fetch(client, rank, newId, id, next);
    forall x ensures IdCount(x, r.blocks) <= 1 {
      FetchIds(client, rank, newId, id, next, x);
      DrawnOnce(newId, x, next, r.next);
    }
  }

  /** Every container id in a fetched tree is `newId(k)` for a counter value `k` the fetch used. */
  lemma FetchIdsDrawn(client: ListRequest -> seq<Block>, rank: string -> nat,
                      newId: nat -> string, id: string, next: nat, x: string)
    requires Ranked(client, rank) && Paged(client)
    requires IdCount(x, Fetch(client, rank, newId, id, next).blocks) > 0
    ensures exists k: nat :: next <= k < Fetch(client, rank, newId, id, next).next && newId(k) == x
  {
    var r := Fetch(client, rank, newId, id, next);
    FetchIds(client, rank, newId, id, next, x);
    DrawnFrom(newId, x, next, r.next);
  }

  /**
    `getBlocks` step by step: list the page, fetch the children of every block with an
    id, one after the other, then group the page with the accumulator pass.
   */
  method GetBlocks(client: ListRequest -> seq<Block>, rank: string -> nat, newId: nat -> string,
                   blockId: string, next: nat) returns (blocks: seq<Block>, used: nat)
    requires Ranked(client, rank) && Paged(client)
    ensures Fetched(blocks, used) == Fetch(client, rank, newId, blockId, next)
    decreases rank(Canonical(blockId))
  {
    var results := client(Request(blockId));
    ghost var bound := rank(Canonical(blockId));
    var childBlocks: seq<Block> := [];
    var n := next;
    for i := 0 to |results|
      invariant RankedBelow(results[..i], rank, bound)
      invariant Fetched(childBlocks, n) == Attach(client, rank, newId, results[..i], bound, next)
    {
      var block := results[i];
      assert results[..i + 1][..i] == results[..i];
      RankedPrefix(results, rank, bound, i + 1);
      if HasId(block) {
        var children, n' := GetBlocks(client, rank, newId, block.id.value, n);
        childBlocks := childBlocks + [block.(children := Present(children))];
        n := n';
      } else {
        childBlocks := childBlocks + [block];
      }
    }
    assert results[..|results|] == results;
    assert forall i :: 0 <= i < |results| ==> Plain(results[i]);
    PlainKept(results, childBlocks);
    var grouped, runs := GroupSiblings(childBlocks, newId, n);
    blocks, used := grouped, n + runs;
  }
}
