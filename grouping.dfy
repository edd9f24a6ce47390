/**
  The list grouper: one sibling sequence, in one left-to-right pass, turned into
  the sequence the renderer expects, where each maximal run of bulleted (numbered)
  list items sits inside one synthetic `bulleted_list` (`numbered_list`) container.

  `Group` says what the result is, run by run; `GroupSiblings` is the pass itself,
  an accumulator grown block by block, and is proved to compute `Group`.

  Synthetic ids come from a generator `newId` and a counter: the containers of one
  call get `newId(next)`, `newId(next + 1)`, ... in the order they are created.
 */
module Grouping {
  import opened Options
  import opened Blocks

  /** Length of the longest prefix of `s` whose blocks all have type `t`. */
  function RunLength(s: seq<Block>, t: Kind): (n: nat)
    ensures n <= |s|
  {
    if s == [] || s[0].kind != t then 0 else 1 + RunLength(s[1..], t)
  }

  /** The run is the longest prefix of type `t`: every block in it has type `t`, the next does not. */
  lemma {:induction false} RunLengthMaximal(s: seq<Block>, t: Kind)
    ensures forall i :: 0 <= i < RunLength(s, t) ==> s[i].kind == t
    ensures RunLength(s, t) < |s| ==> s[RunLength(s, t)].kind != t
  {
    if s != [] && s[0].kind == t {
      RunLengthMaximal(s[1..], t);
    }
  }

  /** The facts of `RunLengthMaximal` pin the run length down. */
  lemma {:induction false} RunLengthUnique(s: seq<Block>, t: Kind, n: nat)
    requires n <= |s|
    requires forall i :: 0 <= i < n ==> s[i].kind == t
    requires n < |s| ==> s[n].kind != t
    ensures RunLength(s, t) == n
  {
    if n > 0 {
      RunLengthUnique(s[1..], t, n - 1);
    }
  }

  /**
    The grouped form of `s`: every maximal run of list items of one kind becomes one
    container holding the run, and every other block is kept as it is.
   */
  function Group(s: seq<Block>, newId: nat -> string, next: nat): seq<Block>
    decreases |s|
  {
    if s == [] then []
    else if IsListItem(s[0]) then
      var n := RunLength(s, s[0].kind);
      [Container(ContainerOf(s[0].kind), newId(next), s[..n])] + Group(s[n..], newId, next + 1)
    else
      [s[0]] + Group(s[1..], newId, next)
  }

  /** The number of maximal runs of list items in `s`: the containers `Group` creates. */
  function Runs(s: seq<Block>): nat
    decreases |s|
  {
    if s == [] then 0
    else if IsListItem(s[0]) then 1 + Runs(s[RunLength(s, s[0].kind)..])
    else Runs(s[1..])
  }

  /** A block as it stood before grouping: a container gives back its items. */
  function Expand(b: Block): seq<Block> {
    if IsContainer(b) && b.payload.Items? then b.payload.children else [b]
  }

  /** Every container replaced by its payload `children`. */
  function Flatten(bs: seq<Block>): seq<Block> {
    if bs == [] then [] else Expand(bs[0]) + Flatten(bs[1..])
  }

  /** The blocks that are neither list items nor containers, in their order. */
  function Others(s: seq<Block>): seq<Block> {
    if s == [] then []
    else if IsListItem(s[0]) || IsContainer(s[0]) then Others(s[1..])
    else [s[0]] + Others(s[1..])
  }

  /** The ids of the containers of `s`, in order. */
  function ContainerIds(s: seq<Block>): seq<Option<string>> {
    if s == [] then []
    else if IsContainer(s[0]) then [s[0].id] + ContainerIds(s[1..])
    else ContainerIds(s[1..])
  }

  /** `newId(next)`, ..., `newId(next + count - 1)`, as block ids. */
  function NewIds(newId: nat -> string, next: nat, count: nat): (ids: seq<Option<string>>)
    ensures |ids| == count
    ensures forall i :: 0 <= i < count ==> ids[i] == Some(newId(next + i))
    decreases count
  {
    if count == 0 then [] else [Some(newId(next))] + NewIds(newId, next + 1, count - 1)
  }

  /** A container as the grouper builds it: a non-empty payload of items of its own kind. */
  predicate WellFormedList(b: Block)
    requires IsContainer(b)
  {
    && b.payload.Items?
    && b.payload.children != []
    && forall j :: 0 <= j < |b.payload.children| ==> b.payload.children[j].kind == ItemOf(b.kind)
  }

  /** No two neighbours are containers of the same kind. */
  predicate NoAdjacentLists(s: seq<Block>) {
    forall i :: 0 <= i < |s| - 1 ==> !(IsContainer(s[i]) && s[i].kind == s[i + 1].kind)
  }

  /** The invariants of one grouped sibling sequence. */
  predicate Grouped(s: seq<Block>) {
    && NoListItems(s)
    && NoAdjacentLists(s)
    && forall i :: 0 <= i < |s| && IsContainer(s[i]) ==> WellFormedList(s[i])
  }

  /** The first block of the grouped sequence: the first block itself, or the container of its run. */
  lemma GroupHead(s: seq<Block>, newId: nat -> string, next: nat)
    requires s != []
    ensures Group(s, newId, next) != []
    ensures Group(s, newId, next)[0].kind
         == if IsListItem(s[0]) then ContainerOf(s[0].kind) else s[0].kind
  {
  }

  /**
    Round trip: replacing every container by its items gives the input back, so every
    list item appears exactly once, in input order.
   */
  lemma {:induction false} GroupFlattens(s: seq<Block>, newId: nat -> string, next: nat)
    requires NoContainers(s)
    ensures Flatten(Group(s, newId, next)) == s
    decreases |s|
  {
    if s == [] {
    } else if IsListItem(s[0]) {
      var n := RunLength(s, s[0].kind);
      var c := Container(ContainerOf(s[0].kind), newId(next), s[..n]);
      var rest := Group(s[n..], newId, next + 1);
      assert Group(s, newId, next) == [c] + rest;
      calc {
        Flatten([c] + rest);
        { FlattenCons(c, rest); }
        Expand(c) + Flatten(rest);
        { GroupFlattens(s[n..], newId, next + 1); }
        s[..n] + s[n..];
        s;
      }
    } else {
      var rest := Group(s[1..], newId, next);
      assert Group(s, newId, next) == [s[0]] + rest;
      calc {
        Flatten([s[0]] + rest);
        { FlattenCons(s[0], rest); }
        Expand(s[0]) + Flatten(rest);
        { GroupFlattens(s[1..], newId, next); }
        [s[0]] + s[1..];
        s;
      }
    }
  }

  lemma FlattenCons(x: Block, r: seq<Block>)
    ensures Flatten([x] + r) == Expand(x) + Flatten(r)
  {
    assert ([x] + r)[1..] == r;
  }

  /** No list item is left at the top level of the grouped sequence. */
  lemma {:induction false} GroupHasNoListItems(s: seq<Block>, newId: nat -> string, next: nat)
    ensures NoListItems(Group(s, newId, next))
    decreases |s|
  {
    if s == [] {
    } else if IsListItem(s[0]) {
      var n := RunLength(s, s[0].kind);
      GroupHasNoListItems(s[n..], newId, next + 1);
    } else {
      GroupHasNoListItems(s[1..], newId, next);
    }
  }

  /** No two neighbouring containers are of the same kind: every run collapsed into one. */
  lemma {:induction false} GroupNoAdjacentLists(s: seq<Block>, newId: nat -> string, next: nat)
    requires NoContainers(s)
    ensures NoAdjacentLists(Group(s, newId, next))
    decreases |s|
  {
    if s == [] {
    } else if IsListItem(s[0]) {
      var n := RunLength(s, s[0].kind);
      RunLengthMaximal(s, s[0].kind);
      var rest := Group(s[n..], newId, next + 1);
      GroupNoAdjacentLists(s[n..], newId, next + 1);
      if n < |s| {
        GroupHead(s[n..], newId, next + 1);
        assert s[n..][0] == s[n];
        assert rest[0].kind != ContainerOf(s[0].kind);
      }
    } else {
      var rest := Group(s[1..], newId, next);
      GroupNoAdjacentLists(s[1..], newId, next);
    }
  }

  /** Every container of the grouped sequence is a non-empty run of items of its own kind. */
  lemma {:induction false} GroupListsWellFormed(s: seq<Block>, newId: nat -> string, next: nat)
    requires NoContainers(s)
    ensures forall i :: 0 <= i < |Group(s, newId, next)| && IsContainer(Group(s, newId, next)[i])
              ==> WellFormedList(Group(s, newId, next)[i])
    decreases |s|
  {
    if s == [] {
    } else if IsListItem(s[0]) {
      var n := RunLength(s, s[0].kind);
      RunLengthMaximal(s, s[0].kind);
      GroupListsWellFormed(s[n..], newId, next + 1);
    } else {
      GroupListsWellFormed(s[1..], newId, next);
    }
  }

  /** The grouped sequence has all the invariants of a grouped sibling sequence. */
  lemma GroupIsGrouped(s: seq<Block>, newId: nat -> string, next: nat)
    requires NoContainers(s)
    ensures Grouped(Group(s, newId, next))
  {
    GroupHasNoListItems(s, newId, next);
    GroupNoAdjacentLists(s, newId, next);
    GroupListsWellFormed(s, newId, next);
  }

  lemma {:induction false} OthersSkipRun(s: seq<Block>, n: nat)
    requires n <= |s|
    requires forall i :: 0 <= i < n ==> IsListItem(s[i])
    ensures Others(s) == Others(s[n..])
    decreases n
  {
    if n > 0 {
      OthersSkipRun(s[1..], n - 1);
      assert s[1..][n - 1..] == s[n..];
    }
  }

  /**
    Blocks that are neither list items nor containers are copied verbatim and keep their
    relative order.
   */
  lemma {:induction false} GroupKeepsOthers(s: seq<Block>, newId: nat -> string, next: nat)
    ensures Others(Group(s, newId, next)) == Others(s)
    decreases |s|
  {
    if s == [] {
    } else if IsListItem(s[0]) {
      var n := RunLength(s, s[0].kind);
      RunLengthMaximal(s, s[0].kind);
      var c := Container(ContainerOf(s[0].kind), newId(next), s[..n]);
      var rest := Group(s[n..], newId, next + 1);
      GroupKeepsOthers(s[n..], newId, next + 1);
      assert ([c] + rest)[1..] == rest;
      OthersSkipRun(s, n);
    } else {
      var rest := Group(s[1..], newId, next);
      GroupKeepsOthers(s[1..], newId, next);
      assert ([s[0]] + rest)[1..] == rest;
    }
  }

  /** A sequence without list items is left exactly as it is, and no id is drawn. */
  lemma {:induction false} GroupWithoutItems(s: seq<Block>, newId: nat -> string, next: nat)
    requires NoListItems(s)
    ensures Group(s, newId, next) == s
    ensures Runs(s) == 0
    decreases |s|
  {
    if s != [] {
      GroupWithoutItems(s[1..], newId, next);
      assert [s[0]] + s[1..] == s;
    }
  }

  /** Grouping is idempotent: a grouped sequence is grouped again into itself. */
  lemma {:induction false} GroupIdempotent(s: seq<Block>, newId: nat -> string, next: nat, next': nat)
    ensures Group(Group(s, newId, next), newId, next') == Group(s, newId, next)
    ensures Runs(Group(s, newId, next)) == 0
  {
    GroupHasNoListItems(s, newId, next);
    GroupWithoutItems(Group(s, newId, next), newId, next');
  }

  /** The containers carry the ids `newId(next)`, ..., one per run, in order. */
  lemma {:induction false} GroupNewIds(s: seq<Block>, newId: nat -> string, next: nat)
    requires NoContainers(s)
    ensures ContainerIds(Group(s, newId, next)) == NewIds(newId, next, Runs(s))
    decreases |s|
  {
    if s == [] {
    } else if IsListItem(s[0]) {
      var n := RunLength(s, s[0].kind);
      var c := Container(ContainerOf(s[0].kind), newId(next), s[..n]);
      var rest := Group(s[n..], newId, next + 1);
      GroupNewIds(s[n..], newId, next + 1);
      assert ([c] + rest)[1..] == rest;
    } else {
      var rest := Group(s[1..], newId, next);
      GroupNewIds(s[1..], newId, next);
      assert ([s[0]] + rest)[1..] == rest;
    }
  }

  /** How often `x` is the id of a container in `bs`, at every depth: under `children` and inside containers. */
  function IdCount(x: string, bs: seq<Block>): nat
    decreases bs
  {
    if bs == [] then 0 else IdCountOf(x, bs[0]) + IdCount(x, bs[1..])
  }

  function IdCountOf(x: string, b: Block): nat
    decreases b
  {
    (if IsContainer(b) && b.id == Some(x) then 1 else 0)
    + (if b.children.Present? then IdCount(x, b.children.blocks) else 0)
    + (if b.payload.Items? then IdCount(x, b.payload.children) else 0)
  }

  /** How often `x` is among the ids drawn with counter values `lo` up to, not including, `hi`. */
  function DrawnCount(newId: nat -> string, x: string, lo: nat, hi: nat): nat
    decreases hi - lo
  {
    if hi <= lo then 0 else (if newId(lo) == x then 1 else 0) + DrawnCount(newId, x, lo + 1, hi)
  }

  /** A generator that never gives the same id for two counter values. */
  ghost predicate Injective(newId: nat -> string) {
    forall j: nat, k: nat :: newId(j) == newId(k) ==> j == k
  }

  lemma {:induction false} IdCountAppend(x: string, a: seq<Block>, b: seq<Block>)
    ensures IdCount(x, a + b) == IdCount(x, a) + IdCount(x, b)
    decreases |a|
  {
    if a == [] {
      assert a + b == b;
    } else {
      assert (a + b)[0] == a[0];
      assert (a + b)[1..] == a[1..] + b;
      IdCountAppend(x, a[1..], b);
    }
  }

  lemma IdCountCons(x: string, b: Block, r: seq<Block>)
    ensures IdCount(x, [b] + r) == IdCountOf(x, b) + IdCount(x, r)
  {
    assert ([b] + r)[0] == b && ([b] + r)[1..] == r;
  }

  lemma {:induction false} DrawnSplit(newId: nat -> string, x: string, lo: nat, mid: nat, hi: nat)
    requires lo <= mid <= hi
    ensures DrawnCount(newId, x, lo, hi) == DrawnCount(newId, x, lo, mid) + DrawnCount(newId, x, mid, hi)
    decreases mid - lo
  {
    if lo < mid {
      DrawnSplit(newId, x, lo + 1, mid, hi);
    }
  }

  /** Only drawn ids are counted: an id drawn at all was drawn with some counter value in range. */
  lemma {:induction false} DrawnFrom(newId: nat -> string, x: string, lo: nat, hi: nat)
    requires DrawnCount(newId, x, lo, hi) > 0
    ensures exists k: nat :: lo <= k < hi && newId(k) == x
    decreases hi - lo
  {
    if newId(lo) != x {
      DrawnFrom(newId, x, lo + 1, hi);
    }
  }

  /** An injective generator draws every id at most once. */
  lemma {:induction false} DrawnOnce(newId: nat -> string, x: string, lo: nat, hi: nat)
    requires Injective(newId)
    ensures DrawnCount(newId, x, lo, hi) <= 1
    decreases hi - lo
  {
    if lo < hi {
      DrawnOnce(newId, x, lo + 1, hi);
      if DrawnCount(newId, x, lo + 1, hi) > 0 {
        DrawnFrom(newId, x, lo + 1, hi);
        var k: nat :| lo + 1 <= k < hi && newId(k) == x;
        assert newId(lo) != newId(k);
      }
    }
  }

  /**
    Grouping adds exactly the ids it draws: the containers' ids at every depth are
    those of the input and `newId(next)`, ..., `newId(next + Runs(s) - 1)`.
   */
  lemma {:induction false} GroupIds(s: seq<Block>, newId: nat -> string, next: nat, x: string)
    ensures IdCount(x, Group(s, newId, next)) == IdCount(x, s) + DrawnCount(newId, x, next, next + Runs(s))
    decreases |s|, 1
  {
    if s == [] {
    } else if IsListItem(s[0]) {
      GroupIdsRun(s, newId, next, x);
    } else {
      GroupIdsOther(s, newId, next, x);
    }
  }

  /** `GroupIds` when the input starts with a run. */
  lemma {:induction false} GroupIdsRun(s: seq<Block>, newId: nat -> string, next: nat, x: string)
    requires s != [] && IsListItem(s[0])
    ensures IdCount(x, Group(s, newId, next)) == IdCount(x, s) + DrawnCount(newId, x, next, next + Runs(s))
    decreases |s|, 0
  {
    var n := RunLength(s, s[0].kind);
    RunLengthMaximal(s, s[0].kind);
    var c := Container(ContainerOf(s[0].kind), newId(next), s[..n]);
    var rest := Group(s[n..], newId, next + 1);
    var later := DrawnCount(newId, x, next + 1, next + 1 + Runs(s[n..]));
    assert Group(s, newId, next) == [c] + rest;
    assert Runs(s) == 1 + Runs(s[n..]);
    ContainerCount(x, ContainerOf(s[0].kind), newId(next), s[..n]);
    GroupIds(s[n..], newId, next + 1, x);
    RunCount(x, c, rest, s[..n], s[n..], if newId(next) == x then 1 else 0, later);
    assert s[..n] + s[n..] == s;
  }

  lemma ContainerCount(x: string, list: Kind, id: string, items: seq<Block>)
    requires list == BulletedList || list == NumberedList
    ensures IdCountOf(x, Container(list, id, items)) == (if id == x then 1 else 0) + IdCount(x, items)
  {
  }

  lemma RunCount(x: string, c: Block, rest: seq<Block>, items: seq<Block>, tail: seq<Block>, here: nat, later: nat)
    requires IdCountOf(x, c) == here + IdCount(x, items)
    requires IdCount(x, rest) == IdCount(x, tail) + later
    ensures IdCount(x, [c] + rest) == IdCount(x, items + tail) + (here + later)
  {
    IdCountCons(x, c, rest);
    IdCountAppend(x, items, tail);
  }

  /** `GroupIds` when the input starts with a block outside any run. */
  lemma {:induction false} GroupIdsOther(s: seq<Block>, newId: nat -> string, next: nat, x: string)
    requires s != [] && !IsListItem(s[0])
    ensures IdCount(x, Group(s, newId, next)) == IdCount(x, s) + DrawnCount(newId, x, next, next + Runs(s))
    decreases |s|, 0
  {
    var rest := Group(s[1..], newId, next);
    assert Group(s, newId, next) == [s[0]] + rest;
    assert Runs(s) == Runs(s[1..]);
    IdCountCons(x, s[0], rest);
    GroupIds(s[1..], newId, next, x);
  }

  /** Grouping never lengthens a sequence: each container stands for at least one item. */
  lemma {:induction false} GroupNoLonger(s: seq<Block>, newId: nat -> string, next: nat)
    ensures |Group(s, newId, next)| <= |s|
    decreases |s|
  {
    if s == [] {
    } else if IsListItem(s[0]) {
      var n := RunLength(s, s[0].kind);
      RunLengthMaximal(s, s[0].kind);
      GroupNoLonger(s[n..], newId, next + 1);
    } else {
      GroupNoLonger(s[1..], newId, next);
    }
  }

  /**
    Where the blocks of the grouped sequence come from: each is a block of `s`, or a
    fresh container without `children` whose items are blocks of `s`.
   */
  lemma {:induction false} GroupDrawsFrom(s: seq<Block>, newId: nat -> string, next: nat)
    ensures forall i :: 0 <= i < |Group(s, newId, next)| ==>
              var b := Group(s, newId, next)[i];
              b in s || (IsContainer(b) && b.children.Absent? && b.payload.Items?
                         && forall j :: 0 <= j < |b.payload.children| ==> b.payload.children[j] in s)
    decreases |s|
  {
    if s == [] {
    } else if IsListItem(s[0]) {
      var n := RunLength(s, s[0].kind);
      GroupDrawsFrom(s[n..], newId, next + 1);
      forall x | x in s[n..] ensures x in s { }
      forall x | x in s[..n] ensures x in s { }
    } else {
      GroupDrawsFrom(s[1..], newId, next);
      forall x | x in s[1..] ensures x in s { }
    }
  }

  /** `acc[last][type].children?.push(item)`: the item joins the container's payload. */
  function AddItem(c: Block, item: Block): Block {
    if c.payload.Items? then c.(payload := Items(c.payload.children + [item])) else c
  }

  /** The last block of the grouped sequence `g` is a container of the kind that item `b` joins. */
  predicate Joins(g: seq<Block>, b: Block) {
    IsListItem(b) && g != [] && g[|g| - 1].kind == ContainerOf(b.kind)
  }

  /** Appending to an input that starts with a run that is not its whole: the run is unaffected. */
  lemma GroupAppendAfterRun(s: seq<Block>, b: Block, newId: nat -> string, next: nat)
    requires s != [] && IsListItem(s[0]) && RunLength(s, s[0].kind) < |s|
    ensures var m := RunLength(s, s[0].kind);
            && Group(s + [b], newId, next)
               == [Container(ContainerOf(s[0].kind), newId(next), s[..m])] + Group(s[m..] + [b], newId, next + 1)
            && Runs(s + [b]) == 1 + Runs(s[m..] + [b])
  {
    var m := RunLength(s, s[0].kind);
    RunLengthMaximal(s, s[0].kind);
    assert (s + [b])[0] == s[0];
    RunLengthUnique(s + [b], s[0].kind, m);
    assert (s + [b])[..m] == s[..m];
    assert (s + [b])[m..] == s[m..] + [b];
  }

  /** Appending to an input that starts with a block outside any run. */
  lemma GroupAppendAfterOther(s: seq<Block>, b: Block, newId: nat -> string, next: nat)
    requires s != [] && !IsListItem(s[0])
    ensures Group(s + [b], newId, next) == [s[0]] + Group(s[1..] + [b], newId, next)
    ensures Runs(s + [b]) == Runs(s[1..] + [b])
  {
    assert (s + [b])[0] == s[0];
    assert (s + [b])[1..] == s[1..] + [b];
  }

  /** Appending to an input that is one single run. */
  lemma GroupAppendToWholeRun(s: seq<Block>, b: Block, newId: nat -> string, next: nat)
    requires s != [] && IsListItem(s[0]) && RunLength(s, s[0].kind) == |s|
    ensures Group(s, newId, next) == [Container(ContainerOf(s[0].kind), newId(next), s)]
    ensures Runs(s) == 1
    ensures b.kind == s[0].kind ==>
              && Group(s + [b], newId, next) == [Container(ContainerOf(s[0].kind), newId(next), s + [b])]
              && Runs(s + [b]) == 1
    ensures b.kind != s[0].kind ==>
              && Group(s + [b], newId, next)
                 == [Container(ContainerOf(s[0].kind), newId(next), s)] + Group([b], newId, next + 1)
              && Runs(s + [b]) == 1 + Runs([b])
  {
    var t := s[0].kind;
    RunLengthMaximal(s, t);
    assert s[..|s|] == s && s[|s|..] == [];
    assert (s + [b])[0] == s[0];
    if b.kind == t {
      RunLengthUnique(s + [b], t, |s| + 1);
      assert (s + [b])[..|s| + 1] == s + [b];
      assert (s + [b])[|s| + 1..] == [];
    } else {
      RunLengthUnique(s + [b], t, |s|);
      assert (s + [b])[..|s|] == s;
      assert (s + [b])[|s|..] == [b];
    }
  }

  /** The grouped form of one block. */
  lemma GroupSingle(b: Block, newId: nat -> string, next: nat)
    ensures Group([b], newId, next)
            == if IsListItem(b) then [Container(ContainerOf(b.kind), newId(next), [b])] else [b]
    ensures Runs([b]) == if IsListItem(b) then 1 else 0
  {
    assert [b][1..] == [];
    if IsListItem(b) {
      RunLengthUnique([b], b.kind, 1);
      assert [b][..1] == [b];
    }
  }

  /** Appending a block that is not a list item appends it to the grouped sequence. */
  lemma {:induction false} GroupAppendOther(s: seq<Block>, b: Block, newId: nat -> string, next: nat)
    requires !IsListItem(b)
    ensures Group(s + [b], newId, next) == Group(s, newId, next) + [b]
    ensures Runs(s + [b]) == Runs(s)
    decreases |s|
  {
    if s == [] {
      assert s + [b] == [b];
      GroupSingle(b, newId, next);
    } else if IsListItem(s[0]) {
      var m := RunLength(s, s[0].kind);
      if m < |s| {
        GroupAppendAfterRun(s, b, newId, next);
        GroupAppendOther(s[m..], b, newId, next + 1);
      } else {
        GroupAppendToWholeRun(s, b, newId, next);
        GroupSingle(b, newId, next + 1);
      }
    } else {
      GroupAppendAfterOther(s, b, newId, next);
      GroupAppendOther(s[1..], b, newId, next);
    }
  }

  /** Dropping the first block of the grouped sequence keeps its last block and the rest before it. */
  lemma ConsLast(x: Block, g: seq<Block>, y: Block)
    requires g != []
    ensures ([x] + g)[|[x] + g| - 1] == g[|g| - 1]
    ensures ([x] + g)[..|[x] + g| - 1] == [x] + g[..|g| - 1]
    ensures [x] + (g[..|g| - 1] + [y]) == ([x] + g)[..|[x] + g| - 1] + [y]
  {
  }

  lemma ConsSnoc(x: Block, g: seq<Block>, y: Block)
    ensures [x] + (g + [y]) == ([x] + g) + [y]
  {
  }

  /** Appending a list item whose kind matches the last container: the item joins that container. */
  lemma {:induction false} GroupAppendJoin(s: seq<Block>, b: Block, newId: nat -> string, next: nat)
    requires NoContainers(s) && Joins(Group(s, newId, next), b)
    ensures var g := Group(s, newId, next);
            Group(s + [b], newId, next) == g[..|g| - 1] + [AddItem(g[|g| - 1], b)]
    ensures Runs(s + [b]) == Runs(s)
    decreases |s|
  {
    if IsListItem(s[0]) {
      var m := RunLength(s, s[0].kind);
      if m < |s| {
        GroupAppendAfterRun(s, b, newId, next);
        GroupHead(s[m..], newId, next + 1);
        var g' := Group(s[m..], newId, next + 1);
        GroupAppendJoin(s[m..], b, newId, next + 1);
        ConsLast(Container(ContainerOf(s[0].kind), newId(next), s[..m]), g', AddItem(g'[|g'| - 1], b));
      } else {
        GroupAppendToWholeRun(s, b, newId, next);
      }
    } else {
      var g' := Group(s[1..], newId, next);
      GroupAppendAfterOther(s, b, newId, next);
      assert !IsContainer(s[0]);
      GroupAppendJoin(s[1..], b, newId, next);
      ConsLast(s[0], g', AddItem(g'[|g'| - 1], b));
    }
  }

  /** Appending a list item that the last block cannot take: it opens a new container. */
  lemma {:induction false} GroupAppendOpen(s: seq<Block>, b: Block, newId: nat -> string, next: nat)
    requires NoContainers(s) && IsListItem(b) && !Joins(Group(s, newId, next), b)
    ensures Group(s + [b], newId, next)
            == Group(s, newId, next) + [Container(ContainerOf(b.kind), newId(next + Runs(s)), [b])]
    ensures Runs(s + [b]) == Runs(s) + 1
    decreases |s|, 1
  {
    if s == [] {
      assert s + [b] == [b];
      GroupSingle(b, newId, next);
    } else if IsListItem(s[0]) && RunLength(s, s[0].kind) < |s| {
      GroupAppendOpenAfterRun(s, b, newId, next);
    } else if IsListItem(s[0]) {
      GroupAppendOpenAfterWholeRun(s, b, newId, next);
    } else {
      GroupAppendOpenAfterOther(s, b, newId, next);
    }
  }

  /** `GroupAppendOpen` when the input starts with a run that is not all of it. */
  lemma {:induction false} GroupAppendOpenAfterRun(s: seq<Block>, b: Block, newId: nat -> string, next: nat)
    requires NoContainers(s) && IsListItem(b) && !Joins(Group(s, newId, next), b)
    requires s != [] && IsListItem(s[0]) && RunLength(s, s[0].kind) < |s|
    ensures Group(s + [b], newId, next)
            == Group(s, newId, next) + [Container(ContainerOf(b.kind), newId(next + Runs(s)), [b])]
    ensures Runs(s + [b]) == Runs(s) + 1
    decreases |s|, 0
  {
    var m := RunLength(s, s[0].kind);
    var c := Container(ContainerOf(s[0].kind), newId(next), s[..m]);
    var g' := Group(s[m..], newId, next + 1);
    var d := Container(ContainerOf(b.kind), newId(next + Runs(s)), [b]);
    assert Group(s, newId, next) == [c] + g';
    assert Runs(s) == 1 + Runs(s[m..]);
    assert d == Container(ContainerOf(b.kind), newId(next + 1 + Runs(s[m..])), [b]);
    GroupHead(s[m..], newId, next + 1);
    ConsLast(c, g', b);
    GroupAppendOpen(s[m..], b, newId, next + 1);
    calc {
      Group(s + [b], newId, next);
      { GroupAppendAfterRun(s, b, newId, next); }
      [c] + Group(s[m..] + [b], newId, next + 1);
      [c] + (g' + [d]);
      { ConsSnoc(c, g', d); }
      ([c] + g') + [d];
      Group(s, newId, next) + [d];
    }
    GroupAppendAfterRun(s, b, newId, next);
  }

  /** `GroupAppendOpen` when the input is one single run. */
  lemma GroupAppendOpenAfterWholeRun(s: seq<Block>, b: Block, newId: nat -> string, next: nat)
    requires NoContainers(s) && IsListItem(b) && !Joins(Group(s, newId, next), b)
    requires s != [] && IsListItem(s[0]) && RunLength(s, s[0].kind) == |s|
    ensures Group(s + [b], newId, next)
            == Group(s, newId, next) + [Container(ContainerOf(b.kind), newId(next + Runs(s)), [b])]
    ensures Runs(s + [b]) == Runs(s) + 1
  {
    GroupAppendToWholeRun(s, b, newId, next);
    GroupSingle(b, newId, next + 1);
  }

  /** `GroupAppendOpen` when the input starts with a block outside any run. */
  lemma {:induction false} GroupAppendOpenAfterOther(s: seq<Block>, b: Block, newId: nat -> string, next: nat)
    requires NoContainers(s) && IsListItem(b) && !Joins(Group(s, newId, next), b)
    requires s != [] && !IsListItem(s[0])
    ensures Group(s + [b], newId, next)
            == Group(s, newId, next) + [Container(ContainerOf(b.kind), newId(next + Runs(s)), [b])]
    ensures Runs(s + [b]) == Runs(s) + 1
    decreases |s|, 0
  {
    var g' := Group(s[1..], newId, next);
    var c := Container(ContainerOf(b.kind), newId(next + Runs(s[1..])), [b]);
    assert Runs(s) == Runs(s[1..]);
    if g' != [] {
      ConsLast(s[0], g', b);
    }
    GroupAppendOpen(s[1..], b, newId, next);
    assert Group(s[1..] + [b], newId, next) == g' + [c];
    calc {
      Group(s + [b], newId, next);
      { GroupAppendAfterOther(s, b, newId, next); }
      [s[0]] + Group(s[1..] + [b], newId, next);
      [s[0]] + (g' + [c]);
      { ConsSnoc(s[0], g', c); }
      ([s[0]] + g') + [c];
      Group(s, newId, next) + [c];
    }
    GroupAppendAfterOther(s, b, newId, next);
  }

  /**
    The source's `reduce` over the sibling sequence: an accumulator grown by one block
    at a time, where a list item joins the last container when that container is of its
    kind, and otherwise opens a new container. Returns the grouped sequence and how many
    fresh ids it drew. The result has no list items, and an input without list items
    comes back as it is, so the pass run again over its own result changes nothing and
    draws no id. An input holding both containers and list items is left out: there the
    source pushes items into the payload of a container it did not create.
   */
  method GroupSiblings(blocks: seq<Block>, newId: nat -> string, next: nat) returns (acc: seq<Block>, used: nat)
    requires NoContainers(blocks) || NoListItems(blocks)
    ensures acc == Group(blocks, newId, next)
    ensures used == Runs(blocks)
    ensures NoListItems(acc)
    ensures NoListItems(blocks) ==> acc == blocks && used == 0
  {
    acc, used := [], 0;
    for i := 0 to |blocks|
      invariant acc == Group(blocks[..i], newId, next)
      invariant used == Runs(blocks[..i])
    {
      var curr := blocks[i];
      ghost var done := blocks[..i];
      assert blocks[..i + 1] == done + [curr];
      if IsListItem(curr) {
        assert NoContainers(done);
        // bulleted_list_item and numbered_list_item take the same path, each with its own list type
        var list := ContainerOf(curr.kind);
        if acc != [] && acc[|acc| - 1].kind == list {
          GroupAppendJoin(done, curr, newId, next);
          acc := acc[..|acc| - 1] + [AddItem(acc[|acc| - 1], curr)];
        } else {
          GroupAppendOpen(done, curr, newId, next);
          acc := acc + [Container(list, newId(next + used), [curr])];
          used := used + 1;
        }
      } else {
        GroupAppendOther(done, curr, newId, next);
        acc := acc + [curr];
      }
    }
    assert blocks[..|blocks|] == blocks;
    GroupHasNoListItems(blocks, newId, next);
    if NoListItems(blocks) {
      GroupWithoutItems(blocks, newId, next);
    }
  }
}
