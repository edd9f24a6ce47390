/** Block-id canonicalisation: `blockId.replaceAll("-", "")` before the client is called. */
module BlockIds {

  const Separator: char := '-'

  /** The id with every separator removed. */
  function Canonical(id: string): (r: string)
    ensures Separator !in r
    ensures |r| <= |id|
  {
    if id == [] then []
    else if id[0] == Separator then Canonical(id[1..])
    else [id[0]] + Canonical(id[1..])
  }

  /** An id without separators is already canonical. */
  lemma {:induction false} CanonicalOfPlain(id: string)
    requires Separator !in id
    ensures Canonical(id) == id
  {
    if id != [] {
      assert Separator !in id[1..] by {
        forall k | 0 <= k < |id[1..]| ensures id[1..][k] != Separator {
          assert id[1..][k] == id[k + 1];
        }
      }
      CanonicalOfPlain(id[1..]);
    }
  }

  /** Canonicalising twice is canonicalising once. */
  lemma {:induction false} CanonicalIdempotent(id: string)
    ensures Canonical(Canonical(id)) == Canonical(id)
  {
    CanonicalOfPlain(Canonical(id));
  }

  /** Canonicalisation works piece by piece, so the kept characters stay in their order. */
  lemma {:induction false} CanonicalAppend(a: string, b: string)
    ensures Canonical(a + b) == Canonical(a) + Canonical(b)
  {
    if a == [] {
      assert a + b == b;
    } else {
      assert (a + b)[0] == a[0];
      assert (a + b)[1..] == a[1..] + b;
      CanonicalAppend(a[1..], b);
    }
  }

  /** Every character other than the separator is kept, as often as it occurs. */
  lemma {:induction false} CanonicalKeeps(id: string, c: char)
    requires c != Separator
    ensures multiset(Canonical(id))[c] == multiset(id)[c]
  {
    if id != [] {
      CanonicalKeeps(id[1..], c);
      assert id == [id[0]] + id[1..];
      assert multiset(id) == multiset([id[0]]) + multiset(id[1..]);
    }
  }

  /** Only separators are dropped: the result is exactly as long as the non-separator part. */
  lemma {:induction false} CanonicalDropsSeparators(id: string)
    ensures |Canonical(id)| == |id| - multiset(id)[Separator]
  {
    if id != [] {
      CanonicalDropsSeparators(id[1..]);
      assert id == [id[0]] + id[1..];
      assert multiset(id) == multiset([id[0]]) + multiset(id[1..]);
    }
  }
}
