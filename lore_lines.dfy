/**
 * List.removeIf on a lore list: the lines a predicate rejects are dropped and
 * the rest keep their order. The command executor and the public API both
 * edit lore this way.
 */
module LoreLines {
  import opened JavaText

  /** removeIf: keeps, in order, exactly the lines `drop` does not hold for. */
  function RemoveIf(lines: seq<string>, drop: string -> bool): (r: seq<string>)
    ensures |r| <= |lines|
    ensures forall k :: 0 <= k < |r| ==> !drop(r[k])
    ensures forall x :: x in r <==> x in lines && !drop(x)
    decreases |lines|
  {
    if lines == [] then []
    else (if drop(lines[0]) then [] else [lines[0]]) + RemoveIf(lines[1..], drop)
  }

  /** Filtering a list piece by piece gives the filtered pieces in the same order. */
  lemma {:induction false} RemoveIfAppend(a: seq<string>, b: seq<string>, drop: string -> bool)
    ensures RemoveIf(a + b, drop) == RemoveIf(a, drop) + RemoveIf(b, drop)
    decreases |a|
  {
    if a == [] {
      assert a + b == b;
    } else {
      assert (a + b)[0] == a[0] && (a + b)[1..] == a[1..] + b;
      RemoveIfAppend(a[1..], b, drop);
    }
  }

  /** A list with nothing to drop is returned unchanged. */
  lemma {:induction false} RemoveIfNothing(lines: seq<string>, drop: string -> bool)
    requires forall k :: 0 <= k < |lines| ==> !drop(lines[k])
    ensures RemoveIf(lines, drop) == lines
    decreases |lines|
  {
    if lines != [] {
      RemoveIfNothing(lines[1..], drop);
    }
  }

  /** Filtering twice with the same predicate changes nothing the second time. */
  lemma {:induction false} RemoveIfIdempotent(lines: seq<string>, drop: string -> bool)
    ensures RemoveIf(RemoveIf(lines, drop), drop) == RemoveIf(lines, drop)
  {
    RemoveIfNothing(RemoveIf(lines, drop), drop);
  }

  /** The first index from `k` on whose line satisfies `p`, as a scan with an early exit finds it. */
  function FirstIndex(lines: seq<string>, p: string -> bool, k: nat): (r: Option<nat>)
    requires k <= |lines|
    ensures r.Some? ==> k <= r.value < |lines| && p(lines[r.value])
    decreases |lines| - k
  {
    if k == |lines| then None
    else if p(lines[k]) then Some(k)
    else FirstIndex(lines, p, k + 1)
  }

  /** The scan stops at `i` when `p` holds there and at no earlier line. */
  lemma {:induction false} FirstIndexAt(lines: seq<string>, p: string -> bool, k: nat, i: nat)
    requires k <= i < |lines| && p(lines[i])
    requires forall j :: k <= j < i ==> !p(lines[j])
    ensures FirstIndex(lines, p, k) == Some(i)
    decreases i - k
  {
    if k < i {
      FirstIndexAt(lines, p, k + 1, i);
    }
  }

  /** The scan finds nothing when `p` holds for no line. */
  lemma {:induction false} FirstIndexNone(lines: seq<string>, p: string -> bool, k: nat)
    requires k <= |lines|
    requires forall j :: k <= j < |lines| ==> !p(lines[j])
    ensures FirstIndex(lines, p, k) == None
    decreases |lines| - k
  {
    if k < |lines| {
      FirstIndexNone(lines, p, k + 1);
    }
  }
}
