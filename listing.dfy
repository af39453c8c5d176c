/**
 * The listing loop every source driver's `get_*_list` runs: walk the remote
 * items in order, skip those whose id is in the driver's exclude list, and
 * append a fixed projection of each remaining item.
 */
module SourceListing {
  import opened PyValues

  /** The items whose id is not excluded, in their listed order. */
  function Kept<T(!new)>(items: seq<T>, idOf: T -> string, exclude: seq<string>): (r: seq<T>)
    ensures |r| <= |items|
    ensures forall x :: x in r <==> x in items && idOf(x) !in exclude
    decreases |items|
  {
    if items == [] then []
    else
      var init := items[..|items| - 1];
      var last := items[|items| - 1];
      assert items == init + [last];
      Kept(init, idOf, exclude) + (if idOf(last) in exclude then [] else [last])
  }

  /** The records a listing loop returns. */
  function Listing<T(!new)>(items: seq<T>, idOf: T -> string, project: T -> Dict, exclude: seq<string>): seq<Dict>
    decreases |items|
  {
    if items == [] then []
    else
      var last := items[|items| - 1];
      Listing(items[..|items| - 1], idOf, project, exclude) + (if idOf(last) in exclude then [] else [project(last)])
  }

  /** The listing is the projection of the kept items, one record per item, in order. */
  lemma {:induction false} ListingProjectsKept<T(!new)>(items: seq<T>, idOf: T -> string, project: T -> Dict, exclude: seq<string>)
    ensures |Listing(items, idOf, project, exclude)| == |Kept(items, idOf, exclude)|
    ensures forall i :: 0 <= i < |Kept(items, idOf, exclude)| ==>
      Listing(items, idOf, project, exclude)[i] == project(Kept(items, idOf, exclude)[i])
    decreases |items|
  {
    if items != [] {
      ListingProjectsKept(items[..|items| - 1], idOf, project, exclude);
    }
  }

  /** Filtering distributes over concatenation: what is kept keeps its relative order. */
  lemma {:induction false} KeptAppend<T(!new)>(a: seq<T>, b: seq<T>, idOf: T -> string, exclude: seq<string>)
    ensures Kept(a + b, idOf, exclude) == Kept(a, idOf, exclude) + Kept(b, idOf, exclude)
    decreases |b|
  {
    if b == [] {
      assert a + b == a;
    } else {
      var init := b[..|b| - 1];
      var last := b[|b| - 1];
      assert (a + b)[..|a + b| - 1] == a + init;
      assert (a + b)[|a + b| - 1] == last;
      KeptAppend(a, init, idOf, exclude);
    }
  }

  /** Listing a second time with the same exclude list keeps everything. */
  lemma {:induction false} KeptIdempotent<T(!new)>(items: seq<T>, idOf: T -> string, exclude: seq<string>)
    ensures Kept(Kept(items, idOf, exclude), idOf, exclude) == Kept(items, idOf, exclude)
    decreases |items|
  {
    if items != [] {
      var init := items[..|items| - 1];
      var last := items[|items| - 1];
      var tail := if idOf(last) in exclude then [] else [last];
      KeptIdempotent(init, idOf, exclude);
      KeptAppend(Kept(init, idOf, exclude), tail, idOf, exclude);
      if tail != [] {
        assert Kept(tail, idOf, exclude) == Kept([], idOf, exclude) + [last] by {
          assert tail[..0] == [];
        }
      }
    }
  }

  /** With nothing of the listing excluded, every item is kept. */
  lemma {:induction false} KeptNoneExcluded<T(!new)>(items: seq<T>, idOf: T -> string, exclude: seq<string>)
    requires forall x :: x in items ==> idOf(x) !in exclude
    ensures Kept(items, idOf, exclude) == items
    decreases |items|
  {
    if items != [] {
      var init := items[..|items| - 1];
      var last := items[|items| - 1];
      assert items == init + [last];
      assert last in items;
      KeptNoneExcluded(init, idOf, exclude);
    }
  }

  /** The loop of a `get_*_list` method. */
  method ListLoop<T(!new)>(items: seq<T>, idOf: T -> string, project: T -> Dict, exclude: seq<string>) returns (out: seq<Dict>)
    ensures out == Listing(items, idOf, project, exclude)
  {
    out := [];
    var i := 0;
    while i < |items|
      invariant 0 <= i <= |items|
      invariant out == Listing(items[..i], idOf, project, exclude)
    {
      assert items[..i + 1][..i] == items[..i];
      if idOf(items[i]) !in exclude {
        out := out + [project(items[i])];
      }
      i := i + 1;
    }
    assert items[..i] == items;
  }
}
