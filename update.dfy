/** Updates and their in-place ordering by ID (model/update.go; the same
    `byId` sorter appears in incoming.go). Go's `sort.Sort` drives the
    `Len`/`Less`/`Swap` interface; here an insertion sort does, using the same
    Less and Swap, and `Len` is the array's Length. */
module Updates {
  import opened Incoming

  datatype Update = Update(id: int, message: Message)

  /** The ordering the sorter uses: strictly smaller ID. */
  function Less(a: array<Update>, i: int, j: int): (b: bool)
    requires 0 <= i < a.Length && 0 <= j < a.Length
    reads a
    ensures b <==> a[i].id < a[j].id
    ensures i == j ==> !b
  {
    a[i].id < a[j].id
  }

  /** Exchanges positions i and j and nothing else. */
  method Swap(a: array<Update>, i: int, j: int)
    requires 0 <= i < a.Length && 0 <= j < a.Length
    modifies a
    ensures a[..] == old(a[..])[i := old(a[j])][j := old(a[i])]
    ensures multiset(a[..]) == multiset(old(a[..]))
  {
    a[i], a[j] := a[j], a[i];
  }

  /** IDs never decrease along the sequence. */
  ghost predicate SortedByID(s: seq<Update>) {
    forall k, l :: 0 <= k < l < |s| ==> s[k].id <= s[l].id
  }

  /** Orders the updates by ID in place: afterwards IDs are non-decreasing and
      the array holds the same updates, each ID still with its own message. */
  method SortByID(a: array<Update>)
    modifies a
    ensures SortedByID(a[..])
    ensures multiset(a[..]) == multiset(old(a[..]))
  {
    var i := 0;
    while i < a.Length
      invariant 0 <= i <= a.Length
      invariant forall k, l :: 0 <= k < l < i ==> a[k].id <= a[l].id
      invariant multiset(a[..]) == multiset(old(a[..]))
    {
      var j := i;
      while j > 0 && Less(a, j, j - 1)
        invariant 0 <= j <= i < a.Length
        invariant forall k, l :: 0 <= k < l <= i && l != j ==> a[k].id <= a[l].id
        invariant multiset(a[..]) == multiset(old(a[..]))
      {
        Swap(a, j, j - 1);
        j := j - 1;
      }
      i := i + 1;
    }
  }

  /** The largest ID in a non-empty batch. */
  function MaxID(s: seq<Update>): (m: int)
    requires |s| > 0
    ensures exists i :: 0 <= i < |s| && s[i].id == m
    ensures forall i :: 0 <= i < |s| ==> s[i].id <= m
  {
    if |s| == 1 then s[0].id
    else
      var rest := MaxID(s[1..]);
      if s[0].id > rest then s[0].id else rest
  }

  /** After sorting, the last update carries the batch's largest ID. */
  lemma SortedLastIsMax(s: seq<Update>, t: seq<Update>)
    requires SortedByID(t) && multiset(t) == multiset(s) && |s| > 0
    ensures |t| == |s| && t[|t| - 1].id == MaxID(s)
  {
    assert |t| == |multiset(t)| == |multiset(s)| == |s|;
    var last := t[|t| - 1];
    assert last in multiset(t);
    var i :| 0 <= i < |s| && s[i].id == MaxID(s);
    assert s[i] in multiset(s);
    assert s[i] in t;
    assert last in s;
  }
}
