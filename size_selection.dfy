/** Choosing the largest variant of a photo (`vk_get_info_photo`, main.py
    lines 136-147). VK names each variant by a size code; the copier walks a
    fixed list of codes from the largest to the smallest, keeps the variants
    whose type contains the current code, stops at the first code that keeps
    any, and takes the first variant kept. */
module SizeSelection {
  import opened VkTypes

  /** The priority tuple `('w', 'z', 'y', 'x', 'r', 'q', 'p', 'o', 'm', 's')`.
      Every code is one character, so Python's substring test
      `size_type in size['type']` is membership of that character. */
  const SizeTypes: seq<char> := ['w', 'z', 'y', 'x', 'r', 'q', 'p', 'o', 'm', 's']

  predicate Matches(code: char, v: Size) {
    code in v.kind
  }

  /** `list(filter(lambda size: code in size['type'], sizes))`: the variants
      whose type contains `code`, in their original order. */
  function Filter(code: char, sizes: seq<Size>): (r: seq<Size>)
    ensures |r| <= |sizes|
  {
    if sizes == [] then []
    else (if Matches(code, sizes[0]) then [sizes[0]] else []) + Filter(code, sizes[1..])
  }

  /** The filter keeps nothing exactly when no variant matches. */
  lemma {:induction false} FilterEmpty(code: char, sizes: seq<Size>)
    ensures Filter(code, sizes) == [] <==> forall i :: 0 <= i < |sizes| ==> !Matches(code, sizes[i])
  {
    if sizes != [] {
      FilterEmpty(code, sizes[1..]);
      assert forall i :: 1 <= i < |sizes| ==> sizes[i] == sizes[1..][i - 1];
    }
  }

  /** The filter keeps the variants that match and only those. */
  lemma {:induction false} FilterMembers(code: char, sizes: seq<Size>)
    ensures forall v :: v in Filter(code, sizes) <==> v in sizes && Matches(code, v)
  {
    if sizes != [] {
      FilterMembers(code, sizes[1..]);
      assert sizes == [sizes[0]] + sizes[1..];
    }
  }

  /** The filter keeps the order of `sizes`: its head is the first variant
      that matches. */
  lemma {:induction false} FilterHead(code: char, sizes: seq<Size>, i: nat)
    requires i < |sizes| && Matches(code, sizes[i])
    requires forall j :: 0 <= j < i ==> !Matches(code, sizes[j])
    ensures Filter(code, sizes) != [] && Filter(code, sizes)[0] == sizes[i]
  {
    if i > 0 {
      FilterHead(code, sizes[1..], i - 1);
    }
  }

  /** The variant the loop keeps when it starts at position `from` of the
      priority list, or None when no later code matches. */
  function LargestFrom(sizes: seq<Size>, from: nat): Option<Size>
    decreases |SizeTypes| - from
  {
    if from >= |SizeTypes| then None
    else
      var kept := Filter(SizeTypes[from], sizes);
      if kept != [] then Some(kept[0]) else LargestFrom(sizes, from + 1)
  }

  /** The variant the walk keeps is one of the photo's variants, and its
      type contains a code of the list from `from` on. */
  lemma {:induction false} LargestFromIn(sizes: seq<Size>, from: nat)
    ensures var r := LargestFrom(sizes, from);
      r.Some? ==> r.value in sizes && exists k :: from <= k < |SizeTypes| && Matches(SizeTypes[k], r.value)
    decreases |SizeTypes| - from
  {
    if from < |SizeTypes| {
      var kept := Filter(SizeTypes[from], sizes);
      if kept != [] {
        FilterMembers(SizeTypes[from], sizes);
        assert kept[0] in kept;
      } else {
        LargestFromIn(sizes, from + 1);
      }
    }
  }

  /** The variant the copier keeps, or None when `max_size[0]` would fail. */
  function Largest(sizes: seq<Size>): (r: Option<Size>)
    ensures r.Some? ==> r.value in sizes
    ensures sizes == [] ==> r == None
  {
    LargestFromIn(sizes, 0);
    LargestFromNone(sizes, 0);
    LargestFrom(sizes, 0)
  }

  lemma {:induction false} LargestFromNone(sizes: seq<Size>, from: nat)
    ensures LargestFrom(sizes, from) == None <==>
            forall k :: from <= k < |SizeTypes| ==> Filter(SizeTypes[k], sizes) == []
    decreases |SizeTypes| - from
  {
    if from < |SizeTypes| {
      LargestFromNone(sizes, from + 1);
    }
  }

  lemma {:induction false} LargestFromIs(sizes: seq<Size>, from: nat, k: nat)
    requires from <= k < |SizeTypes| && Filter(SizeTypes[k], sizes) != []
    requires forall k' :: from <= k' < k ==> Filter(SizeTypes[k'], sizes) == []
    ensures LargestFrom(sizes, from) == Some(Filter(SizeTypes[k], sizes)[0])
    decreases k - from
  {
    if from < k {
      assert Filter(SizeTypes[from], sizes) == [];
      LargestFromIs(sizes, from + 1, k);
      assert LargestFrom(sizes, from) == LargestFrom(sizes, from + 1);
    }
  }

  /** There is no variant to keep exactly when no variant's type contains any
      of the ten codes. */
  lemma {:induction false} LargestNone(sizes: seq<Size>)
    ensures Largest(sizes) == None <==>
      forall k, i :: 0 <= k < |SizeTypes| && 0 <= i < |sizes| ==> !Matches(SizeTypes[k], sizes[i])
  {
    LargestFromNone(sizes, 0);
    forall k | 0 <= k < |SizeTypes| {
      FilterEmpty(SizeTypes[k], sizes);
    }
  }

  /** The variant kept is the first one, in array order, that matches the
      earliest code of the priority list matched by any variant. */
  lemma {:induction false} LargestIs(sizes: seq<Size>, k: nat, i: nat)
    requires k < |SizeTypes| && i < |sizes| && Matches(SizeTypes[k], sizes[i])
    requires forall k', j :: 0 <= k' < k && 0 <= j < |sizes| ==> !Matches(SizeTypes[k'], sizes[j])
    requires forall j :: 0 <= j < i ==> !Matches(SizeTypes[k], sizes[j])
    ensures Largest(sizes) == Some(sizes[i])
  {
    forall k' | 0 <= k' < k {
      FilterEmpty(SizeTypes[k'], sizes);
    }
    FilterEmpty(SizeTypes[k], sizes);
    LargestFromIs(sizes, 0, k);
    FilterHead(SizeTypes[k], sizes, i);
  }

  /** When two variants share the winning code, the one listed first is
      kept: the choice depends on the order of the `sizes` array. */
  lemma {:induction false} OrderMatters(a: Size, b: Size)
    requires a.kind == "x" && b.kind == "x"
    ensures Largest([a, b]) == Some(a) && Largest([b, a]) == Some(b)
  {
    LargestIs([a, b], 3, 0);
    LargestIs([b, a], 3, 0);
  }

  /** The `for size_type in size_types: ... break` loop: `maxSize` is the
      `max_size` list it leaves behind, empty when no code matched. */
  method SelectLargest(sizes: seq<Size>) returns (maxSize: seq<Size>)
    ensures maxSize == [] <==>
      forall k, i :: 0 <= k < |SizeTypes| && 0 <= i < |sizes| ==> !Matches(SizeTypes[k], sizes[i])
    ensures maxSize != [] ==> exists k :: 0 <= k < |SizeTypes| && maxSize == Filter(SizeTypes[k], sizes) &&
                                          (forall k' :: 0 <= k' < k ==> Filter(SizeTypes[k'], sizes) == [])
    ensures maxSize == [] ==> Largest(sizes) == None
    ensures maxSize != [] ==> Largest(sizes) == Some(maxSize[0])
  {
    maxSize := [];
    for k := 0 to |SizeTypes|
      invariant maxSize == []
      invariant forall k' :: 0 <= k' < k ==> Filter(SizeTypes[k'], sizes) == []
    {
      maxSize := Filter(SizeTypes[k], sizes);
      if maxSize != [] {
        FilterEmpty(SizeTypes[k], sizes);
        LargestFromIs(sizes, 0, k);
        return;
      }
    }
    LargestFromNone(sizes, 0);
    LargestNone(sizes);
  }
}
