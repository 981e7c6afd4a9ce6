/**
 * The filter sidebar: checking or unchecking a category or brand, and the
 * test that decides whether the "clear filters" button is shown.
 */
module FilterSidebar {

  /** The default upper bound of the price slider. */
  const MaxPriceBound: real := 50000.0

  /** `list.filter(c => c !== id)` */
  function RemoveAll(list: seq<string>, id: string): seq<string>
  {
    if list == [] then []
    else (if list[0] == id then [] else [list[0]]) + RemoveAll(list[1..], id)
  }

  /** Filtering drops every copy of the id and keeps every copy of every other id. */
  lemma {:induction false} RemoveAllCounts(list: seq<string>, id: string)
    ensures multiset(RemoveAll(list, id)) == multiset(list)[id := 0]
  {
    if list != [] {
      RemoveAllCounts(list[1..], id);
      assert list == [list[0]] + list[1..];
    }
  }

  /** `sub` is `list` with some elements left out, the rest in their order. */
  predicate IsSubsequence(sub: seq<string>, list: seq<string>)
  {
    if sub == [] then true
    else if list == [] then false
    else if sub[0] == list[0] then IsSubsequence(sub[1..], list[1..])
    else IsSubsequence(sub, list[1..])
  }

  /** Filtering keeps the other ids in their order. */
  lemma {:induction false} RemoveAllKeepsOrder(list: seq<string>, id: string)
    ensures IsSubsequence(RemoveAll(list, id), list)
  {
    if list != [] {
      RemoveAllKeepsOrder(list[1..], id);
      var r := RemoveAll(list, id);
      if list[0] != id {
        assert r == [list[0]] + RemoveAll(list[1..], id);
        assert r[1..] == RemoveAll(list[1..], id);
      } else {
        assert r == RemoveAll(list[1..], id);
        if r != [] {
          RemoveAllCounts(list, id);
          assert multiset(r)[r[0]] > 0;
          assert r[0] != list[0];
        }
      }
    }
  }

  /** `handleCategoryToggle` and `handleBrandToggle`: uncheck a checked id, check an unchecked one. */
  function Toggle(selected: seq<string>, id: string): (r: seq<string>)
    ensures id in selected ==> r == RemoveAll(selected, id)
    ensures id !in selected ==> r == selected + [id]
  {
    if id in selected then RemoveAll(selected, id) else selected + [id]
  }

  /** A toggle flips the membership of its id and leaves every other id's membership alone. */
  lemma ToggleFlips(selected: seq<string>, id: string)
    ensures id in Toggle(selected, id) <==> id !in selected
    ensures forall other :: other != id ==> (other in Toggle(selected, id) <==> other in selected)
  {
    var r := Toggle(selected, id);
    RemoveAllCounts(selected, id);
    assert id in r <==> multiset(r)[id] > 0;
    forall other | other != id
      ensures other in r <==> other in selected
    {
      assert other in r <==> multiset(r)[other] > 0;
      assert other in selected <==> multiset(selected)[other] > 0;
    }
  }

  lemma {:induction false} RemoveAllAbsent(list: seq<string>, id: string)
    requires id !in list
    ensures RemoveAll(list, id) == list
  {
    if list != [] {
      RemoveAllAbsent(list[1..], id);
    }
  }

  /** Checking an unchecked id and unchecking it again restores the selection. */
  lemma ToggleTwice(selected: seq<string>, id: string)
    requires id !in selected
    ensures Toggle(Toggle(selected, id), id) == selected
  {
    var once := selected + [id];
    RemoveAllAbsent(selected, id);
    RemoveAllConcat(selected, [id], id);
    assert RemoveAll([id], id) == [];
  }

  lemma RemoveAllUnfold(list: seq<string>, id: string)
    requires list != []
    ensures RemoveAll(list, id) == (if list[0] == id then [] else [list[0]]) + RemoveAll(list[1..], id)
  {
  }

  /** Filtering a concatenation filters each part. */
  lemma {:induction false} RemoveAllConcat(a: seq<string>, b: seq<string>, id: string)
    ensures RemoveAll(a + b, id) == RemoveAll(a, id) + RemoveAll(b, id)
  {
    if a == [] {
      assert a + b == b;
    } else {
      var ab := a + b;
      assert ab[0] == a[0];
      assert ab[1..] == a[1..] + b;
      RemoveAllConcat(a[1..], b, id);
      RemoveAllUnfold(ab, id);
      RemoveAllUnfold(a, id);
      var head, rest, tail := if a[0] == id then [] else [a[0]], RemoveAll(a[1..], id), RemoveAll(b, id);
      assert head + (rest + tail) == (head + rest) + tail;
    }
  }

  /** `hasActiveFilters` */
  predicate HasActiveFilters(categories: seq<string>, brands: seq<string>, minPrice: real, maxPrice: real)
  {
    |categories| > 0 || |brands| > 0 || minPrice > 0.0 || maxPrice < MaxPriceBound
  }

  /** No filter is active exactly when nothing is checked and the price range is at least the full one. */
  lemma NoActiveFilters(categories: seq<string>, brands: seq<string>, minPrice: real, maxPrice: real)
    ensures !HasActiveFilters(categories, brands, minPrice, maxPrice) <==>
      categories == [] && brands == [] && minPrice <= 0.0 && maxPrice >= 50000.0
  {
  }
}
