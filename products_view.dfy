/**
 * The storefront's product list component: the query string it sends to the
 * product API, the Fisher-Yates shuffle behind its randomized mode, the
 * state it keeps from the API's answers, and the page count that decides
 * whether pagination is shown.
 */
module ProductsView {
  import opened Common
  import opened Catalog

  // ---- shuffleArray ---------------------------------------------------------

  function Swap<T>(s: seq<T>, i: int, j: int): (r: seq<T>)
    requires 0 <= i < |s| && 0 <= j < |s|
    ensures |r| == |s|
    ensures r[i] == s[j] && r[j] == s[i]
    ensures forall k :: 0 <= k < |s| && k != i && k != j ==> r[k] == s[k]
  {
    s[i := s[j]][j := s[i]]
  }

  lemma SwapPermutes<T>(s: seq<T>, i: int, j: int)
    requires 0 <= i < |s| && 0 <= j < |s|
    ensures multiset(Swap(s, i, j)) == multiset(s)
  {
  }

  /**
   * The random indices of a run of the shuffle on `n` elements: the `k`-th
   * swap exchanges position `n - 1 - k` with `choices[k]`, which lies in
   * `[0, n - 1 - k]`, and there is at most one swap per position from
   * `n - 1` down to `1`.
   */
  predicate ValidChoices(n: int, choices: seq<int>)
  {
    && |choices| <= (if n > 0 then n - 1 else 0)
    && forall k :: 0 <= k < |choices| ==> 0 <= choices[k] <= n - 1 - k
  }

  /** The list after the swaps that `choices` picks, in order. */
  function FisherYates<T>(s: seq<T>, choices: seq<int>): (r: seq<T>)
    requires ValidChoices(|s|, choices)
    ensures |r| == |s|
    decreases |choices|
  {
    if choices == [] then s
    else
      var k := |choices| - 1;
      assert ValidChoices(|s|, choices[..k]);
      Swap(FisherYates(s, choices[..k]), |s| - 1 - k, choices[k])
  }

  /** Whatever indices `Math.random` yields, the shuffle only reorders the list. */
  lemma {:induction false} FisherYatesPermutes<T>(s: seq<T>, choices: seq<int>)
    requires ValidChoices(|s|, choices)
    ensures multiset(FisherYates(s, choices)) == multiset(s)
    decreases |choices|
  {
    if choices != [] {
      var k := |choices| - 1;
      assert ValidChoices(|s|, choices[..k]);
      FisherYatesPermutes(s, choices[..k]);
      SwapPermutes(FisherYates(s, choices[..k]), |s| - 1 - k, choices[k]);
    }
  }

  /** One more swap, of the next position down with `j`, extends a run of the shuffle. */
  lemma FisherYatesStep<T>(s: seq<T>, choices: seq<int>, j: int)
    requires ValidChoices(|s|, choices)
    requires |choices| < |s| - 1 && 0 <= j <= |s| - 1 - |choices|
    ensures ValidChoices(|s|, choices + [j])
    ensures FisherYates(s, choices + [j]) == Swap(FisherYates(s, choices), |s| - 1 - |choices|, j)
  {
    var extended := choices + [j];
    assert extended[..|choices|] == choices;
    assert ValidChoices(|s|, extended) by {
      forall k | 0 <= k < |extended|
        ensures 0 <= extended[k] <= |s| - 1 - k
      {
        if k < |choices| {
          assert extended[k] == choices[k];
        }
      }
    }
    assert FisherYates(s, extended) == Swap(FisherYates(s, extended[..|choices|]), |s| - 1 - |choices|, extended[|choices|]);
  }

  /** `[a[i], a[j]] = [a[j], a[i]]` */
  method SwapInPlace<T>(a: array<T>, i: int, j: int)
    requires 0 <= i < a.Length && 0 <= j < a.Length
    modifies a
    ensures a[..] == Swap(old(a[..]), i, j)
  {
    a[i], a[j] := a[j], a[i];
  }

  /**
   * `shuffleArray`: copies the array, then for `i` from the last index down
   * to 1 swaps position `i` with a position `j` in `[0, i]`. The choice of `j`
   * is left open, which covers every value `Math.random` can produce.
   */
  method ShuffleArray<T>(items: array<T>) returns (shuffled: array<T>, ghost choices: seq<int>)
    ensures fresh(shuffled)
    ensures items[..] == old(items[..])
    ensures ValidChoices(items.Length, choices)
    ensures |choices| == if items.Length > 0 then items.Length - 1 else 0
    ensures shuffled[..] == FisherYates(items[..], choices)
    ensures multiset(shuffled[..]) == multiset(items[..])
  {
    shuffled := new T[items.Length](k requires 0 <= k < items.Length reads items => items[k]);
    assert shuffled[..] == items[..];
    choices := [];
    var i := items.Length - 1;
    while i > 0
      invariant -1 <= i < items.Length
      invariant items.Length > 0 ==> 0 <= i
      invariant |choices| == items.Length - 1 - i
      invariant ValidChoices(items.Length, choices)
      invariant shuffled.Length == items.Length
      invariant shuffled[..] == FisherYates(items[..], choices)
    {
      var j :| 0 <= j <= i;
      FisherYatesStep(items[..], choices, j);
      SwapInPlace(shuffled, i, j);
      choices := choices + [j];
      i := i - 1;
    }
    FisherYatesPermutes(items[..], choices);
  }

  /** `shuffleArray([...pool])`: a shuffle of a copy of the list. */
  method ShuffleCopy<T>(pool: seq<T>) returns (shuffled: seq<T>)
    ensures multiset(shuffled) == multiset(pool)
  {
    var copy := new T[|pool|](k requires 0 <= k < |pool| => pool[k]);
    assert copy[..] == pool;
    var a, choices := ShuffleArray(copy);
    shuffled := a[..];
  }

  // ---- the query string -----------------------------------------------------

  /** The query-string keys the component sets. */
  datatype Key = Page | Limit | Search | CategoryIds | BrandIds | MinPrice | MaxPrice | SortBy

  /** The name each key has in the query string. */
  function KeyName(k: Key): string
  {
    match k
    case Page => "page"
    case Limit => "limit"
    case Search => "search"
    case CategoryIds => "categoryIds"
    case BrandIds => "brandIds"
    case MinPrice => "minPrice"
    case MaxPrice => "maxPrice"
    case SortBy => "sortBy"
  }

  lemma KeyNamesDistinct(a: Key, b: Key)
    requires KeyName(a) == KeyName(b)
    ensures a == b
  {
  }

  type Params = seq<(Key, string)>

  /** `params.get(key)`: the value of the first pair with that key. */
  function Lookup(ps: Params, key: Key): Option<string>
  {
    if ps == [] then None
    else if ps[0].0 == key then Some(ps[0].1)
    else Lookup(ps[1..], key)
  }

  /** The pairs without those of one key. */
  function Without(ps: Params, key: Key): (r: Params)
    ensures Lookup(r, key).None?
    ensures forall k :: k != key ==> Lookup(r, k) == Lookup(ps, k)
  {
    if ps == [] then []
    else if ps[0].0 == key then Without(ps[1..], key)
    else [ps[0]] + Without(ps[1..], key)
  }

  /**
   * `params.set(key, value)`: the first pair with that key takes the value
   * and the other pairs with that key go; without such a pair, the pair is
   * appended.
   */
  function SetParam(ps: Params, key: Key, value: string): (r: Params)
    ensures Lookup(r, key) == Some(value)
    ensures forall k :: k != key ==> Lookup(r, k) == Lookup(ps, k)
    ensures Lookup(ps, key).None? ==> r == ps + [(key, value)]
  {
    if ps == [] then [(key, value)]
    else if ps[0].0 == key then [(key, value)] + Without(ps[1..], key)
    else [ps[0]] + SetParam(ps[1..], key, value)
  }

  /** `xs.join(sep)` */
  function Join(xs: seq<string>, sep: string): (r: string)
    ensures xs == [] ==> r == ""
    ensures |xs| == 1 ==> r == xs[0]
  {
    if xs == [] then ""
    else if |xs| == 1 then xs[0]
    else xs[0] + sep + Join(xs[1..], sep)
  }

  /** The component's filter props and its current page. */
  datatype Query = Query(
    currentPage: int,
    limit: int,
    searchQuery: Option<string>,
    categoryIds: Option<seq<string>>,
    brandIds: Option<seq<string>>,
    minPrice: Option<int>,
    maxPrice: Option<int>,
    sortBy: Option<string>)

  /** An id list is sent only when it is given and not empty. */
  function IdsParam(ids: Option<seq<string>>): Option<string>
  {
    if ids.Some? && |ids.value| > 0 then Some(Join(ids.value, ",")) else None
  }

  /** A price is sent whenever it is defined, zero included. */
  function PriceParam(price: Option<int>): Option<string>
  {
    if price.Some? then Some(IntToString(price.value)) else None
  }

  /**
   * The value each key should carry: `page` and `limit` always; `search` and
   * `sortBy` when non-empty; the id lists when given and non-empty, joined
   * with commas; the prices whenever defined, zero included.
   */
  function Wanted(q: Query, k: Key): Option<string>
  {
    match k
    case Page => Some(IntToString(q.currentPage))
    case Limit => Some(IntToString(q.limit))
    case Search => if Present(q.searchQuery) then q.searchQuery else None
    case CategoryIds => IdsParam(q.categoryIds)
    case BrandIds => IdsParam(q.brandIds)
    case MinPrice => PriceParam(q.minPrice)
    case MaxPrice => PriceParam(q.maxPrice)
    case SortBy => if Present(q.sortBy) then q.sortBy else None
  }

  /** The position of each `set` call in the handler. */
  function Rank(k: Key): nat
  {
    match k
    case Page => 0
    case Limit => 1
    case Search => 2
    case CategoryIds => 3
    case BrandIds => 4
    case MinPrice => 5
    case MaxPrice => 6
    case SortBy => 7
  }

  /** What the query string holds once the first `n` calls have run. */
  function WantedSoFar(q: Query, k: Key, n: nat): Option<string>
  {
    if Rank(k) < n then Wanted(q, k) else None
  }

  /** The query string holds exactly what the first `n` calls set. */
  ghost predicate SetSoFar(ps: Params, q: Query, n: nat)
  {
    forall k :: Lookup(ps, k) == WantedSoFar(q, k, n)
  }

  /** One more `set` call keeps what the earlier calls set. */
  lemma SetStep(ps: Params, q: Query, key: Key, value: string)
    requires SetSoFar(ps, q, Rank(key))
    requires Wanted(q, key) == Some(value)
    ensures SetSoFar(SetParam(ps, key, value), q, Rank(key) + 1)
  {
  }

  /** A skipped `set` call leaves a key that stays unset. */
  lemma SkipStep(ps: Params, q: Query, key: Key)
    requires SetSoFar(ps, q, Rank(key))
    requires Wanted(q, key).None?
    ensures SetSoFar(ps, q, Rank(key) + 1)
  {
  }

  /** After the last call, every key holds what it should. */
  lemma AllSet(ps: Params, q: Query)
    requires SetSoFar(ps, q, 8)
    ensures forall k :: Lookup(ps, k) == Wanted(q, k)
  {
  }

  /** `params.set(key, value)` for the next key in the handler's order. */
  method SetNext(ps: Params, q: Query, key: Key, value: string) returns (r: Params)
    requires SetSoFar(ps, q, Rank(key))
    requires Wanted(q, key) == Some(value)
    ensures SetSoFar(r, q, Rank(key) + 1)
  {
    SetStep(ps, q, key, value);
    r := SetParam(ps, key, value);
  }

  /** The query string of the filtered fetch, built by successive `set` calls. */
  method BuildParams(q: Query) returns (params: Params)
    ensures forall k :: Lookup(params, k) == Wanted(q, k)
  {
    params := [];
    params := SetNext(params, q, Page, IntToString(q.currentPage));
    params := SetNext(params, q, Limit, IntToString(q.limit));
    if Present(q.searchQuery) {
      params := SetNext(params, q, Search, q.searchQuery.value);
    } else {
      SkipStep(params, q, Search);
    }
    if q.categoryIds.Some? && |q.categoryIds.value| > 0 {
      params := SetNext(params, q, CategoryIds, Join(q.categoryIds.value, ","));
    } else {
      SkipStep(params, q, CategoryIds);
    }
    if q.brandIds.Some? && |q.brandIds.value| > 0 {
      params := SetNext(params, q, BrandIds, Join(q.brandIds.value, ","));
    } else {
      SkipStep(params, q, BrandIds);
    }
    if q.minPrice.Some? {
      params := SetNext(params, q, MinPrice, IntToString(q.minPrice.value));
    } else {
      SkipStep(params, q, MinPrice);
    }
    if q.maxPrice.Some? {
      params := SetNext(params, q, MaxPrice, IntToString(q.maxPrice.value));
    } else {
      SkipStep(params, q, MaxPrice);
    }
    if Present(q.sortBy) {
      params := SetNext(params, q, SortBy, q.sortBy.value);
    } else {
      SkipStep(params, q, SortBy);
    }
    AllSet(params, q);
  }

  // ---- pagination -----------------------------------------------------------

  /** `Math.ceil(total / limit)` for a positive limit. */
  function TotalPages(total: nat, limit: int): (pages: nat)
    requires limit > 0
    ensures total == 0 ==> pages == 0
    ensures total > 0 ==> (pages - 1) * limit < total <= pages * limit
    decreases total
  {
    if total == 0 then 0
    else if total <= limit then 1
    else
      var rest := TotalPages(total - limit, limit);
      assert (rest + 1) * limit == rest * limit + limit;
      rest + 1
  }

  /** More than one page exactly when the total exceeds the page size. */
  lemma TotalPagesAboveOne(total: nat, limit: int)
    requires limit > 0
    ensures TotalPages(total, limit) > 1 <==> total > limit
  {
    var pages := TotalPages(total, limit);
    if pages > 1 {
      assert (pages - 1) * limit >= 1 * limit;
    } else if total > 0 {
      assert pages == 1;
    }
  }

  /**
   * `totalPages > 1` with JavaScript's division: a zero limit divides a
   * positive total to Infinity and zero to NaN, and a negative limit gives a
   * count of zero or below.
   */
  predicate MoreThanOnePage(total: nat, limit: int)
  {
    if limit > 0 then TotalPages(total, limit) > 1 else limit == 0 && total > 0
  }

  /**
   * `hasProducts && showPagination && totalPages > 1 && !randomizeProducts`:
   * the pagination sits inside the block drawn only when the page has products.
   */
  predicate PaginationVisible(hasProducts: bool, showPagination: bool, total: nat, limit: int, randomize: bool)
  {
    hasProducts && showPagination && MoreThanOnePage(total, limit) && !randomize
  }

  /**
   * Pagination is shown exactly when the page has products, pagination is
   * asked for, the mode is not randomized, and the total does not fit on one page.
   */
  lemma PaginationVisibleIff(hasProducts: bool, showPagination: bool, total: nat, limit: int, randomize: bool)
    ensures PaginationVisible(hasProducts, showPagination, total, limit, randomize) <==>
      hasProducts && showPagination && !randomize && (if limit > 0 then total > limit else limit == 0 && total > 0)
  {
    if limit > 0 {
      TotalPagesAboveOne(total, limit);
    }
  }

  // ---- the list state -------------------------------------------------------

  /** The `data` of an API answer. */
  datatype Listing = Listing(products: Option<seq<Product>>, total: nat)

  /** What one fetch of the product API yields: the parsed answer, or a throw. */
  datatype ApiReply = ApiAnswer(success: bool, data: Option<Listing>, error: Option<string>) | ConnectionFailure

  const LoadError := "Erro ao carregar produtos"
  const ConnectionError := "Erro de conexão ao buscar produtos"

  /** The answer carries products to show. */
  predicate Succeeded(reply: ApiReply)
  {
    reply.ApiAnswer? && reply.success && reply.data.Some?
  }

  /** `result.error || "Erro ao carregar produtos"` for a failed answer, the connection message for a throw. */
  function FailureText(reply: ApiReply): (msg: string)
    requires !Succeeded(reply)
    ensures msg != ""
    ensures reply.ApiAnswer? && Present(reply.error) ==> msg == reply.error.value
    ensures reply.ApiAnswer? && !Present(reply.error) ==> msg == LoadError
    ensures reply.ConnectionFailure? ==> msg == ConnectionError
  {
    if reply.ConnectionFailure? then ConnectionError
    else if Present(reply.error) then reply.error.value
    else LoadError
  }

  /** `s.slice(0, end)` */
  function Slice0<T>(s: seq<T>, end: int): (r: seq<T>)
    ensures r <= s
    ensures 0 <= end ==> |r| == if end < |s| then end else |s|
    ensures end < 0 ==> |r| == if |s| + end > 0 then |s| + end else 0
  {
    if end >= |s| then s
    else if end >= 0 then s[..end]
    else if |s| + end > 0 then s[..|s| + end]
    else []
  }

  /** The component's state: the products shown, the total, the error text, and the `hasRandomized` ref. */
  class ProductList {
    var products: seq<Product>
    var totalProducts: nat
    var error: string
    var hasRandomized: bool
    /** The shuffled pool the shown products were cut from. */
    ghost var shuffledPool: seq<Product>
    /** The number of randomized fetches sent so far. */
    ghost var randomFetches: nat

    constructor ()
      ensures products == [] && totalProducts == 0 && error == "" && !hasRandomized
      ensures randomFetches == 0
    {
      products := [];
      totalProducts := 0;
      error := "";
      hasRandomized := false;
      shuffledPool := [];
      randomFetches := 0;
    }

    /** `fetchFilteredProducts` once its fetch has answered. */
    method FetchFiltered(reply: ApiReply)
      modifies this`products, this`totalProducts, this`error
      ensures Succeeded(reply) ==>
        && products == (if reply.data.value.products.Some? then reply.data.value.products.value else [])
        && totalProducts == reply.data.value.total
        && error == ""
      ensures !Succeeded(reply) ==> products == [] && totalProducts == 0 && error == FailureText(reply)
    {
      error := "";
      if Succeeded(reply) {
        var page := reply.data.value;
        products := if page.products.Some? then page.products.value else [];
        totalProducts := page.total;
      } else {
        products := [];
        totalProducts := 0;
        error := FailureText(reply);
      }
    }

    /**
     * `fetchRandomizedProducts`, given the answer its fetch would get: it does
     * nothing once a randomization has succeeded; on success it shows at most
     * `limit` products cut from a shuffle of the pool; on failure it keeps the
     * products shown and sets the error.
     */
    method FetchRandomized(reply: ApiReply, limit: int)
      modifies this`products, this`totalProducts, this`error, this`hasRandomized
      modifies this`shuffledPool, this`randomFetches
      ensures old(hasRandomized) ==>
        && products == old(products) && totalProducts == old(totalProducts) && error == old(error)
        && hasRandomized && randomFetches == old(randomFetches)
      ensures !old(hasRandomized) ==> randomFetches == old(randomFetches) + 1
      ensures !old(hasRandomized) && Succeeded(reply) && reply.data.value.products.Some? ==>
        && hasRandomized
        && multiset(shuffledPool) == multiset(reply.data.value.products.value)
        && products == Slice0(shuffledPool, limit)
        && totalProducts == reply.data.value.total
        && error == ""
      ensures !old(hasRandomized) && !(Succeeded(reply) && reply.data.value.products.Some?) ==>
        && !hasRandomized
        && products == old(products) && totalProducts == old(totalProducts)
        && error == (if Succeeded(reply) then ConnectionError else FailureText(reply))
    {
      if hasRandomized {
        return;
      }
      randomFetches := randomFetches + 1;
      error := "";
      if Succeeded(reply) {
        var page := reply.data.value;
        if page.products.None? {
          // spreading an undefined list throws, and the catch sets the connection message
          error := ConnectionError;
          return;
        }
        var shuffled := ShuffleCopy(page.products.value);
        shuffledPool := shuffled;
        products := Slice0(shuffled, limit);
        totalProducts := page.total;
        hasRandomized := true;
      } else {
        error := FailureText(reply);
      }
    }
  }

  /** With a non-negative limit, the randomized mode shows at most `limit` products, all from the pool. */
  lemma RandomizedShowsAtMostLimit(shuffledPool: seq<Product>, pool: seq<Product>, limit: int)
    requires multiset(shuffledPool) == multiset(pool)
    requires limit >= 0
    ensures |Slice0(shuffledPool, limit)| <= limit
    ensures multiset(Slice0(shuffledPool, limit)) <= multiset(pool)
  {
    var shown := Slice0(shuffledPool, limit);
    assert shuffledPool == shown + shuffledPool[|shown|..];
  }
}
