/**
 * The filter/sort engine: `filterRecipes` (text, category and status tests)
 * and `sortRecipes` (a copy of the list, stably sorted by one of four keys).
 */
module Logic {
  import opened Wrappers
  import opened Text
  import opened Seqs
  import opened Recipes

  // ---------------------------------------------------------------------------
  // Filtering
  // ---------------------------------------------------------------------------

  /** `(query || "").trim().toLowerCase()`. */
  function PrepareQuery(query: string): string {
    Lower(Trim(query))
  }

  /** Some item, lower-cased, contains `q` (`items.some(i => i.toLowerCase().includes(q))`). */
  predicate AnyContains(items: seq<string>, q: string) {
    exists k :: 0 <= k < |items| && Contains(Lower(items[k]), q)
  }

  /**
   * The text test for a prepared query `q`: an empty `q` accepts everything;
   * otherwise `q` must occur in the lower-cased title, some ingredient or the
   * notes, with missing ingredients or notes read as empty.
   */
  predicate TextOk(r: Recipe, q: string) {
    || q == []
    || Contains(Lower(r.title), q)
    || AnyContains(r.ingredients.GetOr([]), q)
    || Contains(Lower(r.notes.GetOr("")), q)
  }

  /** `!category || r.category === category`: unset or empty means no restriction. */
  predicate CategoryOk(r: Recipe, category: Option<string>) {
    category.None? || category.value == "" || r.category == category.value
  }

  /** `!status || r.status === status`. */
  predicate StatusOk(r: Recipe, status: Option<string>) {
    status.None? || status.value == "" || r.status == status.value
  }

  /** All three tests of `filterRecipes` hold. */
  predicate Matches(r: Recipe, q: string, category: Option<string>, status: Option<string>) {
    TextOk(r, q) && CategoryOk(r, category) && StatusOk(r, status)
  }

  /** `filterRecipes(recipes, query, category, status)`: a record is kept iff all three tests hold. */
  function FilterRecipes(recipes: seq<Recipe>, query: string, category: Option<string>, status: Option<string>)
    : (r: seq<Recipe>)
    ensures forall k :: 0 <= k < |r| ==> r[k] in recipes && Matches(r[k], PrepareQuery(query), category, status)
    ensures forall k :: 0 <= k < |recipes| && Matches(recipes[k], PrepareQuery(query), category, status)
                        ==> recipes[k] in r
  {
    var q := PrepareQuery(query);
    KeepMembers(recipes, (x: Recipe) => Matches(x, q, category, status));
    Keep(recipes, (x: Recipe) => Matches(x, q, category, status))
  }

  /**
   * The filtered list is a subsequence of the input: it is the input at the
   * increasing positions `idx`, and a position is among them iff its record
   * passes the three tests.
   */
  lemma FilterIsSubsequence(recipes: seq<Recipe>, query: string, category: Option<string>, status: Option<string>)
    ensures var idx := KeptIndices(recipes, (x: Recipe) => Matches(x, PrepareQuery(query), category, status));
      && OrderedSelection(FilterRecipes(recipes, query, category, status), recipes, idx)
      && forall i :: 0 <= i < |recipes| ==>
           (i in idx <==> Matches(recipes[i], PrepareQuery(query), category, status))
  {
    var p := (x: Recipe) => Matches(x, PrepareQuery(query), category, status);
    KeepSelects(recipes, p);
    KeptIndicesExact(recipes, p);
  }

  /** A blank or white-space-only query accepts every record's text. */
  lemma BlankQueryAcceptsAll(query: string, r: Recipe)
    requires IsBlank(query)
    ensures PrepareQuery(query) == []
    ensures TextOk(r, PrepareQuery(query))
  {
    TrimIsInnerSlice(query);
  }

  /** The search ignores the case of the query: upper- and lower-case queries select the same records. */
  lemma QueryCaseInsensitive(query: string)
    ensures PrepareQuery(Lower(query)) == PrepareQuery(query)
  {
    LowerTrimCommute(query);
    LowerTrimCommute(Trim(query));
  }

  /** The text test is a substring test: a non-empty query passes iff it occurs in one of the three places. */
  lemma TextOkIsOccurrence(r: Recipe, q: string)
    requires q != []
    ensures TextOk(r, q) <==>
      || (exists i :: 0 <= i <= |r.title| && q <= Lower(r.title)[i..])
      || (exists k :: 0 <= k < |r.ingredients.GetOr([])| && Contains(Lower(r.ingredients.GetOr([])[k]), q))
      || (exists i :: 0 <= i <= |r.notes.GetOr("")| && q <= Lower(r.notes.GetOr(""))[i..])
  {
    ContainsIff(Lower(r.title), q);
    ContainsIff(Lower(r.notes.GetOr("")), q);
  }

  /** With neither category nor status set, the filter keeps exactly the records whose text matches. */
  lemma NoCategoryNoStatus(recipes: seq<Recipe>, query: string)
    ensures var r := FilterRecipes(recipes, query, None, None);
      && (forall k :: 0 <= k < |r| ==> TextOk(r[k], PrepareQuery(query)))
      && (forall k :: 0 <= k < |recipes| && TextOk(recipes[k], PrepareQuery(query)) ==> recipes[k] in r)
  {
    var r, q := FilterRecipes(recipes, query, None, None), PrepareQuery(query);
    forall k | 0 <= k < |r| ensures TextOk(r[k], q) {
      assert Matches(r[k], q, None, None);
    }
    forall k | 0 <= k < |recipes| && TextOk(recipes[k], q) ensures recipes[k] in r {
      assert Matches(recipes[k], q, None, None);
    }
  }

  // ---------------------------------------------------------------------------
  // Sorting
  // ---------------------------------------------------------------------------

  const CreatedDesc: string := "created-desc"
  const CreatedAsc: string := "created-asc"
  const TimeAsc: string := "time-asc"
  const TimeDesc: string := "time-desc"

  /** One of the four keys of the comparator table. */
  predicate IsSortKey(sort: string) {
    sort == CreatedDesc || sort == CreatedAsc || sort == TimeAsc || sort == TimeDesc
  }

  /** The comparator for `sort` can be evaluated on `r`: a NaN `cookTime` has no place in a time order. */
  predicate RankDefined(sort: string, r: Recipe) {
    (sort == TimeAsc || sort == TimeDesc) ==> r.cookTime != Some(NonFinite)
  }

  predicate Sortable(sort: string, rs: seq<Recipe>) {
    forall k :: 0 <= k < |rs| ==> RankDefined(sort, rs[k])
  }

  /** `r.cookTime ?? missing`. */
  function CookTimeOr(r: Recipe, missing: int): int
    requires r.cookTime != Some(NonFinite)
  {
    match r.cookTime
    case None => missing
    case Some(Int(n)) => n
  }

  /**
   * The sort key: every comparator of the table is `Rank(a) - Rank(b)`.
   * An unknown key leaves `cmp[sort]` undefined, and the default comparison
   * of the records' string forms ("[object Object]") finds them all equal.
   */
  function Rank(sort: string, r: Recipe): int
    requires RankDefined(sort, r)
  {
    if sort == CreatedDesc then -r.createdAt
    else if sort == CreatedAsc then r.createdAt
    else if sort == TimeAsc then CookTimeOr(r, 9999)
    else if sort == TimeDesc then -CookTimeOr(r, -1)
    else 0
  }

  /** The comparator table `cmp[sort](a, b)`; a negative result puts `a` first. */
  function Compare(sort: string, a: Recipe, b: Recipe): (c: int)
    requires RankDefined(sort, a) && RankDefined(sort, b)
    ensures c == Rank(sort, a) - Rank(sort, b)
  {
    if sort == CreatedDesc then b.createdAt - a.createdAt
    else if sort == CreatedAsc then a.createdAt - b.createdAt
    else if sort == TimeAsc then CookTimeOr(a, 9999) - CookTimeOr(b, 9999)
    else if sort == TimeDesc then CookTimeOr(b, -1) - CookTimeOr(a, -1)
    else 0
  }

  /** `perm` lists each of the positions `0 .. n-1` exactly once. */
  ghost predicate IsPermutation(perm: seq<int>, n: int) {
    && |perm| == n
    && (forall k :: 0 <= k < n ==> 0 <= perm[k] < n)
    && (forall k, l :: 0 <= k < l < n ==> perm[k] != perm[l])
  }

  /**
   * `r` is `s` stably sorted by `sort`: position `k` of `r` holds the input
   * record at `perm[k]`, ranks never decrease, and records of equal rank
   * keep their input order.
   */
  ghost predicate StableSortOf(r: seq<Recipe>, s: seq<Recipe>, sort: string, perm: seq<int>) {
    && |r| == |s|
    && IsPermutation(perm, |s|)
    && (forall k :: 0 <= k < |r| ==> r[k] == s[perm[k]])
    && Sortable(sort, r)
    && (forall k, l :: 0 <= k < l < |r| ==> Rank(sort, r[k]) <= Rank(sort, r[l]))
    && (forall k, l :: 0 <= k < l < |r| && Rank(sort, r[k]) == Rank(sort, r[l]) ==> perm[k] < perm[l])
  }

  /** Positions below `hi`, other than `skip`, are in rank order, equal ranks in input order. */
  ghost predicate OrderedBelow(sort: string, s: seq<Recipe>, perm: seq<int>, hi: int, skip: int)
    requires Sortable(sort, s) && |perm| == |s| && hi <= |s|
  {
    forall k, l :: 0 <= k < l < hi && k != skip && l != skip ==>
      && Rank(sort, s[k]) <= Rank(sort, s[l])
      && (Rank(sort, s[k]) == Rank(sort, s[l]) ==> perm[k] < perm[l])
  }

  /** Every specified `cookTime` is an integer in [0, 600], as validation guarantees. */
  predicate CookTimesInRange(rs: seq<Recipe>) {
    forall k :: 0 <= k < |rs| && rs[k].cookTime.Some? ==>
      rs[k].cookTime.value.Int? && 0 <= rs[k].cookTime.value.n <= 600
  }

  /**
   * State of the outer loop of the sort: `s` is `recipes` rearranged by
   * `perm`, the prefix `s[..i]` is sorted stably and the rest is untouched.
   */
  ghost predicate SortedPrefix(sort: string, recipes: seq<Recipe>, s: seq<Recipe>, perm: seq<int>, i: int) {
    && |s| == |recipes| && 0 <= i <= |s|
    && IsPermutation(perm, |s|)
    && (forall k :: 0 <= k < |s| ==> s[k] == recipes[perm[k]])
    && (forall k :: i <= k < |s| ==> perm[k] == k)
    && (forall k :: 0 <= k < i ==> perm[k] < i)
    && Sortable(sort, s)
    && OrderedBelow(sort, s, perm, i, -1)
    && multiset(s) == multiset(recipes)
  }

  /**
   * State of the inner loop: the record taken from position `i` now sits at
   * `j`; everything else up to `i` is in order and the records it has passed
   * all rank strictly higher.
   */
  ghost predicate Inserting(sort: string, recipes: seq<Recipe>, s: seq<Recipe>, perm: seq<int>, i: int, j: int) {
    && |s| == |recipes| && 0 <= j <= i < |s|
    && IsPermutation(perm, |s|)
    && (forall k :: 0 <= k < |s| ==> s[k] == recipes[perm[k]])
    && (forall k :: i < k < |s| ==> perm[k] == k)
    && (forall k :: 0 <= k <= i && k != j ==> perm[k] < i)
    && perm[j] == i
    && Sortable(sort, s)
    && OrderedBelow(sort, s, perm, i + 1, j)
    && (forall l :: j < l <= i ==> Rank(sort, s[j]) < Rank(sort, s[l]))
    && multiset(s) == multiset(recipes)
  }

  function Identity(n: nat): (perm: seq<int>)
    ensures |perm| == n && forall k :: 0 <= k < n ==> perm[k] == k
  {
    seq(n, k => k)
  }

  /** Before the first pass nothing is sorted yet and nothing has moved. */
  lemma EmptyPrefixSorted(sort: string, recipes: seq<Recipe>)
    requires Sortable(sort, recipes)
    ensures SortedPrefix(sort, recipes, recipes, Identity(|recipes|), 0)
  {
  }

  /** After the last pass the whole array is a stable sort of the input. */
  lemma FullPrefixSorted(sort: string, recipes: seq<Recipe>, s: seq<Recipe>, perm: seq<int>, i: int)
    requires SortedPrefix(sort, recipes, s, perm, i) && i == |s|
    ensures StableSortOf(s, recipes, sort, perm)
    ensures multiset(s) == multiset(recipes)
  {
  }

  lemma StartInsertion(sort: string, recipes: seq<Recipe>, s: seq<Recipe>, perm: seq<int>, i: int)
    requires SortedPrefix(sort, recipes, s, perm, i) && i < |s|
    ensures Inserting(sort, recipes, s, perm, i, i)
  {
  }

  /** `s` with the entries at `j - 1` and `j` exchanged. */
  function SwapAt<T>(s: seq<T>, j: int): seq<T>
    requires 0 < j < |s|
  {
    s[j - 1 := s[j]][j := s[j - 1]]
  }

  /** Exchanging two neighbouring entries of a permutation gives a permutation. */
  lemma SwapPermutation(perm: seq<int>, n: int, j: int)
    requires IsPermutation(perm, n) && 0 < j < n
    ensures IsPermutation(SwapAt(perm, j), n)
  {
    var perm' := SwapAt(perm, j);
    forall k, l | 0 <= k < l < n ensures perm'[k] != perm'[l] {
      var k0 := if k == j - 1 then j else if k == j then j - 1 else k;
      var l0 := if l == j - 1 then j else if l == j then j - 1 else l;
      assert perm'[k] == perm[k0] && perm'[l] == perm[l0] && k0 != l0;
    }
  }

  /** Swapping the moving record with a strictly greater left neighbour keeps the order of the others. */
  lemma SwapOrder(sort: string, s: seq<Recipe>, perm: seq<int>, i: int, j: int)
    requires Sortable(sort, s) && |perm| == |s| && 0 < j <= i < |s|
    requires OrderedBelow(sort, s, perm, i + 1, j)
    requires forall l :: j < l <= i ==> Rank(sort, s[j]) < Rank(sort, s[l])
    requires Rank(sort, s[j - 1]) > Rank(sort, s[j])
    ensures Sortable(sort, SwapAt(s, j))
    ensures OrderedBelow(sort, SwapAt(s, j), SwapAt(perm, j), i + 1, j - 1)
    ensures forall l :: j - 1 < l <= i ==> Rank(sort, s[j]) < Rank(sort, SwapAt(s, j)[l])
  {
    var s', perm' := SwapAt(s, j), SwapAt(perm, j);
    assert Sortable(sort, s');
    forall k, l | 0 <= k < l < i + 1 && k != j - 1 && l != j - 1
      ensures Rank(sort, s'[k]) <= Rank(sort, s'[l])
      ensures Rank(sort, s'[k]) == Rank(sort, s'[l]) ==> perm'[k] < perm'[l]
    {
      var k0 := if k == j then j - 1 else k;
      var l0 := if l == j then j - 1 else l;
      assert s'[k] == s[k0] && s'[l] == s[l0] && perm'[k] == perm[k0] && perm'[l] == perm[l0];
    }
  }

  /** Swapping the moving record with a strictly greater left neighbour keeps the inner-loop state. */
  lemma SwapStep(sort: string, recipes: seq<Recipe>, s: seq<Recipe>, perm: seq<int>, i: int, j: int)
    requires Inserting(sort, recipes, s, perm, i, j) && j > 0
    requires Rank(sort, s[j - 1]) > Rank(sort, s[j])
    ensures Inserting(sort, recipes, SwapAt(s, j), SwapAt(perm, j), i, j - 1)
  {
    SwapPermutation(perm, |s|, j);
    SwapOrder(sort, s, perm, i, j);
    SwapTracking(recipes, s, perm, i, j);
  }

  /** The swap moves records and their input positions together, and only inside the prefix. */
  lemma SwapTracking(recipes: seq<Recipe>, s: seq<Recipe>, perm: seq<int>, i: int, j: int)
    requires |s| == |recipes| == |perm| && 0 < j <= i < |s|
    requires forall k :: 0 <= k < |s| ==> 0 <= perm[k] < |s| && s[k] == recipes[perm[k]]
    requires forall k :: i < k < |s| ==> perm[k] == k
    requires forall k :: 0 <= k <= i && k != j ==> perm[k] < i
    requires perm[j] == i
    requires multiset(s) == multiset(recipes)
    ensures forall k :: 0 <= k < |s| ==> SwapAt(s, j)[k] == recipes[SwapAt(perm, j)[k]]
    ensures forall k :: i < k < |s| ==> SwapAt(perm, j)[k] == k
    ensures forall k :: 0 <= k <= i && k != j - 1 ==> SwapAt(perm, j)[k] < i
    ensures SwapAt(perm, j)[j - 1] == i
    ensures multiset(SwapAt(s, j)) == multiset(recipes)
  {
    assert SwapAt(s, j)[j - 1] == s[j];
    assert multiset(SwapAt(s, j)) == multiset(s);
  }

  /** Once the moving record stops, the prefix up to `i` is sorted. */
  lemma FinishInsertion(sort: string, recipes: seq<Recipe>, s: seq<Recipe>, perm: seq<int>, i: int, j: int)
    requires Inserting(sort, recipes, s, perm, i, j)
    requires j > 0 ==> Rank(sort, s[j - 1]) <= Rank(sort, s[j])
    ensures SortedPrefix(sort, recipes, s, perm, i + 1)
  {
    forall k, l | 0 <= k < l < i + 1
      ensures Rank(sort, s[k]) <= Rank(sort, s[l])
      ensures Rank(sort, s[k]) == Rank(sort, s[l]) ==> perm[k] < perm[l]
    {
      if l == j && k < j - 1 {
        assert Rank(sort, s[k]) <= Rank(sort, s[j - 1]);
      }
    }
  }

  /** What a stable sort by each key of the table promises about the result. */
  lemma SortConsequences(r: seq<Recipe>, s: seq<Recipe>, sort: string, perm: seq<int>)
    requires StableSortOf(r, s, sort, perm)
    ensures !IsSortKey(sort) ==> r == s
    ensures sort == CreatedDesc ==> forall k, l :: 0 <= k < l < |r| ==> r[k].createdAt >= r[l].createdAt
    ensures sort == CreatedAsc ==> forall k, l :: 0 <= k < l < |r| ==> r[k].createdAt <= r[l].createdAt
    ensures (sort == TimeAsc || sort == TimeDesc) && CookTimesInRange(s) ==>
      forall k, l :: 0 <= k < l < |r| && r[k].cookTime == None ==> r[l].cookTime == None
  {
    if !IsSortKey(sort) {
      UnknownKeyKeepsOrder(r, s, sort, perm);
    }
    if (sort == TimeAsc || sort == TimeDesc) && CookTimesInRange(s) {
      assert CookTimesInRange(r) by {
        forall k | 0 <= k < |r| ensures r[k] == s[perm[k]] { }
      }
    }
  }

  /** Under a key the table does not know, stability alone fixes the order: nothing moves. */
  lemma {:induction false} UnknownKeyKeepsOrder(r: seq<Recipe>, s: seq<Recipe>, sort: string, perm: seq<int>)
    requires StableSortOf(r, s, sort, perm) && !IsSortKey(sort)
    ensures r == s
  {
    forall k | 0 <= k < |r| ensures perm[k] == k {
      IncreasingPermutation(perm, |r|, k);
    }
  }

  lemma {:induction false} IncreasingPermutation(perm: seq<int>, n: int, k: int)
    requires IsPermutation(perm, n)
    requires forall a, b :: 0 <= a < b < n ==> perm[a] < perm[b]
    requires 0 <= k < n
    ensures perm[k] == k
  {
    BoundBelow(perm, n, k);
    BoundAbove(perm, n, k);
  }

  lemma {:induction false} BoundBelow(perm: seq<int>, n: int, k: int)
    requires IsPermutation(perm, n)
    requires forall a, b :: 0 <= a < b < n ==> perm[a] < perm[b]
    requires 0 <= k < n
    ensures perm[k] >= k
    decreases k
  {
    if k > 0 {
      BoundBelow(perm, n, k - 1);
    }
  }

  lemma {:induction false} BoundAbove(perm: seq<int>, n: int, k: int)
    requires IsPermutation(perm, n)
    requires forall a, b :: 0 <= a < b < n ==> perm[a] < perm[b]
    requires 0 <= k < n
    ensures perm[k] <= k
    decreases n - k
  {
    if k < n - 1 {
      BoundAbove(perm, n, k + 1);
    }
  }

  /**
   * One pass of the in-place sort: moves the record at `i` left past every
   * record that compares strictly greater, so that `a[..i + 1]` is sorted.
   */
  method InsertRecord(a: array<Recipe>, sort: string, i: int, ghost recipes: seq<Recipe>, ghost perm: seq<int>)
    returns (ghost perm': seq<int>)
    requires SortedPrefix(sort, recipes, a[..], perm, i) && i < a.Length
    modifies a
    ensures SortedPrefix(sort, recipes, a[..], perm', i + 1)
  {
    StartInsertion(sort, recipes, a[..], perm, i);
    perm' := perm;
    var j := i;
    while j > 0 && Compare(sort, a[j - 1], a[j]) > 0
      invariant Inserting(sort, recipes, a[..], perm', i, j)
    {
      ghost var s := a[..];
      SwapStep(sort, recipes, s, perm', i, j);
      a[j - 1], a[j] := a[j], a[j - 1];
      assert a[..] == SwapAt(s, j);
      perm' := SwapAt(perm', j);
      j := j - 1;
    }
    FinishInsertion(sort, recipes, a[..], perm', i, j);
  }

  /** `[...recipes]`: a fresh array holding the records, so the caller's list is never touched. */
  method CopyToArray(recipes: seq<Recipe>) returns (a: array<Recipe>)
    ensures fresh(a) && a[..] == recipes
  {
    a := new Recipe[|recipes|];
    var k := 0;
    while k < |recipes|
      invariant 0 <= k <= |recipes| && a[..k] == recipes[..k]
    {
      a[k] := recipes[k];
      k := k + 1;
    }
  }

  /**
   * The body of `Array.prototype.sort` on the copy: insertion sort that moves
   * a record left only past records that compare strictly greater, so the
   * array ends up a stable sort of its old contents.
   */
  method InsertionSort(a: array<Recipe>, sort: string, ghost recipes: seq<Recipe>) returns (ghost perm: seq<int>)
    requires a[..] == recipes && Sortable(sort, recipes)
    modifies a
    ensures StableSortOf(a[..], recipes, sort, perm)
    ensures multiset(a[..]) == multiset(recipes)
  {
    var n := a.Length;
    perm := Identity(n);
    EmptyPrefixSorted(sort, recipes);
    var i := 0;
    while i < n
      invariant SortedPrefix(sort, recipes, a[..], perm, i)
    {
      perm := InsertRecord(a, sort, i, recipes, perm);
      i := i + 1;
    }
    FullPrefixSorted(sort, recipes, a[..], perm, i);
  }

  /**
   * `sortRecipes(recipes, sort)`: copies the list into a fresh array and sorts
   * the copy in place with the comparator for `sort`; the caller's list is
   * never touched.
   */
  method SortRecipes(recipes: seq<Recipe>, sort: string) returns (r: seq<Recipe>, ghost perm: seq<int>)
    requires Sortable(sort, recipes)
    ensures StableSortOf(r, recipes, sort, perm)
    ensures multiset(r) == multiset(recipes)
    ensures !IsSortKey(sort) ==> r == recipes
    ensures sort == CreatedDesc ==> forall k, l :: 0 <= k < l < |r| ==> r[k].createdAt >= r[l].createdAt
    ensures sort == CreatedAsc ==> forall k, l :: 0 <= k < l < |r| ==> r[k].createdAt <= r[l].createdAt
    ensures (sort == TimeAsc || sort == TimeDesc) && CookTimesInRange(recipes) ==>
      forall k, l :: 0 <= k < l < |r| && r[k].cookTime == None ==> r[l].cookTime == None
  {
    var a := CopyToArray(recipes);
    perm := InsertionSort(a, sort, recipes);
    r := a[..];
    SortConsequences(r, recipes, sort, perm);
  }
}
