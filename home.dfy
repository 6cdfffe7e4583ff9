/**
 * The home page: the URL-state codec (`paramsToState` / `stateToParams`),
 * the handlers that replace the record list and the filter state, and the
 * derived visible list `sortRecipes(filterRecipes(...), filters.sort)`.
 *
 * The codec's keys do not line up: `paramsToState` fills `cat` and `st`,
 * while `stateToParams` and the filter call read `category` and `status`.
 * The model keeps both pairs of fields, as the page does.
 */
module Home {
  import opened Wrappers
  import opened Seqs
  import opened Recipes
  import opened Logic

  /** The page's filter object. `cat`/`st` come from the URL; `category`/`status` from the dropdowns. */
  datatype Filters = Filters(
    q: string,
    cat: Option<string>,
    st: Option<string>,
    category: Option<string>,
    status: Option<string>,
    sort: Option<string>)

  /** The URL query parameters, one value per key. */
  type Params = map<string, string>

  /** JavaScript truthiness of an optional string: present and non-empty. */
  predicate Truthy(o: Option<string>) {
    o.Some? && o.value != ""
  }

  /** `p.get(key) || undefined`: the parameter when present and non-empty. */
  function NonEmptyParam(p: Params, key: string): Option<string> {
    if key in p && p[key] != "" then Some(p[key]) else None
  }

  /**
   * `paramsToState(p)`: `q` defaults to "", `cat` and `st` to unset, `sort`
   * to created-desc; `category` and `status` are never set.
   */
  function ParamsToState(p: Params): (s: Filters)
    ensures "q" in p ==> s.q == p["q"]
    ensures "q" !in p ==> s.q == ""
    ensures s.cat.Some? <==> "cat" in p && p["cat"] != ""
    ensures s.st.Some? <==> "st" in p && p["st"] != ""
    ensures s.cat.Some? ==> s.cat.value == p["cat"]
    ensures s.st.Some? ==> s.st.value == p["st"]
    ensures Truthy(s.sort)
    ensures "sort" !in p || p["sort"] == "" ==> s.sort == Some(CreatedDesc)
    ensures "sort" in p && p["sort"] != "" ==> s.sort == Some(p["sort"])
    ensures s.category == None && s.status == None
  {
    Filters(
      if "q" in p then p["q"] else "",
      NonEmptyParam(p, "cat"),
      NonEmptyParam(p, "st"),
      None,
      None,
      Some(if "sort" in p && p["sort"] != "" then p["sort"] else CreatedDesc))
  }

  /** `p` holds `value` under `key` when `present`, and nothing under `key` otherwise. */
  predicate Carries(p: Params, key: string, present: bool, value: string) {
    if present then key in p && p[key] == value else key !in p
  }

  /**
   * `p` is what `stateToParams(s)` builds: `q` when non-empty, `cat` when
   * `category` is set, `st` when `status` is set, `sort` when set and not the
   * default, and no other key.
   */
  predicate Encodes(s: Filters, p: Params) {
    && p.Keys <= {"q", "cat", "st", "sort"}
    && Carries(p, "q", s.q != "", s.q)
    && Carries(p, "cat", Truthy(s.category), s.category.GetOr(""))
    && Carries(p, "st", Truthy(s.status), s.status.GetOr(""))
    && Carries(p, "sort", Truthy(s.sort) && s.sort.value != CreatedDesc, s.sort.GetOr(""))
  }

  /** `stateToParams(s)`: starts from no parameters and sets them one by one. */
  method StateToParams(s: Filters) returns (p: Params)
    ensures Encodes(s, p)
  {
    p := map[];
    if s.q != "" {
      p := p["q" := s.q];
    }
    if Truthy(s.category) {
      p := p["cat" := s.category.value];
    }
    if Truthy(s.status) {
      p := p["st" := s.status.value];
    }
    if Truthy(s.sort) && s.sort.value != CreatedDesc {
      p := p["sort" := s.sort.value];
    }
  }

  /** The parameters of a state are fully determined: two encodings of `s` are equal. */
  lemma EncodingUnique(s: Filters, p1: Params, p2: Params)
    requires Encodes(s, p1) && Encodes(s, p2)
    ensures p1 == p2
  {
    assert p1.Keys == p2.Keys;
  }

  /**
   * Decoding an encoding gives back `q` and the sort (created-desc when
   * unset); the chosen category and status come back under `cat` and `st`,
   * not under the `category` and `status` fields the filter reads.
   */
  lemma RoundTrip(s: Filters, p: Params)
    requires Encodes(s, p)
    ensures ParamsToState(p).q == s.q
    ensures ParamsToState(p).sort == (if Truthy(s.sort) then s.sort else Some(CreatedDesc))
    ensures ParamsToState(p).cat == (if Truthy(s.category) then s.category else None)
    ensures ParamsToState(p).st == (if Truthy(s.status) then s.status else None)
    ensures ParamsToState(p).category == None && ParamsToState(p).status == None
  {
  }

  /** Re-encoding a state decoded from the URL drops `cat` and `st`: only `q` and `sort` survive. */
  lemma ReencodingDropsCategory(p: Params, p2: Params)
    requires Encodes(ParamsToState(p), p2)
    ensures "cat" !in p2 && "st" !in p2
    ensures p2.Keys <= {"q", "sort"}
  {
  }

  /** A filter state decoded from the URL restricts by text only: category and status are ignored. */
  lemma DecodedStateIgnoresCategory(recipes: seq<Recipe>, q: string, p: Params)
    ensures var s := ParamsToState(p);
      var r := FilterRecipes(recipes, q, s.category, s.status);
      && (forall k :: 0 <= k < |r| ==> TextOk(r[k], PrepareQuery(q)))
      && (forall k :: 0 <= k < |recipes| && TextOk(recipes[k], PrepareQuery(q)) ==> recipes[k] in r)
  {
    NoCategoryNoStatus(recipes, q);
  }

  /** Example: {q: "egg", category: "main", sort: created-desc} encodes to `q=egg&cat=main`, which decodes with `cat` set. */
  lemma EggMainExample(p: Params)
    requires Encodes(Filters("egg", None, None, Some("main"), None, Some(CreatedDesc)), p)
    ensures p == map["q" := "egg", "cat" := "main"]
    ensures ParamsToState(p) == Filters("egg", Some("main"), None, None, None, Some(CreatedDesc))
  {
    assert p.Keys == {"q", "cat"};
  }

  /** `prev.filter(r => r.id !== id)`. */
  function WithoutId(rs: seq<Recipe>, id: string): seq<Recipe> {
    Keep(rs, (r: Recipe) => r.id != id)
  }

  /** Deleting keeps, in order, exactly the records with another id. */
  lemma WithoutIdIsSubsequence(rs: seq<Recipe>, id: string)
    ensures var idx := KeptIndices(rs, (r: Recipe) => r.id != id);
      && OrderedSelection(WithoutId(rs, id), rs, idx)
      && forall i :: 0 <= i < |rs| ==> (i in idx <==> rs[i].id != id)
    ensures forall k :: 0 <= k < |WithoutId(rs, id)| ==> WithoutId(rs, id)[k].id != id
  {
    var p := (r: Recipe) => r.id != id;
    KeepSelects(rs, p);
    KeptIndicesExact(rs, p);
  }

  /** Removing records keeps ids unique and cook times finite. */
  lemma {:induction false} WithoutIdKeepsInvariant(rs: seq<Recipe>, id: string)
    requires UniqueIds(rs) && FiniteCookTimes(rs)
    ensures UniqueIds(WithoutId(rs, id)) && FiniteCookTimes(WithoutId(rs, id))
    decreases |rs|
  {
    if rs != [] {
      WithoutIdKeepsInvariant(rs[1..], id);
      var tail := WithoutId(rs[1..], id);
      KeepMembers(rs[1..], (r: Recipe) => r.id != id);
      assert forall k :: 0 <= k < |tail| ==> tail[k] in rs[1..];
      if rs[0].id != id {
        assert WithoutId(rs, id) == [rs[0]] + tail;
        forall k | 0 <= k < |tail| ensures tail[k].id != rs[0].id {
          var m :| 0 <= m < |rs[1..]| && rs[1..][m] == tail[k];
          assert rs[m + 1] == tail[k];
        }
      }
    }
  }

  /** With unique ids, deleting an id that is present removes exactly one record. */
  lemma {:induction false} DeleteRemovesOne(rs: seq<Recipe>, id: string)
    requires UniqueIds(rs)
    requires exists k :: 0 <= k < |rs| && rs[k].id == id
    ensures |WithoutId(rs, id)| == |rs| - 1
    decreases |rs|
  {
    if rs[0].id == id {
      KeepAll(rs[1..], (r: Recipe) => r.id != id);
    } else {
      var k :| 0 <= k < |rs| && rs[k].id == id;
      assert rs[1..][k - 1].id == id;
      DeleteRemovesOne(rs[1..], id);
    }
  }

  /** The sort key the page passes: `filters.sort`, where an unset sort is looked up as the key "undefined". */
  function SortKeyOf(sort: Option<string>): string {
    sort.GetOr("undefined")
  }

  /** The home page's state: the record list, the filter object and the URL parameters. */
  class HomePage {
    var recipes: seq<Recipe>
    var filters: Filters
    var params: Params

    /** Ids are unique and no stored cook time is NaN. */
    ghost predicate Valid()
      reads this
    {
      UniqueIds(recipes) && FiniteCookTimes(recipes)
    }

    /** Mounting: the stored list, the current URL parameters, and the filters decoded from them. */
    constructor (stored: seq<Recipe>, initial: Params)
      requires UniqueIds(stored) && FiniteCookTimes(stored)
      ensures Valid()
      ensures recipes == stored && params == initial && filters == ParamsToState(initial)
    {
      recipes := stored;
      params := initial;
      filters := ParamsToState(initial);
    }

    /**
     * `handleAdd(input)`: prepends the new record. The random UUID and the
     * clock reading are parameters; the id must be fresh.
     */
    method Add(input: RecipeInput, id: string, now: int)
      requires Valid()
      requires forall k :: 0 <= k < |recipes| ==> recipes[k].id != id
      requires input.cookTime != Some(NonFinite)
      modifies this
      ensures Valid()
      ensures |recipes| == |old(recipes)| + 1
      ensures recipes[0] == NewRecipe(input, id, now) && recipes[1..] == old(recipes)
      ensures filters == old(filters) && params == old(params)
    {
      recipes := [NewRecipe(input, id, now)] + recipes;
    }

    /** `handleDelete(id)`: when the user confirms, keeps only the records with another id; otherwise nothing changes. */
    method Delete(id: string, confirmed: bool)
      requires Valid()
      modifies this
      ensures Valid()
      ensures recipes == if confirmed then WithoutId(old(recipes), id) else old(recipes)
      ensures filters == old(filters) && params == old(params)
    {
      if confirmed {
        WithoutIdKeepsInvariant(recipes, id);
        recipes := WithoutId(recipes, id);
      }
    }

    /** `handleFilterChange(next)`: the filters become `next` and the URL its encoding. */
    method FilterChange(next: Filters)
      modifies this
      ensures filters == next && Encodes(next, params)
      ensures recipes == old(recipes)
    {
      filters := next;
      params := StateToParams(next);
    }

    /** The effect that re-derives the filters whenever the URL parameters change. */
    method SyncFromParams()
      modifies this
      ensures filters == ParamsToState(params)
      ensures recipes == old(recipes) && params == old(params)
    {
      filters := ParamsToState(params);
    }

    /**
     * A dropdown change as the page runs it: the handler, then the effect its
     * new URL triggers. The chosen category and status end up in `cat` and
     * `st` only, so the visible list is no longer restricted by them. This
     * assumes the new parameters differ from the old ones, so the effect runs.
     */
    method ChangeFilterThenSync(next: Filters)
      modifies this
      ensures filters.category == None && filters.status == None
      ensures filters.cat == (if Truthy(next.category) then next.category else None)
      ensures filters.st == (if Truthy(next.status) then next.status else None)
      ensures filters.q == next.q
      ensures filters.sort == (if Truthy(next.sort) then next.sort else Some(CreatedDesc))
      ensures Encodes(next, params) && filters == ParamsToState(params)
      ensures recipes == old(recipes)
    {
      FilterChange(next);
      SyncFromParams();
      RoundTrip(next, params);
    }

    /** The list on screen: the filtered records, stably sorted by the current sort key. */
    method Visible(q: string) returns (v: seq<Recipe>, ghost perm: seq<int>)
      requires FiniteCookTimes(recipes)
      ensures StableSortOf(v, FilterRecipes(recipes, q, filters.category, filters.status), SortKeyOf(filters.sort), perm)
      ensures multiset(v) == multiset(FilterRecipes(recipes, q, filters.category, filters.status))
      ensures filters.sort == Some(CreatedDesc) ==> forall k, l :: 0 <= k < l < |v| ==> v[k].createdAt >= v[l].createdAt
    {
      var filtered := FilterRecipes(recipes, q, filters.category, filters.status);
      assert Sortable(SortKeyOf(filters.sort), filtered) by {
        forall k | 0 <= k < |filtered| ensures filtered[k].cookTime != Some(NonFinite) {
          assert filtered[k] in recipes;
        }
      }
      v, perm := SortRecipes(filtered, SortKeyOf(filters.sort));
    }
  }
}
