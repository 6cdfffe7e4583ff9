/** The recipe record and the form's candidate record. */
module Recipes {
  import opened Wrappers

  /** A JavaScript number as the recipe code sees it: an integer, or NaN / an infinity. */
  datatype Num = Int(n: int) | NonFinite

  /**
   * The candidate record the form hands to `onAdd`: everything but `id` and `createdAt`.
   * `None` stands for `null` / `undefined`.
   */
  datatype RecipeInput = RecipeInput(
    title: string,
    category: string,
    status: string,
    ingredients: seq<string>,
    steps: seq<string>,
    cookTime: Option<Num>,
    servings: Option<Num>,
    sourceUrl: Option<string>,
    notes: Option<string>)

  /**
   * A stored recipe. Records read back from storage may lack `ingredients`,
   * `steps` or `notes`, so those are optional here.
   */
  datatype Recipe = Recipe(
    id: string,
    title: string,
    category: string,
    status: string,
    ingredients: Option<seq<string>>,
    steps: Option<seq<string>>,
    cookTime: Option<Num>,
    servings: Option<Num>,
    sourceUrl: Option<string>,
    notes: Option<string>,
    createdAt: int)

  /** `{ ...input, id, createdAt }`: the input's fields plus the assigned identity and timestamp. */
  function NewRecipe(input: RecipeInput, id: string, createdAt: int): Recipe {
    Recipe(id, input.title, input.category, input.status, Some(input.ingredients), Some(input.steps),
           input.cookTime, input.servings, input.sourceUrl, input.notes, createdAt)
  }

  /** No two records share an id. */
  predicate UniqueIds(rs: seq<Recipe>) {
    forall i, j :: 0 <= i < j < |rs| ==> rs[i].id != rs[j].id
  }

  /** No record's `cookTime` is NaN or infinite (JSON cannot even store one). */
  predicate FiniteCookTimes(rs: seq<Recipe>) {
    forall i :: 0 <= i < |rs| ==> rs[i].cookTime != Some(NonFinite)
  }
}
