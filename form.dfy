/**
 * The submit path of the recipe form: building the candidate record from the
 * text fields, the validation gate in front of `onAdd`, and the reset of the
 * fields after a successful add.
 */
module Form {
  import opened Wrappers
  import opened Text
  import opened Seqs
  import opened Recipes
  import opened Validation

  /** The nine text fields of the form, as typed. */
  datatype FormFields = FormFields(
    title: string,
    category: string,
    status: string,
    ingredientsText: string,
    stepsText: string,
    cookTime: string,
    servings: string,
    sourceUrl: string,
    notes: string)

  /** The fields of a fresh form: category `main`, status `want`, every text field empty. */
  const Blank: FormFields := FormFields("", "main", "want", "", "", "", "", "", "")

  /** Every line, trimmed: `text.split("\n").map(s => s.trim())`. */
  function TrimmedLines(text: string): seq<string> {
    TrimEach(Split(text))
  }

  /** `parts.map(s => s.trim())`. */
  function TrimEach(parts: seq<string>): (r: seq<string>)
    ensures |r| == |parts|
    ensures forall k :: 0 <= k < |r| ==> r[k] == Trim(parts[k])
  {
    if parts == [] then [] else [Trim(parts[0])] + TrimEach(parts[1..])
  }

  /** `Boolean(s)` for a string: non-empty. */
  predicate NonEmpty(s: string) {
    s != []
  }

  /** `text.split("\n").map(s => s.trim()).filter(Boolean)`: the non-empty trimmed lines. */
  function Lines(text: string): seq<string> {
    Keep(TrimmedLines(text), NonEmpty)
  }

  /** Every item of `Lines(text)` is non-empty, has no white space at either end and lies within one line. */
  lemma LinesAreTrimmed(text: string)
    ensures forall k :: 0 <= k < |Lines(text)| ==>
      Lines(text)[k] != [] && Trim(Lines(text)[k]) == Lines(text)[k] && '\n' !in Lines(text)[k]
  {
    var r := Lines(text);
    var parts := Split(text);
    KeepSelects(TrimmedLines(text), NonEmpty);
    forall k | 0 <= k < |r| ensures r[k] != [] && Trim(r[k]) == r[k] && '\n' !in r[k] {
      var m := KeptIndices(TrimmedLines(text), NonEmpty)[k];
      assert r[k] == Trim(parts[m]);
      TrimIdempotent(parts[m]);
      TrimIsInnerSlice(parts[m]);
      assert '\n' !in parts[m];
    }
  }

  /**
   * The lines keep their order: `Lines(text)` is the trimmed lines at
   * increasing positions, and a line is among them iff it is not blank.
   */
  lemma LinesInOrder(text: string)
    ensures var idx := KeptIndices(TrimmedLines(text), NonEmpty);
      && OrderedSelection(Lines(text), TrimmedLines(text), idx)
      && forall i :: 0 <= i < |TrimmedLines(text)| ==> (i in idx <==> !IsBlank(Split(text)[i]))
  {
    KeepSelects(TrimmedLines(text), NonEmpty);
    KeptIndicesExact(TrimmedLines(text), NonEmpty);
    forall i | 0 <= i < |TrimmedLines(text)| ensures TrimmedLines(text)[i] != [] <==> !IsBlank(Split(text)[i]) {
      TrimIsInnerSlice(Split(text)[i]);
    }
  }

  /**
   * Typing the items one per line gives them back: for non-empty, trimmed,
   * newline-free items, `Lines` of their newline join is the items themselves.
   */
  lemma LinesRoundTrip(items: seq<string>)
    requires |items| >= 1
    requires forall k :: 0 <= k < |items| ==> items[k] != [] && Trim(items[k]) == items[k] && '\n' !in items[k]
    ensures Lines(Join(items)) == items
  {
    SplitJoin(items);
    assert TrimmedLines(Join(items)) == items;
    KeepAll(items, NonEmpty);
  }

  /** `text === "" ? null : Number(text)`; the `Number` coercion is the parameter `toNumber`. */
  function NumberOrNull(text: string, toNumber: string -> Num): Option<Num> {
    if text == "" then None else Some(toNumber(text))
  }

  /** `text || undefined`. */
  function TextOrUndefined(text: string): Option<string> {
    if text == "" then None else Some(text)
  }

  /**
   * The candidate record `handleSubmit` builds. Lists hold the non-empty
   * trimmed lines; empty number fields become `null`, empty URL and notes
   * `undefined`; the title is passed as typed.
   */
  function BuildInput(f: FormFields, toNumber: string -> Num): (input: RecipeInput)
    ensures input.title == f.title && input.category == f.category && input.status == f.status
    ensures forall k :: 0 <= k < |input.ingredients| ==> input.ingredients[k] != [] && Trim(input.ingredients[k]) == input.ingredients[k]
    ensures forall k :: 0 <= k < |input.steps| ==> input.steps[k] != [] && Trim(input.steps[k]) == input.steps[k]
    ensures input.ingredients == Lines(f.ingredientsText) && input.steps == Lines(f.stepsText)
    ensures input.cookTime == (if f.cookTime == "" then None else Some(toNumber(f.cookTime)))
    ensures input.servings == (if f.servings == "" then None else Some(toNumber(f.servings)))
    ensures input.sourceUrl.None? <==> f.sourceUrl == ""
    ensures input.sourceUrl.Some? ==> input.sourceUrl.value == f.sourceUrl
    ensures input.notes.None? <==> f.notes == ""
    ensures input.notes.Some? ==> input.notes.value == f.notes
  {
    LinesAreTrimmed(f.ingredientsText);
    LinesAreTrimmed(f.stepsText);
    RecipeInput(
      f.title,
      f.category,
      f.status,
      Lines(f.ingredientsText),
      Lines(f.stepsText),
      NumberOrNull(f.cookTime, toNumber),
      NumberOrNull(f.servings, toNumber),
      TextOrUndefined(f.sourceUrl),
      TextOrUndefined(f.notes))
  }

  /** The form component's state: its nine fields and the error map it displays. */
  class RecipeForm {
    var title: string
    var category: string
    var status: string
    var ingredientsText: string
    var stepsText: string
    var cookTime: string
    var servings: string
    var sourceUrl: string
    var notes: string
    var errors: map<string, string>

    /** The nine text fields as one value. */
    function Fields(): FormFields
      reads this`title, this`category, this`status, this`ingredientsText, this`stepsText
      reads this`cookTime, this`servings, this`sourceUrl, this`notes
    {
      FormFields(title, category, status, ingredientsText, stepsText, cookTime, servings, sourceUrl, notes)
    }

    /** A fresh form: the blank fields and no errors. */
    constructor ()
      ensures Fields() == Blank && errors == map[]
    {
      title, category, status := "", "main", "want";
      ingredientsText, stepsText := "", "";
      cookTime, servings, sourceUrl, notes := "", "", "", "";
      errors := map[];
    }

    /**
     * `handleSubmit`: builds the input and validates it. On failure the
     * errors are shown, `onAdd` is not called and the fields are kept. On
     * success the errors are cleared, `onAdd` receives the input exactly once
     * (the returned value) and the fields are reset.
     */
    method Submit(toNumber: string -> Num) returns (added: Option<RecipeInput>)
      modifies this
      ensures added.Some? <==> Accepts(old(BuildInput(Fields(), toNumber)))
      ensures added.Some? ==> added.value == old(BuildInput(Fields(), toNumber))
      ensures added.Some? ==> errors == map[] && Fields() == Blank
      ensures added.None? ==> ErrorMapOf(old(BuildInput(Fields(), toNumber)), errors) && Fields() == old(Fields())
    {
      var input := BuildInput(Fields(), toNumber);
      var valid, result := ValidateRecipe(input);
      if !valid {
        errors := result;
        return None;
      }
      errors := map[];
      added := Some(input);
      Reset();
    }

    /** The nine setter calls after `onAdd`: back to the blank fields; the error map is kept. */
    method Reset()
      modifies this
      ensures Fields() == Blank && errors == old(errors)
    {
      title, category, status := "", "main", "want";
      ingredientsText, stepsText := "", "";
      cookTime, servings, sourceUrl, notes := "", "", "", "";
    }
  }
}
