/**
 * `validateRecipe`: fills a per-field error map step by step. The two title
 * checks write the same key, but at most one of them fires, because an empty
 * trimmed title has length 0.
 */
module Validation {
  import opened Wrappers
  import opened Text
  import opened Recipes

  const TitleRequired: string := "タイトルは必須です"
  const TitleTooLong: string := "20文字以内で入力してください"
  const CookTimeNotNumber: string := "数値で入力してください"
  const CookTimeOutOfRange: string := "0~600分で入力してください"
  const SourceUrlInvalid: string := "URL形式で入力してください"

  const MaxTitleLength: int := 20
  const MaxCookTime: int := 600

  /** The message that ends up under `title`, if any: the length message for over 20 characters, the required message for none. */
  function TitleError(title: string): Option<string> {
    var t := Trim(title);
    if |t| > MaxTitleLength then Some(TitleTooLong)
    else if t == [] then Some(TitleRequired)
    else None
  }

  /** The message under `cookTime`: none for `null`, the number message for NaN/Infinity, else the range message outside [0, 600]. */
  function CookTimeError(cookTime: Option<Num>): Option<string> {
    match cookTime
    case None => None
    case Some(NonFinite) => Some(CookTimeNotNumber)
    case Some(Int(n)) => if n < 0 || n > MaxCookTime then Some(CookTimeOutOfRange) else None
  }

  /** `/^https?:\/\//`: the text starts with `http://` or `https://` (case-sensitive). */
  predicate IsHttpUrl(url: string) {
    "http://" <= url || "https://" <= url
  }

  /** The message under `sourceUrl`: only a present, non-empty URL without the scheme is rejected. */
  function SourceUrlError(sourceUrl: Option<string>): Option<string> {
    if sourceUrl.Some? && sourceUrl.value != "" && !IsHttpUrl(sourceUrl.value) then Some(SourceUrlInvalid)
    else None
  }

  /** No rule fires. */
  predicate Accepts(input: RecipeInput) {
    TitleError(input.title).None? && CookTimeError(input.cookTime).None? && SourceUrlError(input.sourceUrl).None?
  }

  /** `errors` holds `e`'s message under `key` when there is one, and nothing under `key` otherwise. */
  predicate Entry(errors: map<string, string>, key: string, e: Option<string>) {
    if e.Some? then key in errors && errors[key] == e.value else key !in errors
  }

  /** `errors` is the map `validateRecipe` builds for `input`: one entry per failing field and no others. */
  predicate ErrorMapOf(input: RecipeInput, errors: map<string, string>) {
    && errors.Keys <= {"title", "cookTime", "sourceUrl"}
    && Entry(errors, "title", TitleError(input.title))
    && Entry(errors, "cookTime", CookTimeError(input.cookTime))
    && Entry(errors, "sourceUrl", SourceUrlError(input.sourceUrl))
  }

  /** `errors` with `e`'s message stored under `key` when there is one. */
  function Put(errors: map<string, string>, key: string, e: Option<string>): map<string, string> {
    if e.Some? then errors[key := e.value] else errors
  }

  /** The title block: `errors.title` ends up as `TitleError(title)`; other keys are untouched. */
  method CheckTitle(title: string, errors: map<string, string>) returns (r: map<string, string>)
    ensures r == Put(errors, "title", TitleError(title))
  {
    r := errors;
    var t := Trim(title);
    if t == [] {
      r := r["title" := TitleRequired];
    }
    if |t| > MaxTitleLength {
      r := r["title" := TitleTooLong];
    }
  }

  /** The cook-time block: `null` is skipped, a non-finite value and a value outside [0, 600] are reported. */
  method CheckCookTime(cookTime: Option<Num>, errors: map<string, string>) returns (r: map<string, string>)
    ensures r == Put(errors, "cookTime", CookTimeError(cookTime))
  {
    r := errors;
    if cookTime.Some? {
      if cookTime.value.NonFinite? {
        r := r["cookTime" := CookTimeNotNumber];
      } else if cookTime.value.n < 0 || cookTime.value.n > MaxCookTime {
        r := r["cookTime" := CookTimeOutOfRange];
      }
    }
  }

  /** The URL block: a present, non-empty value must start with `http://` or `https://`. */
  method CheckSourceUrl(sourceUrl: Option<string>, errors: map<string, string>) returns (r: map<string, string>)
    ensures r == Put(errors, "sourceUrl", SourceUrlError(sourceUrl))
  {
    r := errors;
    if sourceUrl.Some? && sourceUrl.value != "" && !IsHttpUrl(sourceUrl.value) {
      r := r["sourceUrl" := SourceUrlInvalid];
    }
  }

  /** The three blocks in order, starting from the empty map, leave one entry per reported field and no other key. */
  lemma PutThreeFields(title: Option<string>, cookTime: Option<string>, sourceUrl: Option<string>)
    ensures var m := Put(Put(Put(map[], "title", title), "cookTime", cookTime), "sourceUrl", sourceUrl);
      && m.Keys <= {"title", "cookTime", "sourceUrl"}
      && Entry(m, "title", title) && Entry(m, "cookTime", cookTime) && Entry(m, "sourceUrl", sourceUrl)
  {
    var m1 := Put(map[], "title", title);
    var m2 := Put(m1, "cookTime", cookTime);
    var m3 := Put(m2, "sourceUrl", sourceUrl);
    assert m1.Keys <= {"title"};
    assert m2.Keys <= {"title", "cookTime"};
    assert "title" in m2 <==> "title" in m1;
    assert "title" in m3 <==> "title" in m1;
    assert "cookTime" in m3 <==> "cookTime" in m2;
  }

  /** `validateRecipe(input)`: the error map, and `valid` exactly when it has no entries. */
  method ValidateRecipe(input: RecipeInput) returns (valid: bool, errors: map<string, string>)
    ensures ErrorMapOf(input, errors)
    ensures valid <==> errors == map[]
    ensures valid <==> Accepts(input)
  {
    errors := map[];
    errors := CheckTitle(input.title, errors);
    errors := CheckCookTime(input.cookTime, errors);
    errors := CheckSourceUrl(input.sourceUrl, errors);
    PutThreeFields(TitleError(input.title), CookTimeError(input.cookTime), SourceUrlError(input.sourceUrl));
    valid := |errors| == 0;
    assert valid <==> errors == map[] by {
      if |errors| == 0 {
        assert errors.Keys == {};
      }
    }
    EmptyIffAccepted(input, errors);
  }

  /** The rules determine the error map completely: two maps that both fit `input` are the same. */
  lemma ErrorMapUnique(input: RecipeInput, e1: map<string, string>, e2: map<string, string>)
    requires ErrorMapOf(input, e1) && ErrorMapOf(input, e2)
    ensures e1 == e2
  {
    assert e1.Keys == e2.Keys;
  }

  /** The error map is empty exactly when the input is accepted. */
  lemma EmptyIffAccepted(input: RecipeInput, errors: map<string, string>)
    requires ErrorMapOf(input, errors)
    ensures errors == map[] <==> Accepts(input)
  {
    if errors != map[] {
      var key :| key in errors;
    }
  }

  /**
   * The title rules: a blank title gets the required message; a trimmed
   * title longer than 20 gets the length message; 1 to 20 characters pass.
   */
  lemma TitleRules(title: string)
    ensures IsBlank(title) ==> TitleError(title) == Some(TitleRequired)
    ensures |Trim(title)| > 20 ==> TitleError(title) == Some(TitleTooLong)
    ensures 1 <= |Trim(title)| <= 20 <==> TitleError(title).None?
  {
    TrimIsInnerSlice(title);
  }

  /** The cook-time rules: `null` and every integer in [0, 600] pass; NaN gets the number message; the rest the range message. */
  lemma CookTimeRules(cookTime: Option<Num>)
    ensures cookTime.None? ==> CookTimeError(cookTime).None?
    ensures cookTime == Some(NonFinite) ==> CookTimeError(cookTime) == Some(CookTimeNotNumber)
    ensures cookTime.Some? && cookTime.value.Int? ==>
      (CookTimeError(cookTime).None? <==> 0 <= cookTime.value.n <= 600)
    ensures CookTimeError(Some(Int(0))).None? && CookTimeError(Some(Int(600))).None?
    ensures CookTimeError(Some(Int(-1))) == Some(CookTimeOutOfRange)
    ensures CookTimeError(Some(Int(601))) == Some(CookTimeOutOfRange)
  {
  }

  /** The URL rule: absent or empty passes; otherwise it passes iff it starts with `http://` or `https://`. */
  lemma SourceUrlRules(sourceUrl: Option<string>)
    ensures (sourceUrl.None? || sourceUrl == Some("")) ==> SourceUrlError(sourceUrl).None?
    ensures sourceUrl.Some? && sourceUrl.value != "" ==>
      (SourceUrlError(sourceUrl).None? <==> ("http://" <= sourceUrl.value || "https://" <= sourceUrl.value))
  {
  }

  /** What an accepted input guarantees about the record built from it. */
  lemma AcceptedInputIsWellFormed(input: RecipeInput)
    requires Accepts(input)
    ensures 1 <= |Trim(input.title)| <= 20
    ensures input.cookTime.Some? ==> input.cookTime.value.Int? && 0 <= input.cookTime.value.n <= 600
    ensures input.sourceUrl.Some? && input.sourceUrl.value != "" ==> IsHttpUrl(input.sourceUrl.value)
  {
  }

  /** Examples: a 21-character title, cook times 700 and NaN, and an `ftp://` URL are rejected; `https://x` passes. */
  lemma ValidationExamples()
    ensures TitleError("abcdefghijklmnopqrstu") == Some(TitleTooLong)
    ensures TitleError("abcdefghijklmnopqrst").None?
    ensures TitleError("   ") == Some(TitleRequired)
    ensures CookTimeError(Some(Int(700))) == Some(CookTimeOutOfRange)
    ensures CookTimeError(Some(NonFinite)) == Some(CookTimeNotNumber)
    ensures SourceUrlError(Some("ftp://x")) == Some(SourceUrlInvalid)
    ensures SourceUrlError(Some("https://x")).None?
  {
    assert Trim("abcdefghijklmnopqrstu") == "abcdefghijklmnopqrstu";
    assert Trim("abcdefghijklmnopqrst") == "abcdefghijklmnopqrst";
    TitleRules("   ");
    assert !("http://" <= "ftp://x") by { assert "ftp://x"[0] == 'f'; }
    assert !("https://" <= "ftp://x") by { assert "ftp://x"[0] == 'f'; }
    assert "https://" <= "https://x";
  }
}
