/** The equality filter the list operation hands to both store queries. */
module QueryFilter {
  import opened Wrappers
  import opened JsValues

  const CATEGORY := "category"
  const LANGUAGE := "language"

  /** A store filter: each key must equal its value. */
  type Filter = map<string, string>

  /** Starts from the empty object and adds `category` and then `language` only when the
      parameter is truthy (present and non-empty). */
  function Build(category: Option<string>, language: Option<string>): (q: Filter)
    ensures CATEGORY in q <==> Present(category)
    ensures CATEGORY in q ==> q[CATEGORY] == category.value
    ensures LANGUAGE in q <==> Present(language)
    ensures LANGUAGE in q ==> q[LANGUAGE] == language.value
    ensures q.Keys <= {CATEGORY, LANGUAGE}
  {
    var empty: Filter := map[];
    var withCategory := if Present(category) then empty[CATEGORY := category.value] else empty;
    if Present(language) then withCategory[LANGUAGE := language.value] else withCategory
  }

  /** A store record matches a filter when it holds each filtered key with the same string. */
  predicate Matches(record: Doc, q: Filter) {
    forall k :: k in q ==> k in record && record[k] == Str(q[k])
  }

  /** Without a truthy category or language the filter is `{}` and every record matches it. */
  lemma NoParametersMatchAll(category: Option<string>, language: Option<string>, record: Doc)
    requires !Present(category) && !Present(language)
    ensures Build(category, language) == map[]
    ensures Matches(record, Build(category, language))
  {
  }

  /** With `category` alone, a record matches exactly when its `category` is that string. */
  lemma CategoryOnly(category: string, language: Option<string>, record: Doc)
    requires category != "" && !Present(language)
    ensures Matches(record, Build(Some(category), language))
      <==> CATEGORY in record && record[CATEGORY] == Str(category)
  {
    var q := Build(Some(category), language);
    assert q.Keys == {CATEGORY};
  }
}
