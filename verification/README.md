# gimme_wikidata search results, in Dafny

This project models the search-result objects of the `gimme_wikidata` Ruby
gem. A knowledge-base search gives back a `Search`. It holds a success flag
taken from the response's raw success code, the search term echoed
verbatim, and an ordered list of `SearchResult` hits. Each hit has an
identifier, a label and a description, either of which may be `nil`. It also
has a `type` that the constructor derives from the identifier's first
character: `Item` for `Q`, `Property` for `P`, `:unknown_type` otherwise.

The model is functional. Ruby objects become immutable datatypes.
Attribute writers become functions that return an updated copy. `nil`
becomes `Options.None`.

- `options.dfy`: module `Options` holds `Option` and `First`, which models Ruby's `Array#first`.
- `search_result.dfy`: module `SearchResults` holds `EntityKind`, the
  identifier classifier, the `SearchResult` record and its writers, and the
  predicate that the recorded kind matches the identifier.
- `search.dfy`: module `Searches` holds the raw success code, the `Search`
  record, its constructor, the `results=` writer and the `empty?` and
  `top_result` queries.

Two facts about the code shape the model:

- `Classify` is total. For the empty identifier `""[0]` is `nil`, which
  matches neither `'Q'` nor `'P'`, so the kind is `Unknown`.
- The `Search` class in lib/gimme_wikidata/search.rb has no `error`
  attribute, so the model has none. test/parser_test.rb:43 calls
  `search.error`, which that class does not define.

## Model

| member | source | states |
|---|---|---|
| SearchResults.Classify | lib/gimme_wikidata/search.rb:46-53 | The kind is `Item` exactly when the first character is `Q` and `Property` exactly when it is `P`. Otherwise it is `Unknown`, including for the empty identifier. The match is case-sensitive. |
| SearchResults.ClassifyMatchesPrefix | lib/gimme_wikidata/search.rb:46-53 | The classifier agrees with a prefix definition in both directions: `Item` holds iff the id is "Q" followed by anything, `Property` iff "P" followed by anything, and `Unknown` iff neither. |
| SearchResults.OnlyFirstCharacterMatters | lib/gimme_wikidata/search.rb:46-53 | Appending any suffix to a non-empty id leaves its kind unchanged, and the kind equals the kind of the first character alone. So "Qabc" is an item just as "Q42" is. |
| SearchResults.NewSearchResult | lib/gimme_wikidata/search.rb:41-53 | The id, label and description are stored verbatim, and an absent label or description stays absent. The kind is `Item`, `Property` or `Unknown` by the first-character rule. |
| SearchResults.WithId | lib/gimme_wikidata/search.rb:39 | The `id=` writer replaces the id. Kind, label and description stay the same, so the kind is not recomputed. |
| SearchResults.WithKind | lib/gimme_wikidata/search.rb:39 | The `type=` writer replaces the kind and keeps the other three attributes. |
| SearchResults.WithLabel | lib/gimme_wikidata/search.rb:39 | The `label=` writer replaces the label and keeps the other three attributes. |
| SearchResults.WithDescription | lib/gimme_wikidata/search.rb:39 | The `description=` writer replaces the description and keeps the other three attributes. |
| SearchResults.ConstructionClassifies | lib/gimme_wikidata/search.rb:39-53 | A newly built hit records the kind its id classifies as. Reassigning its label or description keeps that true. |
| SearchResults.LabelWritersPreserveClassification | lib/gimme_wikidata/search.rb:39 | For any hit whose recorded kind matches its id, the `label=` and `description=` writers keep it matching. |
| SearchResults.RetypeClassifiesIff | lib/gimme_wikidata/search.rb:39 | After the `type=` writer a hit's kind matches its id exactly when the assigned kind is the one the id classifies as. |
| SearchResults.RenamePreservesClassificationIff | lib/gimme_wikidata/search.rb:39-53 | Giving a well-classified hit a new id keeps its kind correct exactly when the new id classifies like the old one. |
| SearchResults.RenameCanLeaveKindStale | lib/gimme_wikidata/search.rb:39-53 | Renaming the hit "Q1" to "P1" leaves its kind as `Item` although "P1" classifies as `Property`. |
| Searches.SuccessCodeIsOnlyOne | lib/gimme_wikidata/search.rb:14 | A raw code is a success code exactly when it is the integer 1. |
| Searches.NewSearch | lib/gimme_wikidata/search.rb:12-16 | The constructor keeps the term verbatim and sets success exactly for the code 1. The result list starts empty. |
| Searches.NewSearchSucceedsIff | lib/gimme_wikidata/search.rb:12-20 | `was_successful?` on a new search holds iff the code is 1. The codes 0, nil, 2, the string "1" and `true` all give false. |
| Searches.WithResults | lib/gimme_wikidata/search.rb:10 | The `results=` writer replaces the hit list and keeps the term and the success flag. |
| Searches.Count | lib/gimme_wikidata/search.rb:23 | Counting the hits one by one gives the length of the list. |
| Searches.IsEmpty | lib/gimme_wikidata/search.rb:22-24 | `empty?` holds exactly when there are no hits. |
| Searches.TopResult | lib/gimme_wikidata/search.rb:26-28 | `top_result` is `nil` exactly when there are no hits, and otherwise it is the first hit. |
| Options.First | lib/gimme_wikidata/search.rb:27 | `first` is absent exactly for the empty list, and otherwise it is the element at index 0, which belongs to the list. |
| Searches.NewSearchIsEmpty | lib/gimme_wikidata/search.rb:15-28 | Right after construction a search is empty and has no top result. |
| Searches.AssignedResultsAreObserved | lib/gimme_wikidata/search.rb:10-28 | After any list is assigned, `empty?` holds iff that list has length zero, and `top_result` is its first element. The term and success flag are unchanged. |
| Searches.EmptyIffNoTopResult | lib/gimme_wikidata/search.rb:22-28 | A search is empty exactly when it has no top result, and any top result is one of its hits. |

## Left out

- Identifiers are modelled as strings only. A `nil` id makes Ruby raise on `@id[0]`, and an integer id indexes its bits. Neither case is modelled.
- SearchResults.WithKind: `type=` is modelled only for the three kinds `Item`, `Property` and `Unknown`. Ruby stores any object, so `hit.type = :item` gives a kind none of the three describes.
- SearchResults.NewSearchResult: the label and description are modelled as optional strings. Ruby's constructor and `label=`/`description=` writers store any object.
- The search term is modelled as a string. Ruby stores whatever object it is given.
- The result list holds `SearchResult`s only. Ruby's `results=` accepts any array, including one whose first element is `nil`. For such an array `top_result` is `nil` but `empty?` is false.
- The raw success code covers `nil`, integers, strings and booleans. Ruby also treats the float `1.0` as equal to `1`, and floating point is not modelled.
- `was_successful?` is a plain accessor, so `Searches.WasSuccessful` has no contract of its own. Its behaviour is stated by `Searches.NewSearchSucceedsIff`.
- The response parser (`parse_search_response`, `parse_entity_response`, `parse_snak`), entity results, items, properties, claims and the calendar-date values are not part of this model.
- `valid_ids?` is not part of this model. `Item` and `Property` appear only as the tags of `EntityKind`.
- HTTP fetching, JSON decoding and the test fixtures are I/O and are left out.
