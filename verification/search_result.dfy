/** One hit of a knowledge-base search: an identifier, the kind of entity
    that identifier names, and an optional label and description. */
module SearchResults {
  import opened Options

  /** The three values the `type` attribute can take: the `Item` and
      `Property` class tags, or the symbol `:unknown_type`. */
  datatype EntityKind = Item | Property | Unknown

  /** Classifies an identifier by its first character alone. The test is
      case-sensitive, ignores everything after the first character, and an
      empty identifier (whose first character is `nil`) is `Unknown`. */
  function Classify(id: string): (k: EntityKind)
    ensures k == Item <==> |id| > 0 && id[0] == 'Q'
    ensures k == Property <==> |id| > 0 && id[0] == 'P'
    ensures k == Unknown <==> |id| == 0 || (id[0] != 'Q' && id[0] != 'P')
  {
    if |id| == 0 then Unknown
    else if id[0] == 'Q' then Item
    else if id[0] == 'P' then Property
    else Unknown
  }

  /** Reference definition of an item identifier: "Q" followed by anything. */
  ghost predicate HasPrefix(id: string, c: char)
  {
    exists rest: string :: id == [c] + rest
  }

  /** `Classify` agrees with the prefix reading of identifiers, in both
      directions: `Item` exactly for "Q…", `Property` exactly for "P…". */
  lemma ClassifyMatchesPrefix(id: string)
    ensures Classify(id) == Item <==> HasPrefix(id, 'Q')
    ensures Classify(id) == Property <==> HasPrefix(id, 'P')
    ensures Classify(id) == Unknown <==> !HasPrefix(id, 'Q') && !HasPrefix(id, 'P')
  {
    if |id| > 0 {
      assert id == [id[0]] + id[1..];
    }
    forall rest: string, c: char | id == [c] + rest
      ensures |id| > 0 && id[0] == c
    {
    }
  }

  /** Whatever follows the first character is never looked at: "Qabc" is an
      item just as "Q42" is, and appending anything to a non-empty
      identifier keeps its kind. */
  lemma OnlyFirstCharacterMatters(id: string, suffix: string)
    requires |id| > 0
    ensures Classify(id + suffix) == Classify(id)
    ensures Classify(id) == Classify([id[0]])
  {
  }

  /** A search hit. `kind` is computed once, when the hit is built. */
  datatype SearchResult = SearchResult(
    id: string,
    kind: EntityKind,
    labelText: Option<string>,  // the `label` attribute
    description: Option<string>)

  /** Builds a hit: the id, label and description are kept verbatim (an
      absent label or description stays absent) and the kind is the
      classification of the id. */
  function NewSearchResult(id: string, labelText: Option<string>, description: Option<string>): (r: SearchResult)
    ensures r.id == id && r.labelText == labelText && r.description == description
    ensures r.kind == Item <==> |id| > 0 && id[0] == 'Q'
    ensures r.kind == Property <==> |id| > 0 && id[0] == 'P'
    ensures r.kind == Unknown <==> |id| == 0 || (id[0] != 'Q' && id[0] != 'P')
  {
    SearchResult(id, Classify(id), labelText, description)
  }

  /** A hit whose recorded kind is the kind its current id classifies as. */
  predicate WellClassified(r: SearchResult)
  {
    r.kind == Classify(r.id)
  }

  /** The `id=` writer: replaces the id only; the kind is not recomputed. */
  function WithId(r: SearchResult, id: string): (r': SearchResult)
    ensures r'.id == id
    ensures r'.kind == r.kind && r'.labelText == r.labelText && r'.description == r.description
  {
    r.(id := id)
  }

  /** The `type=` writer: replaces the kind only. */
  function WithKind(r: SearchResult, kind: EntityKind): (r': SearchResult)
    ensures r'.kind == kind
    ensures r'.id == r.id && r'.labelText == r.labelText && r'.description == r.description
  {
    r.(kind := kind)
  }

  /** The `label=` writer: replaces the label only. */
  function WithLabel(r: SearchResult, labelText: Option<string>): (r': SearchResult)
    ensures r'.labelText == labelText
    ensures r'.id == r.id && r'.kind == r.kind && r'.description == r.description
  {
    r.(labelText := labelText)
  }

  /** The `description=` writer: replaces the description only. */
  function WithDescription(r: SearchResult, description: Option<string>): (r': SearchResult)
    ensures r'.description == description
    ensures r'.id == r.id && r'.kind == r.kind && r'.labelText == r.labelText
  {
    r.(description := description)
  }

  /** Every freshly built hit is well classified, and the label and
      description writers keep it so. */
  lemma ConstructionClassifies(id: string, labelText: Option<string>, description: Option<string>, l: Option<string>, d: Option<string>)
    ensures WellClassified(NewSearchResult(id, labelText, description))
    ensures WellClassified(WithLabel(NewSearchResult(id, labelText, description), l))
    ensures WellClassified(WithDescription(NewSearchResult(id, labelText, description), d))
  {
  }

  /** The label and description writers keep any well-classified hit well
      classified, not only a freshly built one. */
  lemma LabelWritersPreserveClassification(r: SearchResult, l: Option<string>, d: Option<string>)
    requires WellClassified(r)
    ensures WellClassified(WithLabel(r, l))
    ensures WellClassified(WithDescription(r, d))
  {
  }

  /** After the `type=` writer a hit is well classified exactly when the
      assigned kind is the one its id classifies as. */
  lemma RetypeClassifiesIff(r: SearchResult, kind: EntityKind)
    ensures WellClassified(WithKind(r, kind)) <==> kind == Classify(r.id)
  {
  }

  /** Reassigning the id of a well-classified hit keeps it well classified
      exactly when the new id classifies like the old one; otherwise the
      recorded kind goes stale. */
  lemma RenamePreservesClassificationIff(r: SearchResult, id: string)
    requires WellClassified(r)
    ensures WellClassified(WithId(r, id)) <==> Classify(id) == Classify(r.id)
  {
  }

  /** A concrete stale kind: an item hit renamed to a property id still
      says `Item`. */
  lemma RenameCanLeaveKindStale()
    ensures NewSearchResult("Q1", None, None).kind == Item
    ensures WithId(NewSearchResult("Q1", None, None), "P1").kind == Item
    ensures Classify(WithId(NewSearchResult("Q1", None, None), "P1").id) == Property
  {
  }
}
