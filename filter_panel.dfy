/** The filter panel's handlers (`FilterPanel.tsx`): each turns the current filters into the ones it reports. */
module FilterPanel {
  import opened Wrappers
  import opened Entities
  import opened Sequences

  /** The keys of `FilterOptions`. */
  datatype FilterKey = TypeKey | SubjectKey | SemesterKey | YearKey | TagsKey | SearchKey

  /** A value stored under a key: text for every key except `tags`, which holds a list. */
  datatype FilterValue = TextValue(text: string) | TagList(tags: seq<string>)

  predicate Fits(key: FilterKey, value: FilterValue) {
    (key == TagsKey) == value.TagList?
  }

  function Get(f: FilterOptions, key: FilterKey): (v: FilterValue)
    ensures Fits(key, v)
  {
    match key
    case TypeKey => TextValue(f.resourceType)
    case SubjectKey => TextValue(f.subject)
    case SemesterKey => TextValue(f.semester)
    case YearKey => TextValue(f.year)
    case TagsKey => TagList(f.tags)
    case SearchKey => TextValue(f.search)
  }

  /** The value an unset filter holds. */
  function Cleared(key: FilterKey): FilterValue {
    if key == TagsKey then TagList([]) else TextValue("")
  }

  /** `handleFilterChange`: `{ ...filters, [key]: value }`. */
  function HandleFilterChange(f: FilterOptions, key: FilterKey, value: FilterValue): (r: FilterOptions)
    requires Fits(key, value)
    ensures Get(r, key) == value
    ensures forall k :: k != key ==> Get(r, k) == Get(f, k)
  {
    match key
    case TypeKey => f.(resourceType := value.text)
    case SubjectKey => f.(subject := value.text)
    case SemesterKey => f.(semester := value.text)
    case YearKey => f.(year := value.text)
    case TagsKey => f.(tags := value.tags)
    case SearchKey => f.(search := value.text)
  }

  /** `handleTagToggle`: a selected tag is removed from the selection, an unselected one appended to it. */
  function HandleTagToggle(f: FilterOptions, tag: string): (r: FilterOptions)
    ensures tag in r.tags <==> tag !in f.tags
    ensures forall t :: t != tag ==> (t in r.tags <==> t in f.tags)
    ensures tag in f.tags ==> IsSubsequence(r.tags, f.tags)
    ensures tag !in f.tags ==> r.tags == f.tags + [tag]
    ensures forall k :: k != TagsKey ==> Get(r, k) == Get(f, k)
  {
    var newTags := if tag in f.tags then Without(f.tags, tag) else f.tags + [tag];
    HandleFilterChange(f, TagsKey, TagList(newTags))
  }

  /** Toggling an unselected tag twice gives back the filters it started from. */
  lemma ToggleTwice(f: FilterOptions, tag: string)
    requires tag !in f.tags
    ensures HandleTagToggle(HandleTagToggle(f, tag), tag) == f
  {
    WithoutAppended(f.tags, tag);
  }

  /** `hasActiveFilters`: some filter other than the type is set. */
  predicate HasActiveFilters(f: FilterOptions) {
    f.subject != "" || f.semester != "" || f.year != "" || |f.tags| > 0 || f.search != ""
  }

  /** The panel shows its clear button exactly when some key other than the type differs from its unset value. */
  lemma ActiveMeansSomeKeySet(f: FilterOptions)
    ensures HasActiveFilters(f) <==> exists k :: k != TypeKey && Get(f, k) != Cleared(k)
  {
    if HasActiveFilters(f) {
      if f.subject != "" { assert Get(f, SubjectKey) != Cleared(SubjectKey); }
      else if f.semester != "" { assert Get(f, SemesterKey) != Cleared(SemesterKey); }
      else if f.year != "" { assert Get(f, YearKey) != Cleared(YearKey); }
      else if |f.tags| > 0 { assert Get(f, TagsKey) != Cleared(TagsKey); }
      else { assert Get(f, SearchKey) != Cleared(SearchKey); }
    }
  }

  /** `clearFilters`: every filter unset, except the type, which the page's own type (or `''`) fills. */
  function ClearFilters(resourceType: Option<ResourceType>): (r: FilterOptions)
    ensures forall k :: k != TypeKey ==> Get(r, k) == Cleared(k)
    ensures r.resourceType == (if resourceType.Some? then TypeName(resourceType.value) else "")
    ensures !HasActiveFilters(r)
  {
    FilterOptions(if resourceType.Some? then TypeName(resourceType.value) else "", "", "", "", [], "")
  }
}
