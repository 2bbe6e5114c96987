/**
 * The artwork catalog slice: its record shapes, its initial state, and its
 * six reducers, both as one pure reducing function over state values
 * (`Reduce`, the slice's reducer) and as a store object whose methods
 * assign its fields in place (`ArtworkStore`).
 */
module ArtworkSlice {
  import opened Wrappers

  /** One catalog record. Prices are whole amounts; the slice never computes with them. */
  datatype Artwork = Artwork(
    id: string,
    title: string,
    description: string,
    imageUrl: string,
    price: int,
    artist: string,
    category: string,
    createdAt: string,
    tags: seq<string>)

  /** The filter criteria: a category label, a (lower, upper) price pair and a search term. */
  datatype FilterCriteria = FilterCriteria(category: string, priceRange: (int, int), searchTerm: string)

  /** A partial filter record: `None` marks a key the payload does not carry. */
  datatype FilterPatch = FilterPatch(
    category: Option<string>,
    priceRange: Option<(int, int)>,
    searchTerm: Option<string>)

  /** The whole state of the slice. */
  datatype ArtworkState = ArtworkState(
    artworks: seq<Artwork>,
    selectedArtwork: Option<Artwork>,
    loading: bool,
    error: Option<string>,
    filters: FilterCriteria)

  /** The slice's actions, one per reducer, each with its payload. */
  datatype Action =
    | SetArtworks(list: seq<Artwork>)
    | SetSelectedArtwork(selection: Option<Artwork>)
    | SetLoading(flag: bool)
    | SetError(message: string)
    | UpdateFilters(patch: FilterPatch)
    | ClearFilters

  const InitialFilters: FilterCriteria := FilterCriteria("all", (0, 100000), "")

  const InitialState: ArtworkState := ArtworkState([], None, false, None, InitialFilters)

  /** The empty partial filter record `{}`. */
  const EmptyPatch: FilterPatch := FilterPatch(None, None, None)

  /**
   * `{ ...f, ...p }`: every key the payload carries overrides, every other
   * key keeps its value. The price pair is taken as given, never reordered.
   */
  function MergeFilters(f: FilterCriteria, p: FilterPatch): (r: FilterCriteria)
    ensures p.category.Some? ==> r.category == p.category.value
    ensures p.category.None? ==> r.category == f.category
    ensures p.priceRange.Some? ==> r.priceRange == p.priceRange.value
    ensures p.priceRange.None? ==> r.priceRange == f.priceRange
    ensures p.searchTerm.Some? ==> r.searchTerm == p.searchTerm.value
    ensures p.searchTerm.None? ==> r.searchTerm == f.searchTerm
  {
    FilterCriteria(
      if p.category.Some? then p.category.value else f.category,
      if p.priceRange.Some? then p.priceRange.value else f.priceRange,
      if p.searchTerm.Some? then p.searchTerm.value else f.searchTerm)
  }

  /** The slice's reducer: the next state after one action. */
  function Reduce(s: ArtworkState, a: Action): (r: ArtworkState)
    // setArtworks: whole-list swap, clears loading and error
    ensures a.SetArtworks? ==>
      r.artworks == a.list && !r.loading && r.error == None
      && r.selectedArtwork == s.selectedArtwork && r.filters == s.filters
    // setSelectedArtwork: the payload verbatim, with no membership check
    ensures a.SetSelectedArtwork? ==>
      r.selectedArtwork == a.selection
      && r.artworks == s.artworks && r.loading == s.loading
      && r.error == s.error && r.filters == s.filters
    // setLoading: only the flag
    ensures a.SetLoading? ==>
      r.loading == a.flag
      && r.artworks == s.artworks && r.selectedArtwork == s.selectedArtwork
      && r.error == s.error && r.filters == s.filters
    // setError: records the message and forces loading off
    ensures a.SetError? ==>
      r.error == Some(a.message) && !r.loading
      && r.artworks == s.artworks && r.selectedArtwork == s.selectedArtwork
      && r.filters == s.filters
    // updateFilters: shallow merge of the filters only
    ensures a.UpdateFilters? ==>
      r.filters == MergeFilters(s.filters, a.patch)
      && r.artworks == s.artworks && r.selectedArtwork == s.selectedArtwork
      && r.loading == s.loading && r.error == s.error
    // clearFilters: the initial filters, whatever they were
    ensures a.ClearFilters? ==>
      r.filters == InitialFilters
      && r.artworks == s.artworks && r.selectedArtwork == s.selectedArtwork
      && r.loading == s.loading && r.error == s.error
  {
    match a
    case SetArtworks(list) => s.(artworks := list, loading := false, error := None)
    case SetSelectedArtwork(selection) => s.(selectedArtwork := selection)
    case SetLoading(flag) => s.(loading := flag)
    case SetError(message) => s.(error := Some(message), loading := false)
    case UpdateFilters(patch) => s.(filters := MergeFilters(s.filters, patch))
    case ClearFilters => s.(filters := InitialFilters)
  }

  /** The state after dispatching the actions in order, one at a time. */
  function Run(s: ArtworkState, xs: seq<Action>): ArtworkState
    decreases |xs|
  {
    if xs == [] then s else Run(Reduce(s, xs[0]), xs[1..])
  }

  /** The five fields of the state, to speak of which ones an action writes. */
  datatype Field = Artworks | SelectedArtwork | Loading | Error | Filters

  /** The fields each reducer assigns, read off its body. */
  function Writes(a: Action): set<Field>
  {
    match a
    case SetArtworks(_) => {Artworks, Loading, Error}
    case SetSelectedArtwork(_) => {SelectedArtwork}
    case SetLoading(_) => {Loading}
    case SetError(_) => {Error, Loading}
    case UpdateFilters(_) => {Filters}
    case ClearFilters => {Filters}
  }

  /** Two states hold the same value in field `f`. */
  predicate Agree(s: ArtworkState, t: ArtworkState, f: Field)
  {
    match f
    case Artworks => s.artworks == t.artworks
    case SelectedArtwork => s.selectedArtwork == t.selectedArtwork
    case Loading => s.loading == t.loading
    case Error => s.error == t.error
    case Filters => s.filters == t.filters
  }

  /** No action in `xs` writes field `f`. */
  predicate NoneWrites(xs: seq<Action>, f: Field)
  {
    forall i :: 0 <= i < |xs| ==> f !in Writes(xs[i])
  }

  /**
   * The store object: the five fields of the state, updated in place by
   * one method per reducer.
   */
  class ArtworkStore {
    var artworks: seq<Artwork>
    var selectedArtwork: Option<Artwork>
    var loading: bool
    var error: Option<string>
    var filters: FilterCriteria

    /** The state value the fields currently hold. */
    function Snapshot(): ArtworkState
      reads this
    {
      ArtworkState(artworks, selectedArtwork, loading, error, filters)
    }

    /** A store holding the initial state. */
    constructor ()
      ensures artworks == [] && selectedArtwork == None
      ensures !loading && error == None
      ensures filters.category == "all" && filters.priceRange == (0, 100000) && filters.searchTerm == ""
      ensures Snapshot() == InitialState
    {
      artworks := [];
      selectedArtwork := None;
      loading := false;
      error := None;
      filters := InitialFilters;
    }

    method SetArtworks(list: seq<Artwork>)
      modifies this
      ensures artworks == list && !loading && error == None
      ensures selectedArtwork == old(selectedArtwork) && filters == old(filters)
      ensures Snapshot() == Reduce(old(Snapshot()), Action.SetArtworks(list))
    {
      artworks := list;
      loading := false;
      error := None;
    }

    method SetSelectedArtwork(selection: Option<Artwork>)
      modifies this
      ensures selectedArtwork == selection
      ensures artworks == old(artworks) && loading == old(loading)
      ensures error == old(error) && filters == old(filters)
      ensures Snapshot() == Reduce(old(Snapshot()), Action.SetSelectedArtwork(selection))
    {
      selectedArtwork := selection;
    }

    method SetLoading(flag: bool)
      modifies this
      ensures loading == flag
      ensures artworks == old(artworks) && selectedArtwork == old(selectedArtwork)
      ensures error == old(error) && filters == old(filters)
      ensures Snapshot() == Reduce(old(Snapshot()), Action.SetLoading(flag))
    {
      loading := flag;
    }

    method SetError(message: string)
      modifies this
      ensures error == Some(message) && !loading
      ensures artworks == old(artworks) && selectedArtwork == old(selectedArtwork)
      ensures filters == old(filters)
      ensures Snapshot() == Reduce(old(Snapshot()), Action.SetError(message))
    {
      error := Some(message);
      loading := false;
    }

    method UpdateFilters(patch: FilterPatch)
      modifies this
      ensures filters == MergeFilters(old(filters), patch)
      ensures artworks == old(artworks) && selectedArtwork == old(selectedArtwork)
      ensures loading == old(loading) && error == old(error)
      ensures Snapshot() == Reduce(old(Snapshot()), Action.UpdateFilters(patch))
    {
      filters := MergeFilters(filters, patch);
    }

    method ClearFilters()
      modifies this
      ensures filters == InitialFilters
      ensures artworks == old(artworks) && selectedArtwork == old(selectedArtwork)
      ensures loading == old(loading) && error == old(error)
      ensures Snapshot() == Reduce(old(Snapshot()), Action.ClearFilters)
    {
      filters := InitialFilters;
    }

    /** Hands an action to the reducer it names. */
    method Dispatch(a: Action)
      modifies this
      ensures Snapshot() == Reduce(old(Snapshot()), a)
    {
      match a
      case SetArtworks(list) => SetArtworks(list);
      case SetSelectedArtwork(selection) => SetSelectedArtwork(selection);
      case SetLoading(flag) => SetLoading(flag);
      case SetError(message) => SetError(message);
      case UpdateFilters(patch) => UpdateFilters(patch);
      case ClearFilters => ClearFilters();
    }
  }
}
