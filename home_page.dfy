/**
 * The landing page's use of the store: on mount it asks for the loading
 * state, and a deferred callback later replaces the artworks with the
 * catalog list, which also ends the loading state.
 */
module HomePage {
  import opened Wrappers
  import opened ArtworkSlice

  /** The page's three sample records. */
  const MockArtworks: seq<Artwork> := [
    Artwork("1", "夕焼けの詩", "美しい夕焼けをモチーフにした抽象デジタルアート作品",
            "/api/placeholder/400/300", 15000, "山田太郎", "abstract", "2024-01-15",
            ["夕焼け", "抽象画", "デジタル"]),
    Artwork("2", "都市の夜景", "ネオンが輝く都市の夜景を幻想的に表現",
            "/api/placeholder/400/300", 25000, "佐藤花子", "landscape", "2024-01-20",
            ["夜景", "都市", "ネオン"]),
    Artwork("3", "森の静寂", "深い森の中の静寂な瞬間を切り取った作品",
            "/api/placeholder/400/300", 18000, "田中次郎", "nature", "2024-01-25",
            ["森", "自然", "静寂"])
  ]

  /** The actions the page dispatches, in order. */
  function BootstrapActions(catalog: seq<Artwork>): seq<Action>
  {
    [SetLoading(true), SetArtworks(catalog)]
  }

  /** First step, on mount: request the loading state. */
  method OnMount(store: ArtworkStore)
    modifies store
    ensures store.loading
    ensures store.artworks == old(store.artworks) && store.error == old(store.error)
    ensures store.selectedArtwork == old(store.selectedArtwork) && store.filters == old(store.filters)
    ensures store.Snapshot() == Reduce(old(store.Snapshot()), SetLoading(true))
  {
    store.Dispatch(SetLoading(true));
  }

  /** Second step, when the delay has passed: hand the catalog list to the store. */
  method OnDelayElapsed(store: ArtworkStore, catalog: seq<Artwork>)
    modifies store
    ensures store.artworks == catalog && !store.loading && store.error == None
    ensures store.selectedArtwork == old(store.selectedArtwork) && store.filters == old(store.filters)
    ensures store.Snapshot() == Reduce(old(store.Snapshot()), SetArtworks(catalog))
  {
    store.Dispatch(SetArtworks(catalog));
  }

  /** Both steps, one after the other; the loading request leaves no trace. */
  method Bootstrap(store: ArtworkStore, catalog: seq<Artwork>)
    modifies store
    ensures store.Snapshot() == Run(old(store.Snapshot()), BootstrapActions(catalog))
    ensures store.Snapshot() == old(store.Snapshot()).(artworks := catalog, loading := false, error := None)
  {
    ghost var before := store.Snapshot();
    OnMount(store);
    OnDelayElapsed(store, catalog);
    RunBootstrap(before, catalog);
  }

  /** Running the two actions is the two reducers applied in turn. */
  lemma RunBootstrap(s: ArtworkState, catalog: seq<Artwork>)
    ensures Run(s, BootstrapActions(catalog)) == Reduce(Reduce(s, SetLoading(true)), SetArtworks(catalog))
    ensures Run(s, BootstrapActions(catalog)) == s.(artworks := catalog, loading := false, error := None)
  {
    var xs := BootstrapActions(catalog);
    assert xs[1..][1..] == [];
    assert Run(s, xs) == Run(Reduce(Reduce(s, xs[0]), xs[1]), []);
  }

  /**
   * From the initial state: after the first step the page is loading with
   * no artworks; after the second it holds exactly the catalog, in order,
   * with no loading and no error.
   */
  lemma BootstrapFromInitialState(catalog: seq<Artwork>)
    ensures var mounted := Reduce(InitialState, SetLoading(true));
            mounted.loading && mounted.artworks == [] && mounted.error == None
    ensures var loaded := Run(InitialState, BootstrapActions(catalog));
            loaded.artworks == catalog && !loaded.loading && loaded.error == None
            && loaded.selectedArtwork == None && loaded.filters == InitialFilters
  {
    RunBootstrap(InitialState, catalog);
  }

  /** With the sample records: three artworks with ids "1", "2", "3", in that order. */
  lemma BootstrapWithMockArtworks()
    ensures var loaded := Run(InitialState, BootstrapActions(MockArtworks));
            |loaded.artworks| == 3
            && loaded.artworks[0].id == "1" && loaded.artworks[1].id == "2" && loaded.artworks[2].id == "3"
            && !loaded.loading && loaded.error == None
  {
    BootstrapFromInitialState(MockArtworks);
  }
}
