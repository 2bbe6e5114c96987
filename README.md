# Artwork catalog store, modelled in Dafny

This project models the state container of a small digital-art storefront.
The container is a Redux slice named `artwork`. Its state has five fields:

- the artwork list;
- the selected artwork, or none;
- a loading flag;
- an error message, or none;
- the filter criteria: a category label, a price pair and a search term.

It has a fixed initial state and six reducers: `setArtworks`,
`setSelectedArtwork`, `setLoading`, `setError`, `updateFilters` and
`clearFilters`. The model also covers the landing page's bootstrap. On mount
the page dispatches `setLoading(true)`. After a delay it dispatches
`setArtworks` with its sample list.

Files:

- `wrappers.dfy` (module `Wrappers`): `Option`, which stands for the `T | null` fields.
- `artwork_slice.dfy` (module `ArtworkSlice`): the record shapes and the initial state.
  It also holds the slice's reducer as a pure function `Reduce` over state values,
  and the class `ArtworkStore`. The class has the five fields and one method per
  reducer, and each method assigns fields as the reducer does. Every method states
  its whole new state field by field, and also states that its snapshot equals
  `Reduce` of the old snapshot. `Run` folds `Reduce` over a sequence of dispatched actions.
- `artwork_laws.dfy` (module `ArtworkLaws`): laws of the reducers. They cover the
  frame of each reducer, idempotence, absorption and commutation, and facts about
  sequences of actions.
- `home_page.dfy` (module `HomePage`): the page's two-step bootstrap and its sample records.

The TypeScript `Artwork | null` and `string | null` become `Option<Artwork>` and
`Option<string>`. The `Partial` filter payload becomes `FilterPatch`, a record of
`Option` fields, where `None` is a key the payload does not carry. Prices and the
price pair are `int`.

## Model

| member | source | states |
|---|---|---|
| ArtworkSlice.MergeFilters | src/store/slices/artworkSlice.ts:58-60 | each key the partial record carries takes its value; each key it omits keeps the prior value; the price pair is stored as given |
| ArtworkSlice.Reduce | src/store/slices/artworkSlice.ts:42-64 | for each of the six actions: which fields it sets, to what, and that every other field is unchanged |
| ArtworkSlice.ArtworkStore.constructor | src/store/slices/artworkSlice.ts:27-37 | empty artworks, no selection, not loading, no error, filters "all" / (0, 100000) / "" |
| ArtworkSlice.ArtworkStore.SetArtworks | src/store/slices/artworkSlice.ts:43-47 | artworks become the given list exactly, for any list including the empty one; loading false, error cleared; selection and filters unchanged |
| ArtworkSlice.ArtworkStore.SetSelectedArtwork | src/store/slices/artworkSlice.ts:48-50 | selection becomes the payload verbatim, with no membership check; all else unchanged |
| ArtworkSlice.ArtworkStore.SetLoading | src/store/slices/artworkSlice.ts:51-53 | only the loading flag changes, to the payload |
| ArtworkSlice.ArtworkStore.SetError | src/store/slices/artworkSlice.ts:54-57 | error becomes the message and loading becomes false whatever it was; artworks, selection and filters unchanged |
| ArtworkSlice.ArtworkStore.UpdateFilters | src/store/slices/artworkSlice.ts:58-60 | filters become the shallow merge of the old filters with the payload; all else unchanged |
| ArtworkSlice.ArtworkStore.ClearFilters | src/store/slices/artworkSlice.ts:61-63 | filters become the initial filters regardless of their prior value; all else unchanged |
| ArtworkSlice.ArtworkStore.Dispatch | src/store/slices/artworkSlice.ts:76 | routing an action to its reducer method yields `Reduce` of the prior state |
| ArtworkLaws.MergeEmptyIsIdentity | src/store/slices/artworkSlice.ts:58-60 | merging the empty payload is the identity |
| ArtworkLaws.MergeIdempotent | src/store/slices/artworkSlice.ts:58-60 | merging the same payload twice equals merging it once |
| ArtworkLaws.MergeFullPatchForgets | src/store/slices/artworkSlice.ts:58-60 | a payload carrying all three keys determines the filters regardless of the prior ones |
| ArtworkLaws.MergeKeepsInvertedRange | src/store/slices/artworkSlice.ts:58-60 | an inverted price pair is stored unchanged, with no reordering or rejection |
| ArtworkLaws.ReduceIdempotent | src/store/slices/artworkSlice.ts:42-64 | each of the six reducers, applied twice with the same payload, acts as applying it once |
| ArtworkLaws.SetLoadingRestores | src/store/slices/artworkSlice.ts:51-53 | setting loading and then setting it back to its old value restores the whole prior state |
| ArtworkLaws.SelectThenDeselect | src/store/slices/artworkSlice.ts:48-50 | selecting and then selecting null clears the selection and nothing else |
| ArtworkLaws.ClearAbsorbsUpdate | src/store/slices/artworkSlice.ts:58-63 | clearFilters after any updateFilters equals clearFilters alone |
| ArtworkLaws.SetArtworksAbsorbsFlags | src/store/slices/artworkSlice.ts:43-57 | setArtworks after setLoading or setError equals setArtworks alone |
| ArtworkLaws.ReduceFrame | src/store/slices/artworkSlice.ts:42-64 | a field an action does not assign keeps its value |
| ArtworkLaws.ReduceOverwrites | src/store/slices/artworkSlice.ts:43-63 | apart from the filter merge, an assigned field gets a value independent of the prior state |
| ArtworkLaws.DisjointActionsCommute | src/store/slices/artworkSlice.ts:42-64 | two actions that assign disjoint fields commute |
| ArtworkLaws.LoadingAndErrorCoexist | src/store/slices/artworkSlice.ts:51-57 | loading and error are not exclusive: setError then setLoading(true) leaves both set |
| ArtworkLaws.RunAppend | src/store/slices/artworkSlice.ts:76 | dispatching `xs` and then `ys` equals dispatching `xs + ys` |
| ArtworkLaws.RunFrame | src/store/slices/artworkSlice.ts:42-64 | a field that no action of a sequence assigns keeps its value through the whole sequence |
| ArtworkLaws.RunForgetsBeforeOverwrite | src/store/slices/artworkSlice.ts:43-63 | after an overwriting action followed only by actions that leave the field alone, the field holds what that action wrote, whatever came before |
| ArtworkLaws.ClearFiltersAfterAnyHistory | src/store/slices/artworkSlice.ts:61-63 | any history ending in clearFilters leaves the initial filters |
| ArtworkLaws.ArtworksOnlyChangedBySetArtworks | src/store/slices/artworkSlice.ts:43-47 | a history with no setArtworks leaves the artwork list as it was |
| HomePage.OnMount | src/app/page.tsx:54 | after the first step loading is true and artworks, error, selection and filters are unchanged |
| HomePage.OnDelayElapsed | src/app/page.tsx:55-57 | after the deferred step artworks are the catalog list, loading false and error cleared |
| HomePage.Bootstrap | src/app/page.tsx:52-58 | the two steps together equal running the two actions, and change only artworks, loading and error |
| HomePage.RunBootstrap | src/app/page.tsx:54-56 | the two-action sequence from any state sets artworks to the list and clears loading and error |
| HomePage.BootstrapFromInitialState | src/app/page.tsx:54-56 | from the initial state: loading with no artworks after step one; exactly the list, not loading, no error after step two |
| HomePage.BootstrapWithMockArtworks | src/app/page.tsx:12-46 | with the sample list, three artworks with ids "1", "2", "3" in that order |

## Left out

- Redux wiring is not modelled: `configureStore`, the middleware and the typed hooks (`src/store/index.ts`, `src/store/hooks.ts`). Action-creator objects and Immer drafts are not modelled either. Each reducer acts directly on the state, and `Run` stands for successive dispatches.
- Actions of other slices or unknown types are not modelled. The store has only this slice.
- JavaScript `number` semantics for prices and the price pair are not modelled. They are `int`, because the slice does no arithmetic or comparison on them.
- A `Partial` payload key that is present with the value `undefined` is not modelled. Spreading such a payload would store `undefined`; the model only knows a key as carried or absent.
- Aliasing is not modelled. `clearFilters` stores the very object `initialState.filters`; the model has values only.
- The 500 ms `setTimeout` delay is not modelled, nor a callback that fires after the page was torn down. The bootstrap is the two steps in order.
- All rendering is left out: the spinner, the cards and the `toLocaleString` price formatting.
- The layout is left out: metadata and fonts (`src/app/layout.tsx`).
- `setError` takes any string, including the empty one, because the code's payload type is plain `string`. Requiring a non-empty message would be stricter than the code.
- Artwork ids are not checked for uniqueness, and `setArtworks` does not deduplicate. The model does neither.
