/**
 * Laws of the artwork slice: what each reducer leaves alone, how reducers
 * compose, and what any sequence of dispatched actions preserves.
 */
module ArtworkLaws {
  import opened Wrappers
  import opened ArtworkSlice

  // ---- the filter merge ----

  /** Merging the empty partial record changes nothing. */
  lemma MergeEmptyIsIdentity(f: FilterCriteria)
    ensures MergeFilters(f, EmptyPatch) == f
  {
  }

  /** Merging the same partial record twice is merging it once. */
  lemma MergeIdempotent(f: FilterCriteria, p: FilterPatch)
    ensures MergeFilters(MergeFilters(f, p), p) == MergeFilters(f, p)
  {
  }

  /** A partial record carrying every key leaves nothing of the prior filters. */
  lemma MergeFullPatchForgets(f: FilterCriteria, g: FilterPatch, p: FilterPatch)
    requires p.category.Some? && p.priceRange.Some? && p.searchTerm.Some?
    ensures MergeFilters(f, p) == MergeFilters(InitialFilters, p)
    ensures MergeFilters(f, p) == FilterCriteria(p.category.value, p.priceRange.value, p.searchTerm.value)
  {
  }

  /** An inverted price pair is stored as given: no reordering, no rejection. */
  lemma MergeKeepsInvertedRange(f: FilterCriteria, lower: int, upper: int)
    requires upper < lower
    ensures MergeFilters(f, FilterPatch(None, Some((lower, upper)), None)).priceRange == (lower, upper)
  {
  }

  // ---- one reducer at a time ----

  /** Every reducer of the slice is idempotent: dispatching an action twice is dispatching it once. */
  lemma ReduceIdempotent(s: ArtworkState, a: Action)
    ensures Reduce(Reduce(s, a), a) == Reduce(s, a)
  {
    if a.UpdateFilters? {
      MergeIdempotent(s.filters, a.patch);
    }
  }

  /** Setting the loading flag and then setting it back restores the whole prior state. */
  lemma SetLoadingRestores(s: ArtworkState, flag: bool)
    ensures Reduce(Reduce(s, SetLoading(flag)), SetLoading(s.loading)) == s
  {
  }

  /** Selecting any artwork and then deselecting leaves only the selection cleared. */
  lemma SelectThenDeselect(s: ArtworkState, selection: Option<Artwork>)
    ensures Reduce(Reduce(s, SetSelectedArtwork(selection)), SetSelectedArtwork(None))
            == s.(selectedArtwork := None)
  {
  }

  /** Clearing the filters discards any merge made before it. */
  lemma ClearAbsorbsUpdate(s: ArtworkState, p: FilterPatch)
    ensures Reduce(Reduce(s, UpdateFilters(p)), ClearFilters) == Reduce(s, ClearFilters)
  {
  }

  /** Replacing the artworks discards an earlier loading flag or error. */
  lemma SetArtworksAbsorbsFlags(s: ArtworkState, flag: bool, message: string, list: seq<Artwork>)
    ensures Reduce(Reduce(s, SetLoading(flag)), SetArtworks(list)) == Reduce(s, SetArtworks(list))
    ensures Reduce(Reduce(s, SetError(message)), SetArtworks(list)) == Reduce(s, SetArtworks(list))
  {
  }

  /** A field an action does not write keeps its value. */
  lemma ReduceFrame(s: ArtworkState, a: Action, f: Field)
    requires f !in Writes(a)
    ensures Agree(s, Reduce(s, a), f)
  {
  }

  /**
   * Every field an action writes, except the filters under a merge, gets a
   * value that does not depend on the prior state.
   */
  lemma ReduceOverwrites(s: ArtworkState, t: ArtworkState, a: Action, f: Field)
    requires f in Writes(a) && !a.UpdateFilters?
    ensures Agree(Reduce(s, a), Reduce(t, a), f)
  {
  }

  /** Actions that write disjoint fields commute. */
  lemma DisjointActionsCommute(s: ArtworkState, a: Action, b: Action)
    requires Writes(a) !! Writes(b)
    ensures Reduce(Reduce(s, a), b) == Reduce(Reduce(s, b), a)
  {
  }

  /**
   * Loading and error are independent flags: from the initial state, an
   * error followed by a loading request leaves both set.
   */
  lemma LoadingAndErrorCoexist(message: string)
    ensures var s := Run(InitialState, [SetError(message), SetLoading(true)]);
            s.loading && s.error == Some(message)
  {
    var xs := [SetError(message), SetLoading(true)];
    var afterError := Reduce(InitialState, xs[0]);
    assert xs[1..][1..] == [];
    assert Run(InitialState, xs) == Run(Reduce(afterError, xs[1]), []);
  }

  // ---- sequences of actions ----

  lemma AgreeTransitive(s: ArtworkState, t: ArtworkState, u: ArtworkState, f: Field)
    requires Agree(s, t, f) && Agree(t, u, f)
    ensures Agree(s, u, f)
  {
  }

  /** Dispatching `xs` and then `ys` is dispatching `xs + ys`. */
  lemma {:induction false} RunAppend(s: ArtworkState, xs: seq<Action>, ys: seq<Action>)
    ensures Run(s, xs + ys) == Run(Run(s, xs), ys)
    decreases |xs|
  {
    if xs == [] {
      assert xs + ys == ys;
    } else {
      assert (xs + ys)[0] == xs[0];
      assert (xs + ys)[1..] == xs[1..] + ys;
      RunAppend(Reduce(s, xs[0]), xs[1..], ys);
    }
  }

  /** A field that no action of a sequence writes keeps its value through the sequence. */
  lemma {:induction false} RunFrame(s: ArtworkState, xs: seq<Action>, f: Field)
    requires NoneWrites(xs, f)
    ensures Agree(s, Run(s, xs), f)
    decreases |xs|
  {
    if xs != [] {
      assert f !in Writes(xs[0]);
      ReduceFrame(s, xs[0], f);
      assert NoneWrites(xs[1..], f) by {
        forall i | 0 <= i < |xs[1..]| ensures f !in Writes(xs[1..][i]) {
          assert xs[1..][i] == xs[i + 1];
        }
      }
      RunFrame(Reduce(s, xs[0]), xs[1..], f);
      AgreeTransitive(s, Reduce(s, xs[0]), Run(s, xs), f);
    }
  }

  /**
   * After an overwriting action `a` and then only actions that leave field
   * `f` alone, `f` holds what `a` wrote, whatever state and history came
   * before `a`.
   */
  lemma RunForgetsBeforeOverwrite(s: ArtworkState, t: ArtworkState, xs: seq<Action>, a: Action, ys: seq<Action>, f: Field)
    requires f in Writes(a) && !a.UpdateFilters?
    requires NoneWrites(ys, f)
    ensures Agree(Run(s, xs + [a] + ys), Reduce(t, a), f)
  {
    var before := Run(s, xs);
    RunAppend(s, xs + [a], ys);
    RunAppend(s, xs, [a]);
    assert Run(before, [a]) == Reduce(before, a);
    var after := Reduce(before, a);
    assert Run(s, xs + [a] + ys) == Run(after, ys);
    RunFrame(after, ys, f);
    ReduceOverwrites(before, t, a, f);
    AgreeTransitive(Run(after, ys), after, Reduce(t, a), f);
  }

  /** Whatever was dispatched before, a final clearFilters leaves the initial filters. */
  lemma ClearFiltersAfterAnyHistory(s: ArtworkState, xs: seq<Action>)
    ensures Run(s, xs + [ClearFilters]).filters == InitialFilters
  {
    RunForgetsBeforeOverwrite(s, s, xs, ClearFilters, [], Filters);
    assert xs + [ClearFilters] + [] == xs + [ClearFilters];
  }

  /**
   * Only setArtworks changes the artwork list: a history without it leaves
   * the list as it was.
   */
  lemma ArtworksOnlyChangedBySetArtworks(s: ArtworkState, xs: seq<Action>)
    requires forall i :: 0 <= i < |xs| ==> !xs[i].SetArtworks?
    ensures Run(s, xs).artworks == s.artworks
  {
    assert NoneWrites(xs, Artworks) by {
      forall i | 0 <= i < |xs| ensures Artworks !in Writes(xs[i]) {
        assert !xs[i].SetArtworks?;
      }
    }
    RunFrame(s, xs, Artworks);
  }
}
