/**
 * Settings search: the immutable search result, the builder that checks its mandatory fields and
 * clamps its rank, the rank comparison, and the search screen's query state with its loader actions.
 */
module Search {
  import opened Common

  // ---------------------------------------------------------------- Java int arithmetic

  const INT_MIN := -0x8000_0000
  const INT_MAX := 0x7FFF_FFFF

  /** A value of Java's 32-bit `int`. */
  predicate IsInt32(x: int) {
    INT_MIN <= x <= INT_MAX
  }

  /** Java `int` subtraction, which wraps around modulo 2^32. */
  function Int32Sub(a: int, b: int): (r: int)
    ensures IsInt32(r)
    ensures IsInt32(a - b) ==> r == a - b
    ensures (r - (a - b)) % 0x1_0000_0000 == 0
  {
    (a - b - INT_MIN) % 0x1_0000_0000 + INT_MIN
  }

  // ---------------------------------------------------------------- SearchResult

  /** The rank a builder holds until a valid one is added. */
  const DEFAULT_RANK := 42

  /** The ranks a result can carry: the valid ranks 0..9 and the default. */
  predicate ValidRank(rank: int) {
    0 <= rank <= 9 || rank == DEFAULT_RANK
  }

  /** `ResultPayload`, of which the model keeps the type that selects the result's view. */
  datatype ResultPayload = ResultPayload(payloadType: int)

  /** A drawable icon (loaded by the UI toolkit). */
  datatype Drawable = Drawable(resource: int)

  /** `SearchResult`: built only by the builder, so its title and payload are present. */
  datatype SearchResult = SearchResult(
    title: string,
    summary: Option<string>,
    breadcrumbs: Option<seq<string>>,
    rank: int,
    viewType: int,
    payload: ResultPayload,
    icon: Option<Drawable>)

  /** `compareTo`: before a null result; otherwise the rank difference, in Java `int` arithmetic. */
  function CompareTo(self: SearchResult, other: Option<SearchResult>): (c: int)
    ensures other.None? ==> c == -1
    ensures other.Some? && IsInt32(self.rank) && IsInt32(other.value.rank) && self.rank >= 0 && other.value.rank >= 0 ==>
      c == self.rank - other.value.rank
  {
    if other.None? then -1 else Int32Sub(self.rank, other.value.rank)
  }

  /**
   * With ranks in 0..9 or 42 the comparison cannot overflow: it lies in [-42, 42], it is antisymmetric,
   * it is zero exactly on equal ranks, and it orders results by rank, transitively.
   */
  lemma CompareToOrdersByRank(a: SearchResult, b: SearchResult, c: SearchResult)
    requires ValidRank(a.rank) && ValidRank(b.rank) && ValidRank(c.rank)
    ensures -DEFAULT_RANK <= CompareTo(a, Some(b)) <= DEFAULT_RANK
    ensures CompareTo(a, Some(b)) == -CompareTo(b, Some(a))
    ensures CompareTo(a, Some(b)) == 0 <==> a.rank == b.rank
    ensures CompareTo(a, Some(b)) < 0 <==> a.rank < b.rank
    ensures CompareTo(a, Some(b)) < 0 && CompareTo(b, Some(c)) < 0 ==> CompareTo(a, Some(c)) < 0
  {
  }

  /** Without the rank invariant the comparison would not be antisymmetric: both orders are negative. */
  lemma CompareToNeedsValidRanks()
    ensures var a := SearchResult("a", None, None, INT_MIN, 0, ResultPayload(0), None);
      var b := SearchResult("b", None, None, 0, 0, ResultPayload(0), None);
      CompareTo(a, Some(b)) < 0 && CompareTo(b, Some(a)) < 0
  {
    assert Int32Sub(0, INT_MIN) == INT_MIN;
  }

  /** Why `build` refused: the title is checked before the payload. */
  datatype BuildError = MissingTitle | MissingPayload

  datatype BuildResult = Built(result: SearchResult) | Failed(error: BuildError)

  /** `SearchResult.Builder`: every setter overwrites its field and returns the builder itself. */
  class Builder {
    var title: Option<string>
    var summary: Option<string>
    var breadcrumbs: Option<seq<string>>
    var rank: int
    var payload: Option<ResultPayload>
    var icon: Option<Drawable>

    /** The builder only ever holds a rank a result may carry. */
    predicate Valid()
      reads this
    {
      ValidRank(rank)
    }

    constructor ()
      ensures Valid()
      ensures title.None? && summary.None? && breadcrumbs.None? && payload.None? && icon.None?
      ensures rank == DEFAULT_RANK
    {
      title, summary, breadcrumbs, payload, icon := None, None, None, None, None;
      rank := DEFAULT_RANK;
    }

    method AddTitle(title: Option<string>) returns (b: Builder)
      modifies this
      ensures b == this && this.title == title
      ensures summary == old(summary) && breadcrumbs == old(breadcrumbs) && rank == old(rank)
      ensures payload == old(payload) && icon == old(icon)
    {
      this.title := title;
      b := this;
    }

    method AddSummary(summary: Option<string>) returns (b: Builder)
      modifies this
      ensures b == this && this.summary == summary
      ensures title == old(title) && breadcrumbs == old(breadcrumbs) && rank == old(rank)
      ensures payload == old(payload) && icon == old(icon)
    {
      this.summary := summary;
      b := this;
    }

    method AddBreadcrumbs(breadcrumbs: Option<seq<string>>) returns (b: Builder)
      modifies this
      ensures b == this && this.breadcrumbs == breadcrumbs
      ensures title == old(title) && summary == old(summary) && rank == old(rank)
      ensures payload == old(payload) && icon == old(icon)
    {
      this.breadcrumbs := breadcrumbs;
      b := this;
    }

    /** `addRank`: only 0..9 is stored; any other rank leaves the previous one, keeping the builder valid. */
    method AddRank(rank: int) returns (b: Builder)
      requires Valid()
      modifies this
      ensures b == this && Valid()
      ensures 0 <= rank <= 9 ==> this.rank == rank
      ensures !(0 <= rank <= 9) ==> this.rank == old(this.rank)
      ensures title == old(title) && summary == old(summary) && breadcrumbs == old(breadcrumbs)
      ensures payload == old(payload) && icon == old(icon)
    {
      if rank >= 0 && rank <= 9 {
        this.rank := rank;
      }
      b := this;
    }

    method AddIcon(icon: Option<Drawable>) returns (b: Builder)
      modifies this
      ensures b == this && this.icon == icon
      ensures title == old(title) && summary == old(summary) && breadcrumbs == old(breadcrumbs)
      ensures rank == old(rank) && payload == old(payload)
    {
      this.icon := icon;
      b := this;
    }

    method AddPayload(payload: Option<ResultPayload>) returns (b: Builder)
      modifies this
      ensures b == this && this.payload == payload
      ensures title == old(title) && summary == old(summary) && breadcrumbs == old(breadcrumbs)
      ensures rank == old(rank) && icon == old(icon)
    {
      this.payload := payload;
      b := this;
    }

    /**
     * `build`: refused without a title, then without a payload; otherwise a result copying every
     * field, whose view type is the payload's type and whose rank is one a result may carry.
     */
    method Build() returns (r: BuildResult)
      requires Valid()
      ensures title.None? ==> r == Failed(MissingTitle)
      ensures title.Some? && payload.None? ==> r == Failed(MissingPayload)
      ensures title.Some? && payload.Some? ==>
        r.Built? && r.result.title == title.value && r.result.summary == summary &&
        r.result.breadcrumbs == breadcrumbs && r.result.rank == rank && r.result.icon == icon &&
        r.result.payload == payload.value && r.result.viewType == payload.value.payloadType
      ensures r.Built? ==> ValidRank(r.result.rank)
    {
      if title.None? {
        return Failed(MissingTitle);
      } else if payload.None? {
        return Failed(MissingPayload);
      }
      var p := payload.value;
      r := Built(SearchResult(title.value, summary, breadcrumbs, rank, p.payloadType, p, icon));
    }
  }

  /** Building the same builder twice, or building after rejected ranks, gives the same result. */
  method BuildIgnoresRejectedRanks(b: Builder, rejected: int) returns (first: BuildResult, second: BuildResult)
    requires b.Valid() && !(0 <= rejected <= 9)
    modifies b
    ensures first == second
  {
    first := b.Build();
    var same := b.AddRank(rejected);
    second := b.Build();
  }

  // ---------------------------------------------------------------- SearchFragment

  const LOADER_ID_DATABASE := 0
  const LOADER_ID_INSTALLED_APPS := 1

  /** A loader-manager call, or another observable effect of the search screen. */
  datatype SearchEffect =
    | InitLoader(id: int)
    | RestartLoader(id: int)
    | DestroyLoader(id: int)
    | ClearResults
    | ClickCountHistogram(count: int)
    | LeaveWithoutQuery

  /** The three values the screen saves in its instance state. */
  datatype SavedState = SavedState(query: Option<string>, neverEnteredQuery: bool, resultClickCount: int)

  /** The loaders the search feature provider hands out, each for the query current at creation. */
  datatype SearchLoader = DatabaseSearchLoader(query: Option<string>) | InstalledAppSearchLoader(query: Option<string>)

  /** The loader calls for a changed query: an empty one stops the database search, any other restarts both. */
  function QueryChangeEffects(query: Option<string>): (r: seq<SearchEffect>)
    ensures |r| >= 2 && r[0] == ClearResults
    ensures IsEmpty(query) <==> r == [ClearResults, DestroyLoader(LOADER_ID_DATABASE)]
    ensures !IsEmpty(query) <==>
      r == [ClearResults, RestartLoader(LOADER_ID_DATABASE), RestartLoader(LOADER_ID_INSTALLED_APPS)]
  {
    if IsEmpty(query) then [ClearResults, DestroyLoader(LOADER_ID_DATABASE)]
    else [ClearResults, RestartLoader(LOADER_ID_DATABASE), RestartLoader(LOADER_ID_INSTALLED_APPS)]
  }

  /** The metrics a stop logs: nothing unless finishing; then the click count, and the leave action if no query. */
  function StopEffects(activityPresent: bool, finishing: bool, neverEnteredQuery: bool, resultClickCount: int)
    : (r: seq<SearchEffect>)
    ensures !(activityPresent && finishing) ==> r == []
    ensures activityPresent && finishing ==> |r| >= 1 && r[0] == ClickCountHistogram(resultClickCount)
    ensures LeaveWithoutQuery in r <==> activityPresent && finishing && neverEnteredQuery
    ensures activityPresent && finishing ==> |r| == (if neverEnteredQuery then 2 else 1)
  {
    if !(activityPresent && finishing) then []
    else if neverEnteredQuery then [ClickCountHistogram(resultClickCount), LeaveWithoutQuery]
    else [ClickCountHistogram(resultClickCount)]
  }

  class SearchFragment {
    var query: Option<string>
    var neverEnteredQuery: bool
    var resultClickCount: int
    var effects: seq<SearchEffect>

    constructor ()
      ensures query.None? && neverEnteredQuery && resultClickCount == 0 && effects == []
    {
      query := None;
      neverEnteredQuery := true;
      resultClickCount := 0;
      effects := [];
    }

    /** `onCreate`: restore the saved state, if any, and initialise both loaders. */
    method OnCreate(saved: Option<SavedState>)
      modifies this
      ensures saved.None? ==> (query == old(query) && neverEnteredQuery == old(neverEnteredQuery) &&
                               resultClickCount == old(resultClickCount) && effects == old(effects))
      ensures saved.Some? ==> (query == saved.value.query && neverEnteredQuery == saved.value.neverEnteredQuery &&
                               resultClickCount == saved.value.resultClickCount &&
                               effects == old(effects) + [InitLoader(LOADER_ID_DATABASE), InitLoader(LOADER_ID_INSTALLED_APPS)])
    {
      if saved.Some? {
        query := saved.value.query;
        neverEnteredQuery := saved.value.neverEnteredQuery;
        resultClickCount := saved.value.resultClickCount;
        effects := effects + [InitLoader(LOADER_ID_DATABASE), InitLoader(LOADER_ID_INSTALLED_APPS)];
      }
    }

    /** `onSaveInstanceState`: the query, the never-entered flag and the click count. */
    method OnSaveInstanceState() returns (s: SavedState)
      ensures s.query == query && s.neverEnteredQuery == neverEnteredQuery && s.resultClickCount == resultClickCount
    {
      s := SavedState(query, neverEnteredQuery, resultClickCount);
    }

    /**
     * `onQueryTextChange`: always accepted. The same query (null-safe) changes nothing; a different one
     * resets the click count, records that a query was entered, and clears and reloads the results.
     */
    method OnQueryTextChange(newQuery: Option<string>) returns (accepted: bool)
      modifies this
      ensures accepted
      ensures newQuery == old(query) ==> (query == old(query) && neverEnteredQuery == old(neverEnteredQuery) &&
                                          resultClickCount == old(resultClickCount) && effects == old(effects))
      ensures newQuery != old(query) ==> (query == newQuery && !neverEnteredQuery && resultClickCount == 0 &&
                                          effects == old(effects) + QueryChangeEffects(newQuery))
    {
      if newQuery == query {
        return true;
      }
      resultClickCount := 0;
      neverEnteredQuery := false;
      query := newQuery;
      effects := effects + [ClearResults];
      if IsEmpty(query) {
        effects := effects + [DestroyLoader(LOADER_ID_DATABASE)];
      } else {
        RestartLoaders();
      }
      return true;
    }

    /** `restartLoaders`: restart the database loader, then the installed-apps loader. */
    method RestartLoaders()
      modifies this
      ensures effects == old(effects) + [RestartLoader(LOADER_ID_DATABASE), RestartLoader(LOADER_ID_INSTALLED_APPS)]
      ensures query == old(query) && neverEnteredQuery == old(neverEnteredQuery)
      ensures resultClickCount == old(resultClickCount)
    {
      effects := effects + [RestartLoader(LOADER_ID_DATABASE), RestartLoader(LOADER_ID_INSTALLED_APPS)];
    }

    /** `onQueryTextSubmit`: always accepted, with no effect. */
    function OnQueryTextSubmit(submitted: Option<string>): (accepted: bool)
      ensures accepted
    {
      true
    }

    /** `onCreateLoader`: the database loader for id 0, the installed-apps loader for id 1, else null. */
    function OnCreateLoader(id: int): (r: Option<SearchLoader>)
      reads this
      ensures r.Some? <==> id == LOADER_ID_DATABASE || id == LOADER_ID_INSTALLED_APPS
      ensures r.Some? ==> r.value.query == query
      ensures id == LOADER_ID_DATABASE ==> r.value.DatabaseSearchLoader?
      ensures id == LOADER_ID_INSTALLED_APPS ==> r.value.InstalledAppSearchLoader?
    {
      if id == LOADER_ID_DATABASE then Some(DatabaseSearchLoader(query))
      else if id == LOADER_ID_INSTALLED_APPS then Some(InstalledAppSearchLoader(query))
      else None
    }

    /** `onSearchResultClicked`: one more click. */
    method OnSearchResultClicked()
      modifies this
      ensures resultClickCount == old(resultClickCount) + 1
      ensures query == old(query) && neverEnteredQuery == old(neverEnteredQuery) && effects == old(effects)
    {
      resultClickCount := resultClickCount + 1;
    }

    /** `onStop`: on a finishing stop, log the click count and, if no query was ever entered, the leave action. */
    method OnStop(activityPresent: bool, finishing: bool)
      modifies this
      ensures effects == old(effects) + StopEffects(activityPresent, finishing, neverEnteredQuery, resultClickCount)
      ensures query == old(query) && neverEnteredQuery == old(neverEnteredQuery)
      ensures resultClickCount == old(resultClickCount)
    {
      if activityPresent && finishing {
        effects := effects + [ClickCountHistogram(resultClickCount)];
        if neverEnteredQuery {
          effects := effects + [LeaveWithoutQuery];
        }
      }
    }
  }

  /** Saving one screen and creating another from that state restores the query, flag and click count. */
  method SaveThenRestore(f: SearchFragment) returns (g: SearchFragment)
    ensures g.query == f.query && g.neverEnteredQuery == f.neverEnteredQuery
    ensures g.resultClickCount == f.resultClickCount
  {
    var s := f.OnSaveInstanceState();
    g := new SearchFragment();
    g.OnCreate(Some(s));
  }

  /** A screen left without typing logs the leave action; typing any query first prevents it. */
  method LeavingWithoutTyping(typed: Option<string>) returns (untouched: seq<SearchEffect>, afterTyping: seq<SearchEffect>)
    requires typed.Some?
    ensures LeaveWithoutQuery in untouched
    ensures LeaveWithoutQuery !in afterTyping
  {
    var f := new SearchFragment();
    f.OnStop(true, true);
    untouched := f.effects;
    var g := new SearchFragment();
    var accepted := g.OnQueryTextChange(typed);
    g.OnStop(true, true);
    afterTyping := g.effects;
  }
}
