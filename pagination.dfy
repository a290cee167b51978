/**
 * The viewer's "load more" pager for one data type: a page offset, the filter
 * and keywords of the last load, and the loading/has-more state with the ref
 * copy that guards against redundant requests.  The page size comes from a
 * constants file that is not part of this model, so it is a constructor
 * parameter; the fetch is a parameter of `LoadMore` (its outcome), and the
 * request it would send is returned.
 */
module Pagination {
  import opened Wrappers
  import opened Text

  datatype State = State(isLoading: bool, hasMore: bool)

  /** What the server answers: a failure (a thrown fetch or a non-OK status) or a page. */
  datatype Response = Failed | Page(items: seq<int>, hasMore: bool)

  /** The query string of a load. */
  datatype Request = Request(offset: nat, limit: nat, project: Option<string>,
                             keywords: Option<string>, logic: Option<string>)

  /**
   * The request for a page at `offset`: `project` only for a non-empty
   * filter; `keywords` (comma-joined) and `logic` (default "AND") only for a
   * non-empty keyword list.
   */
  function RequestFor(offset: nat, limit: nat, filter: string, keywords: Option<seq<string>>,
                      logic: Option<string>): (r: Request)
    ensures r.offset == offset && r.limit == limit
    ensures r.project.Some? <==> filter != []
    ensures r.keywords.Some? <==> keywords.Some? && keywords.value != []
    ensures r.logic.Some? <==> r.keywords.Some?
    ensures r.logic.Some? && logic.None? ==> r.logic == Some("AND")
  {
    var hasKeywords := keywords.Some? && keywords.value != [];
    Request(offset, limit,
            if filter != [] then Some(filter) else None,
            if hasKeywords then Some(Join(keywords.value, ",")) else None,
            if hasKeywords then Some(logic.GetOr("AND")) else None)
  }

  class Pager {
    var offset: nat
    var lastFilter: string
    var lastKeywords: Option<seq<string>>
    var state: State
    var stateRef: State
    const pageSize: nat

    constructor(pageSize: nat, currentFilter: string, keywords: Option<seq<string>>)
      ensures this.pageSize == pageSize && offset == 0
      ensures lastFilter == currentFilter && lastKeywords == keywords
      ensures state == State(false, true) && stateRef == state
    {
      this.pageSize := pageSize;
      offset := 0;
      lastFilter := currentFilter;
      lastKeywords := keywords;
      state := State(false, true);
      stateRef := State(false, true);
    }

    /**
     * `loadMore` as written.  A changed filter or keyword list (compared as
     * JSON, which for string lists is equality) resets the offset and both
     * copies of the state, and always loads.  Otherwise the load is skipped
     * when the REF copy says loading or no more; only the reset writes that
     * copy, so a later "no more pages" never reaches it.
     */
    method LoadMore(currentFilter: string, keywords: Option<seq<string>>, logic: Option<string>,
                    response: Response)
      returns (items: seq<int>, request: Option<Request>)
      modifies this
      ensures lastFilter == currentFilter && lastKeywords == keywords
      ensures var changed := old(lastFilter) != currentFilter || old(lastKeywords) != keywords;
        stateRef == (if changed then State(false, true) else old(stateRef))
      ensures var changed := old(lastFilter) != currentFilter || old(lastKeywords) != keywords;
        var blocked := !changed && (old(stateRef).isLoading || !old(stateRef).hasMore);
        var start := if changed then 0 else old(offset);
        (blocked ==> items == [] && request.None? && offset == old(offset) && state == old(state))
        && (!blocked ==> request == Some(RequestFor(start, pageSize, currentFilter, keywords, logic)))
        && (!blocked && response.Page? ==>
              items == response.items && offset == start + pageSize && state == State(false, response.hasMore))
        && (!blocked && response.Failed? ==>
              items == [] && offset == start
              && state == State(false, if changed then true else old(state).hasMore))
    {
      var filterChanged := lastFilter != currentFilter;
      var keywordsChanged := lastKeywords != keywords;
      if filterChanged || keywordsChanged {
        offset := 0;
        lastFilter := currentFilter;
        lastKeywords := keywords;
        state := State(false, true);
        stateRef := State(false, true);
      }
      if !filterChanged && !keywordsChanged && (stateRef.isLoading || !stateRef.hasMore) {
        return [], None;
      }
      state := state.(isLoading := true);
      request := Some(RequestFor(offset, pageSize, currentFilter, keywords, logic));
      match response
      case Failed =>
        state := state.(isLoading := false);
        items := [];
      case Page(data, more) =>
        state := state.(isLoading := false, hasMore := more);
        offset := offset + pageSize;
        items := data;
    }

    /** The ref copy agrees with the state, as the guard's comment intends. */
    ghost predicate Synced()
      reads this
    {
      stateRef == state
    }

    /**
     * `loadMore` with the ref copy written alongside every state update: the
     * skip test then sees the last page's `hasMore`.
     */
    method LoadMoreSynced(currentFilter: string, keywords: Option<seq<string>>, logic: Option<string>,
                          response: Response)
      returns (items: seq<int>, request: Option<Request>)
      requires Synced()
      modifies this
      ensures Synced()
      ensures lastFilter == currentFilter && lastKeywords == keywords
      ensures var changed := old(lastFilter) != currentFilter || old(lastKeywords) != keywords;
        var blocked := !changed && (old(state).isLoading || !old(state).hasMore);
        var start := if changed then 0 else old(offset);
        (blocked ==> items == [] && request.None? && offset == old(offset) && state == old(state))
        && (!blocked ==> request == Some(RequestFor(start, pageSize, currentFilter, keywords, logic)))
        && (!blocked && response.Page? ==>
              items == response.items && offset == start + pageSize && state == State(false, response.hasMore))
        && (!blocked && response.Failed? ==>
              items == [] && offset == start
              && state == State(false, if changed then true else old(state).hasMore))
    {
      var filterChanged := lastFilter != currentFilter;
      var keywordsChanged := lastKeywords != keywords;
      if filterChanged || keywordsChanged {
        offset := 0;
        lastFilter := currentFilter;
        lastKeywords := keywords;
        state := State(false, true);
        stateRef := state;
      }
      if !filterChanged && !keywordsChanged && (stateRef.isLoading || !stateRef.hasMore) {
        return [], None;
      }
      state := state.(isLoading := true);
      stateRef := state;
      request := Some(RequestFor(offset, pageSize, currentFilter, keywords, logic));
      match response {
        case Failed =>
          state := state.(isLoading := false);
          items := [];
        case Page(data, more) =>
          state := state.(isLoading := false, hasMore := more);
          offset := offset + pageSize;
          items := data;
      }
      stateRef := state;
    }
  }

  /**
   * As written: after the server says there are no more pages, the next
   * load with the same filter still sends a request (for the offset past the
   * end) instead of being skipped.
   */
  method LastPageStillRequested() returns (second: Option<Request>)
    ensures second == Some(RequestFor(20, 20, "p", None, None))
  {
    var pager := new Pager(20, "p", None);
    var items, first := pager.LoadMore("p", None, None, Page([1, 2], false));
    assert pager.state == State(false, false) && pager.stateRef == State(false, true);
    items, second := pager.LoadMore("p", None, None, Page([], false));
  }

  /** With the ref kept in step, the same sequence skips the second load. */
  method LastPageSkipped() returns (second: Option<Request>)
    ensures second.None?
  {
    var pager := new Pager(20, "p", None);
    var items, first := pager.LoadMoreSynced("p", None, None, Page([1, 2], false));
    items, second := pager.LoadMoreSynced("p", None, None, Page([], false));
  }

  /** A change of logic alone is not a reset: the offset carries on. */
  method LogicChangeKeepsOffset() returns (second: Option<Request>)
    ensures second == Some(RequestFor(20, 20, "p", Some(["a"]), Some("OR")))
  {
    var pager := new Pager(20, "p", Some(["a"]));
    var items, first := pager.LoadMore("p", Some(["a"]), Some("AND"), Page([1], true));
    items, second := pager.LoadMore("p", Some(["a"]), Some("OR"), Page([2], true));
  }
}
