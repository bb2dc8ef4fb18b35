/**
 * The paginated asset-list synchroniser (`useAssetData` in
 * src/hooks/useAssetData.ts): the state it keeps, the initial load of page 1
 * and the guarded `loadMoreAssets` step.
 *
 * The page fetcher (`fetchAssets(page, 50)`) is a parameter: its outcome for
 * each page number, `Err` when it throws. Each step runs to completion before
 * the next one starts.
 */
module AssetListData {
  import opened Common
  import opened MarketData

  const ItemsPerPage: nat := 50

  const FetchError: string := "Failed to fetch assets. Please try again."

  /** The outcome of `fetchAssets(page, ItemsPerPage)` for each page number. */
  type PageFetcher = nat -> Result<AssetPage>

  class AssetListSync {
    var assets: seq<AssetSummary>
    var loading: bool
    var loadingMore: bool
    var error: Option<string>
    /** The last page appended; pages are counted from 1. */
    var page: nat
    var hasMore: bool

    ghost predicate Valid()
      reads this
    {
      page >= 1
    }

    /** The state before any fetch. */
    constructor ()
      ensures Valid()
      ensures assets == [] && loading && !loadingMore && error == None && page == 1 && hasMore
    {
      assets := [];
      loading := true;
      loadingMore := false;
      error := None;
      page := 1;
      hasMore := true;
    }

    /**
     * `fetchData(pageNumber)`: on success records the fetcher's `hasMore` and
     * returns its assets; on failure records the error and returns no assets,
     * leaving `hasMore` as it was.
     */
    method FetchData(pages: PageFetcher, pageNumber: nat) returns (fetched: seq<AssetSummary>)
      modifies this
      ensures pages(pageNumber).Ok? ==>
        fetched == pages(pageNumber).value.assets && hasMore == pages(pageNumber).value.hasMore && error == old(error)
      ensures pages(pageNumber).Err? ==>
        fetched == [] && hasMore == old(hasMore) && error == Some(FetchError)
      ensures assets == old(assets) && loading == old(loading) && loadingMore == old(loadingMore) && page == old(page)
    {
      match pages(pageNumber) {
        case Ok(result) =>
          hasMore := result.hasMore;
          fetched := result.assets;
        case Err(_) =>
          error := Some(FetchError);
          fetched := [];
      }
    }

    /** The mount effect: fetch page 1, show its assets, stop loading. */
    method InitialLoad(pages: PageFetcher)
      requires Valid()
      modifies this
      ensures Valid()
      ensures !loading && loadingMore == old(loadingMore) && page == old(page)
      ensures pages(1).Ok? ==>
        assets == pages(1).value.assets && hasMore == pages(1).value.hasMore && error == old(error)
      ensures pages(1).Err? ==> assets == [] && hasMore == old(hasMore) && error == Some(FetchError)
    {
      loading := true;
      var initial := FetchData(pages, 1);
      assets := initial;
      loading := false;
    }

    /** The `loadMoreAssets` guard: nothing happens while a load is running or when there is nothing more. */
    predicate CanLoadMore()
      reads this
    {
      !loadingMore && hasMore
    }

    /** The first half of `loadMoreAssets`: the guard, then `loadingMore` is raised. */
    method BeginLoadMore() returns (started: bool)
      modifies this
      ensures started == old(CanLoadMore())
      ensures started ==> loadingMore
      ensures !started ==> loadingMore == old(loadingMore)
      ensures assets == old(assets) && loading == old(loading) && error == old(error)
      ensures page == old(page) && hasMore == old(hasMore)
    {
      if loadingMore || !hasMore {
        return false;
      }
      loadingMore := true;
      started := true;
    }

    /**
     * The second half of `loadMoreAssets`: fetch the next page, append it after
     * the assets already shown, advance the page counter by one (even when the
     * fetch failed and nothing was appended) and lower `loadingMore`.
     */
    method FinishLoadMore(pages: PageFetcher)
      requires Valid() && loadingMore
      modifies this
      ensures Valid()
      ensures page == old(page) + 1 && !loadingMore && loading == old(loading)
      ensures pages(old(page) + 1).Ok? ==>
        && assets == old(assets) + pages(old(page) + 1).value.assets
        && hasMore == pages(old(page) + 1).value.hasMore
        && error == old(error)
      ensures pages(old(page) + 1).Err? ==>
        assets == old(assets) && hasMore == old(hasMore) && error == Some(FetchError)
    {
      var nextPage := page + 1;
      var newAssets := FetchData(pages, nextPage);
      assets := assets + newAssets;
      page := nextPage;
      loadingMore := false;
    }

    /** `loadMoreAssets`: the guarded start followed by the completion. */
    method LoadMoreAssets(pages: PageFetcher)
      requires Valid()
      modifies this
      ensures Valid()
      ensures !old(CanLoadMore()) ==>
        && assets == old(assets) && page == old(page) && hasMore == old(hasMore)
        && error == old(error) && loadingMore == old(loadingMore)
      ensures old(CanLoadMore()) ==>
        && page == old(page) + 1 && !loadingMore
        && old(assets) <= assets
        && assets == old(assets) + (if pages(old(page) + 1).Ok? then pages(old(page) + 1).value.assets else [])
        && (pages(old(page) + 1).Err? ==> error == Some(FetchError) && hasMore == old(hasMore))
        && (pages(old(page) + 1).Ok? ==> hasMore == pages(old(page) + 1).value.hasMore && error == old(error))
      ensures loading == old(loading)
    {
      var started := BeginLoadMore();
      if started {
        FinishLoadMore(pages);
      }
    }
  }

  /** The pages 1..k, one after the other, as successive loads show them. */
  function Concat(pages: PageFetcher, k: nat): seq<AssetSummary>
    requires forall j :: 1 <= j <= k ==> pages(j).Ok?
  {
    if k == 0 then [] else Concat(pages, k - 1) + pages(k).value.assets
  }

  /**
   * Mounting and then scrolling to the end twice, when every page arrives and
   * reports more: the list shows pages 1, 2 and 3 in order and the counter is 3.
   */
  method ScrollTwice(pages: PageFetcher) returns (shown: seq<AssetSummary>, page: nat, failed: bool)
    requires forall j :: 1 <= j <= 3 ==> pages(j).Ok?
    requires pages(1).value.hasMore && pages(2).value.hasMore
    ensures shown == Concat(pages, 3)
    ensures shown == pages(1).value.assets + pages(2).value.assets + pages(3).value.assets
    ensures page == 3 && !failed
  {
    var list := new AssetListSync();
    list.InitialLoad(pages);
    assert list.assets == Concat(pages, 1) && list.page == 1;
    assert list.CanLoadMore() && list.error == None;
    list.LoadMoreAssets(pages);
    assert list.assets == Concat(pages, 2) && list.page == 2;
    assert list.CanLoadMore() && list.error == None;
    list.LoadMoreAssets(pages);
    assert list.assets == Concat(pages, 3) && list.page == 3;
    shown, page, failed := list.assets, list.page, list.error.Some?;
  }

  /** A second trigger while a load is still running is ignored: only one page is requested. */
  method DoubleTrigger(pages: PageFetcher) returns (first: bool, second: bool, page: nat)
    requires pages(1).Ok? && pages(1).value.hasMore
    ensures first && !second
    ensures page == 2
  {
    var list := new AssetListSync();
    list.InitialLoad(pages);
    first := list.BeginLoadMore();
    second := list.BeginLoadMore();
    list.FinishLoadMore(pages);
    page := list.page;
  }
}
