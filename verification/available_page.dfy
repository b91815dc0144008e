/**
 * The admin "available products" page: the word-limited description text, the
 * "Show All" filter reset, the product fetch and the pagination controls.
 */
module AvailableProducts {
  import opened Wrappers
  import opened JsStrings

  /** End index of `words.slice(0, limit)` on `n` words: a negative limit counts from the end. */
  function SliceEnd(n: nat, limit: int): (e: nat)
    ensures e <= n
    ensures 0 <= limit ==> e == if limit < n then limit else n
  {
    if limit >= 0 then (if limit < n then limit else n)
    else if n + limit > 0 then n + limit else 0
  }

  /**
   * `truncateText(text, wordLimit)`: words are the pieces of `text.split(" ")`, so consecutive
   * spaces yield empty words that count toward the limit. Past the limit the kept words are
   * re-joined by single spaces and "..." is appended; the kept part is a prefix of the input.
   */
  function TruncateText(text: string, wordLimit: int): (r: string)
    ensures |Split(text, ' ')| <= wordLimit ==> r == text
    ensures |Split(text, ' ')| > wordLimit ==>
              |r| >= 3 && r[|r| - 3..] == "..." && r[..|r| - 3] <= text
  {
    var words := Split(text, ' ');
    if |words| > wordLimit then
      var kept := Join(words[..SliceEnd(|words|, wordLimit)], ' ');
      JoinPrefix(words, ' ', SliceEnd(|words|, wordLimit));
      JoinSplit(text, ' ');
      assert (kept + "...")[..|kept|] == kept;
      kept + "..."
    else text
  }

  /** Past a positive limit, the kept part consists of exactly the first `wordLimit` words of the input. */
  lemma TruncateKeepsFirstWords(text: string, wordLimit: int)
    requires 1 <= wordLimit < |Split(text, ' ')|
    ensures var r := TruncateText(text, wordLimit);
            |r| >= 3 && Split(r[..|r| - 3], ' ') == Split(text, ' ')[..wordLimit]
  {
    var words := Split(text, ' ');
    var kept := Join(words[..wordLimit], ' ');
    SplitPiecesFree(text, ' ');
    SplitJoin(words[..wordLimit], ' ');
    var r := TruncateText(text, wordLimit);
    assert r == kept + "...";
    assert r[..|r| - 3] == kept;
  }

  /** For a positive limit the text changes exactly when it has at least `wordLimit` spaces. */
  lemma TruncateChangesIff(text: string, wordLimit: int)
    requires wordLimit >= 1
    ensures TruncateText(text, wordLimit) != text <==> Count(text, ' ') >= wordLimit
  {
    SplitLength(text, ' ');
    var words := Split(text, ' ');
    if |words| > wordLimit {
      var kept := Join(words[..wordLimit], ' ');
      JoinAppend(words, ' ', wordLimit);
      JoinSplit(text, ' ');
      var r := TruncateText(text, wordLimit);
      assert r == kept + "...";
      assert text[|kept|] == ' ' && r[|kept|] == '.';
    }
  }

  /** One row of the product table. */
  datatype ListedProduct = ListedProduct(id: string, title: string, description: string, mediaType: string)

  /** The query parameters `fetchProduct` sends with `GET /product`. */
  datatype FetchParams = FetchParams(productsPerPage: int, page: int, status: string,
                                     category: seq<string>, mediaType: seq<string>, searchTerm: string)

  /** A successful `GET /product` answer: the page of products and the page count. */
  datatype FetchResponse = FetchResponse(products: seq<ListedProduct>, numOfPages: nat)

  class AvailableProductsPage {
    var products: seq<ListedProduct>
    var loading: bool
    var currentPage: int
    var totalPages: nat
    var productsPerPage: int
    var searchTerm: string
    var selectedCategories: seq<string>
    var selectedMediaTypes: seq<string>

    /** The page never shows a page number below 1. */
    predicate Valid()
      reads this
    {
      currentPage >= 1
    }

    /** The parameters a fetch issued from the current render sends. */
    function RequestParams(): (p: FetchParams)
      reads this
      ensures p.status == "available" && p.page == currentPage && p.searchTerm == searchTerm
      ensures p.category == selectedCategories && p.mediaType == selectedMediaTypes
    {
      FetchParams(productsPerPage, currentPage, "available", selectedCategories, selectedMediaTypes, searchTerm)
    }

    constructor ()
      ensures Valid() && products == [] && !loading
      ensures currentPage == 1 && totalPages == 1 && productsPerPage == 6
      ensures searchTerm == "" && selectedCategories == [] && selectedMediaTypes == []
    {
      products, loading := [], false;
      currentPage, totalPages, productsPerPage := 1, 1, 6;
      searchTerm, selectedCategories, selectedMediaTypes := "", [], [];
    }

    /** `fetchProduct`: sends the current filters; a failed request leaves the table and the page count as they were. */
    method FetchProduct(response: Option<FetchResponse>) returns (sent: FetchParams)
      modifies this
      ensures sent == old(RequestParams())
      ensures response.Some? ==> products == response.value.products && totalPages == response.value.numOfPages
      ensures response.None? ==> products == old(products) && totalPages == old(totalPages)
      ensures !loading && currentPage == old(currentPage) && productsPerPage == old(productsPerPage)
      ensures searchTerm == old(searchTerm) && selectedCategories == old(selectedCategories)
      ensures selectedMediaTypes == old(selectedMediaTypes)
    {
      loading := true;
      sent := RequestParams();
      if response.Some? {
        products := response.value.products;
        totalPages := response.value.numOfPages;
      }
      loading := false;
    }

    /**
     * `showAllProducts` as written: it clears the search term and both filter lists, but the
     * `fetchProduct` it calls belongs to the render in which the button was clicked, so the request
     * still carries the filters as they were before the reset.
     */
    method ShowAllProducts(response: Option<FetchResponse>) returns (sent: FetchParams)
      modifies this
      ensures searchTerm == "" && selectedCategories == [] && selectedMediaTypes == []
      ensures sent == old(RequestParams())
      ensures response.Some? ==> products == response.value.products && totalPages == response.value.numOfPages
      ensures response.None? ==> products == old(products) && totalPages == old(totalPages)
      ensures !loading && currentPage == old(currentPage) && productsPerPage == old(productsPerPage)
    {
      var stale := RequestParams();
      searchTerm, selectedCategories, selectedMediaTypes := "", [], [];
      loading := true;
      sent := stale;
      if response.Some? {
        products := response.value.products;
        totalPages := response.value.numOfPages;
      }
      loading := false;
    }

    /** "Show All" as intended: the reset happens before the request is built, so the request is unfiltered. */
    method ShowAllProductsFixed(response: Option<FetchResponse>) returns (sent: FetchParams)
      modifies this
      ensures searchTerm == "" && selectedCategories == [] && selectedMediaTypes == []
      ensures sent.searchTerm == "" && sent.category == [] && sent.mediaType == []
      ensures sent.page == old(currentPage) && sent.productsPerPage == old(productsPerPage)
      ensures response.Some? ==> products == response.value.products && totalPages == response.value.numOfPages
      ensures response.None? ==> products == old(products) && totalPages == old(totalPages)
      ensures !loading && currentPage == old(currentPage) && productsPerPage == old(productsPerPage)
    {
      searchTerm, selectedCategories, selectedMediaTypes := "", [], [];
      sent := FetchProduct(response);
    }

    /**
     * "Pre" is disabled on the first page (`currentPage === 1`), so on a valid page an enabled
     * "Pre" always leads to a page of at least 1.
     */
    function PreDisabled(): (d: bool)
      reads this
      ensures d <==> currentPage == 1
      ensures Valid() && !d ==> currentPage - 1 >= 1
    {
      currentPage == 1
    }

    /**
     * "Next" is disabled only when the current page equals the page count (`currentPage === totalPages`):
     * with no pages at all, or with the current page beyond the page count, it stays enabled.
     */
    function NextDisabled(): (d: bool)
      reads this
      ensures d <==> currentPage == totalPages
      ensures Valid() && totalPages == 0 ==> !d
      ensures currentPage > totalPages ==> !d
      ensures d ==> currentPage + 1 > totalPages
    {
      currentPage == totalPages
    }

    /**
     * The numbered page buttons, 1 up to `totalPages`: every button names a page within the page
     * count, and on a valid page the current page has a button exactly when it is within the count.
     */
    function PageButtons(): (r: seq<int>)
      reads this
      ensures |r| == totalPages
      ensures forall i :: 0 <= i < |r| ==> r[i] == i + 1
      ensures forall i :: 0 <= i < |r| ==> 1 <= r[i] <= totalPages
      ensures Valid() ==> (currentPage in r <==> currentPage <= totalPages)
    {
      var r := seq(totalPages, i => i + 1);
      assert Valid() && currentPage <= totalPages ==> r[currentPage - 1] == currentPage;
      r
    }

    /**
     * `handlePageChange(page)` followed by the effect that refetches whenever `currentPage`
     * changes; the effect runs in the new render, so the request carries the new page.
     * Every caller passes a page of at least 1, which keeps the page valid.
     */
    method HandlePageChange(page: int, response: Option<FetchResponse>) returns (sent: Option<FetchParams>)
      requires Valid() && page >= 1
      modifies this
      ensures Valid()
      ensures currentPage == page
      ensures page != old(currentPage) ==> sent == Some(old(RequestParams()).(page := page))
      ensures page == old(currentPage) ==> sent == None && products == old(products) && totalPages == old(totalPages)
      ensures sent.Some? && response.Some? ==> products == response.value.products && totalPages == response.value.numOfPages
      ensures sent.Some? && response.None? ==> products == old(products) && totalPages == old(totalPages)
      ensures productsPerPage == old(productsPerPage) && searchTerm == old(searchTerm)
      ensures selectedCategories == old(selectedCategories) && selectedMediaTypes == old(selectedMediaTypes)
      ensures sent.Some? ==> !loading
      ensures sent.None? ==> loading == old(loading)
    {
      var changed := page != currentPage;
      currentPage := page;
      if changed {
        var p := FetchProduct(response);
        sent := Some(p);
      } else {
        sent := None;
      }
    }

    /**
     * Clicking "Pre": nothing when disabled; otherwise the previous page, fetched with the current
     * filters. The filters and the page size never change.
     */
    method ClickPre(response: Option<FetchResponse>) returns (sent: Option<FetchParams>)
      requires Valid()
      modifies this
      ensures Valid()
      ensures old(PreDisabled()) ==> currentPage == old(currentPage) && sent == None
      ensures old(PreDisabled()) ==> products == old(products) && totalPages == old(totalPages)
      ensures !old(PreDisabled()) ==>
                currentPage == old(currentPage) - 1 && sent == Some(old(RequestParams()).(page := old(currentPage) - 1))
      ensures !old(PreDisabled()) && response.Some? ==>
                products == response.value.products && totalPages == response.value.numOfPages
      ensures response.None? ==> products == old(products) && totalPages == old(totalPages)
      ensures response.None? && old(currentPage) <= old(totalPages) ==> currentPage <= totalPages
      ensures productsPerPage == old(productsPerPage) && searchTerm == old(searchTerm)
      ensures selectedCategories == old(selectedCategories) && selectedMediaTypes == old(selectedMediaTypes)
    {
      if PreDisabled() {
        sent := None;
      } else {
        sent := HandlePageChange(currentPage - 1, response);
      }
    }

    /**
     * Clicking "Next": nothing when disabled; otherwise the following page, fetched with the current
     * filters. The filters and the page size never change.
     */
    method ClickNext(response: Option<FetchResponse>) returns (sent: Option<FetchParams>)
      requires Valid()
      modifies this
      ensures Valid()
      ensures old(NextDisabled()) ==> currentPage == old(currentPage) && sent == None
      ensures old(NextDisabled()) ==> products == old(products) && totalPages == old(totalPages)
      ensures !old(NextDisabled()) ==>
                currentPage == old(currentPage) + 1 && sent == Some(old(RequestParams()).(page := old(currentPage) + 1))
      ensures !old(NextDisabled()) && response.Some? ==>
                products == response.value.products && totalPages == response.value.numOfPages
      ensures response.None? ==> products == old(products) && totalPages == old(totalPages)
      ensures response.None? && old(currentPage) < old(totalPages) ==> currentPage <= totalPages
      ensures productsPerPage == old(productsPerPage) && searchTerm == old(searchTerm)
      ensures selectedCategories == old(selectedCategories) && selectedMediaTypes == old(selectedMediaTypes)
    {
      if NextDisabled() {
        sent := None;
      } else {
        sent := HandlePageChange(currentPage + 1, response);
      }
    }

    /**
     * Clicking the page button at position `i`: the page becomes `i + 1`, which is valid, and
     * without a new reply it stays within the page count. A request is sent only for a different
     * page; its reply replaces the products and the page count. The filters and the page size never change.
     */
    method ClickPageButton(i: nat, response: Option<FetchResponse>) returns (sent: Option<FetchParams>)
      requires Valid() && i < totalPages
      modifies this
      ensures Valid() && currentPage == i + 1
      ensures response.None? ==> currentPage <= totalPages
      ensures i + 1 != old(currentPage) ==> sent == Some(old(RequestParams()).(page := i + 1))
      ensures i + 1 == old(currentPage) ==> sent == None
      ensures sent.Some? && response.Some? ==> products == response.value.products && totalPages == response.value.numOfPages
      ensures sent.None? || response.None? ==> products == old(products) && totalPages == old(totalPages)
      ensures productsPerPage == old(productsPerPage) && searchTerm == old(searchTerm)
      ensures selectedCategories == old(selectedCategories) && selectedMediaTypes == old(selectedMediaTypes)
    {
      var buttons := PageButtons();
      sent := HandlePageChange(buttons[i], response);
    }
  }

  /**
   * `currentPage === totalPages` misses a page count that shrank below the current page: after
   * moving to page 3, a reply with a single page leaves "Next" enabled, and clicking it goes to page 4.
   */
  method NextPastLastPageWitness() returns (pages: nat, before: int, after: int, enabled: bool)
    ensures pages == 1 && before == 3 && enabled && after == 4
  {
    var page := new AvailableProductsPage();
    var _ := page.HandlePageChange(3, Some(FetchResponse([], 1)));
    pages, before := page.totalPages, page.currentPage;
    enabled := !page.NextDisabled();
    var _ := page.ClickNext(None);
    after := page.currentPage;
  }

  /** A concrete run of the stale "Show All": the request still carries the old search term. */
  method StaleShowAllWitness() returns (sent: FetchParams, after: string)
    ensures sent.searchTerm == "pink" && after == ""
  {
    var page := new AvailableProductsPage();
    page.searchTerm := "pink";
    sent := page.ShowAllProducts(None);
    after := page.searchTerm;
  }

  /** The same run with the corrected "Show All": the request is unfiltered. */
  method FixedShowAllWitness() returns (sent: FetchParams, after: string)
    ensures sent.searchTerm == "" && after == ""
  {
    var page := new AvailableProductsPage();
    page.searchTerm := "pink";
    sent := page.ShowAllProductsFixed(None);
    after := page.searchTerm;
  }
}
