/** The user search box of the chat page: the query typed, the results of
    the last search and whether the results panel is open. Its token and
    its `startConversation` callback are the page's own. */
module SearchSection {
  import opened Base
  import opened ChatTypes
  import ChatPage

  /** The outcome of the search request as the handler sees it: a non-OK
      status, a network error and a JSON failure all land in its `catch`. */
  function AfterSearch(outcome: Fetch<seq<User>>): (r: (seq<User>, bool))
    ensures r.1 <==> r.0 != []
    ensures outcome.Fetched? ==> r.0 == outcome.value
    ensures outcome.FetchFailed? ==> r.0 == []
  {
    match outcome
    case Fetched(users) => (users, |users| > 0)
    case FetchFailed(_) => ([], false)
  }

  class SearchSection {
    const page: ChatPage.ChatPage
    var query: string
    var results: seq<User>
    var showResults: bool
    /** The queries a search request was sent for, oldest first. */
    var searches: seq<string>

    constructor (page: ChatPage.ChatPage)
      ensures this.page == page
      ensures query == "" && results == [] && !showResults && searches == []
    {
      this.page := page;
      query, results, showResults, searches := "", [], false, [];
    }

    /** The results panel is rendered only when it is open and there is
        something to show. */
    predicate PanelVisible()
      reads this
    {
      showResults && |results| > 0
    }

    /** Typing in the box. Without a token, or with a query that is blank
        once trimmed, the results are cleared and hidden and no request is
        sent; otherwise a search request is sent for the query as typed. */
    method Search(q: string) returns (sent: bool)
      modifies this
      ensures query == q
      ensures sent <==> Present(page.token) && !IsBlank(q)
      ensures !sent ==> results == [] && !showResults && searches == old(searches) && !PanelVisible()
      ensures sent ==> results == old(results) && showResults == old(showResults) && searches == old(searches) + [q]
    {
      query := q;
      TrimEmptyIffBlank(q);
      if !Present(page.token) || Trim(q) == "" {
        results := [];
        showResults := false;
        return false;
      }
      searches := searches + [q];
      sent := true;
    }

    /** Completion of a search request: a success shows its results and
        opens the panel only if there are any; a failure clears and hides. */
    method SearchArrived(outcome: Fetch<seq<User>>)
      modifies this
      ensures (results, showResults) == AfterSearch(outcome)
      ensures PanelVisible() == showResults
      ensures query == old(query) && searches == old(searches)
    {
      match outcome {
        case Fetched(users) =>
          results := users;
          showResults := |users| > 0;
        case FetchFailed(_) =>
          results := [];
          showResults := false;
      }
    }

    /** Focusing the box reopens the panel when the query is not blank and
        otherwise changes nothing. The flag alone does not show the panel:
        with no results it stays hidden. */
    method Focus()
      modifies this
      ensures showResults == (old(showResults) || !IsBlank(query))
      ensures results == [] ==> !PanelVisible()
      ensures !IsBlank(query) && results != [] ==> PanelVisible()
      ensures query == old(query) && results == old(results) && searches == old(searches)
    {
      TrimEmptyIffBlank(query);
      if Trim(query) != "" {
        showResults := true;
      }
    }

    /** The timer set on blur going off: the panel closes. */
    method BlurElapsed()
      modifies this
      ensures !showResults && !PanelVisible()
      ensures query == old(query) && results == old(results) && searches == old(searches)
    {
      showResults := false;
    }

    /** Picking a result opens the conversation with that user on the page,
        then empties the query and the results and closes the panel. */
    method SelectUser(u: User)
      modifies this, page
      ensures query == "" && results == [] && !showResults && searches == old(searches) && !PanelVisible()
      ensures Present(page.token) ==> page.State() == old(page.State()).(
        selected := Some(SearchedUser(u)),
        requests := old(page.requests) + [ChatPage.LoadConversation(u.id)])
      ensures !Present(page.token) ==> page.State() == old(page.State()).(selected := Some(SearchedUser(u)))
    {
      page.StartConversation(SearchedUser(u));
      query := "";
      results := [];
      showResults := false;
    }
  }

  /** A search answer is applied whenever it arrives. If the box was
      emptied after the request went out, the late answer still opens the
      panel, now under a blank query. */
  method StaleSearchReopens(box: SearchSection, q: string, users: seq<User>)
    requires Present(box.page.token) && !IsBlank(q) && users != []
    modifies box
    ensures box.query == "" && box.PanelVisible()
  {
    var sent := box.Search(q);
    sent := box.Search("");
    box.SearchArrived(Fetched(users));
  }
}
