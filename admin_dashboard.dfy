/**
 * The admin dashboard: a presence check on the stored token, a data fetch
 * that runs either way, logout, and a sidebar that picks which list the
 * content area shows.
 */
module AdminDashboard {
  import opened Types
  import Api
  import opened Browser

  /** The sidebar entries' ids, in display order. */
  const SidebarTabs: seq<string> := ["bookings", "services", "portfolio", "testimonials", "faqs"]

  /** What the content area renders for a tab. */
  datatype View =
    | BookingsView(count: nat, rows: seq<Booking>)
    | ServicesView(cards: seq<Service>)
    | PortfolioView(tiles: seq<PortfolioItem>)
    | ComingSoon(tab: string)

  /**
   * renderContent: the three managed tabs show their own list (bookings with
   * a header count), any other tab shows a "coming soon" notice naming it.
   */
  function RenderContent(tab: string, bookings: seq<Booking>, services: seq<Service>, portfolio: seq<PortfolioItem>): (v: View)
    ensures v.BookingsView? <==> tab == "bookings"
    ensures v.ServicesView? <==> tab == "services"
    ensures v.PortfolioView? <==> tab == "portfolio"
    ensures v.ComingSoon? <==> tab !in {"bookings", "services", "portfolio"}
    ensures v.BookingsView? ==> v.rows == bookings && v.count == |v.rows|
    ensures v.ServicesView? ==> v.cards == services
    ensures v.PortfolioView? ==> v.tiles == portfolio
    ensures v.ComingSoon? ==> v.tab == tab
  {
    if tab == "bookings" then BookingsView(|bookings|, bookings)
    else if tab == "services" then ServicesView(services)
    else if tab == "portfolio" then PortfolioView(portfolio)
    else ComingSoon(tab)
  }

  /** `!token`: both a missing key (null) and an empty string count as absent. */
  predicate TokenMissing(token: Option<string>)
    ensures !TokenMissing(token) <==> token.Some? && |token.value| > 0
  {
    token.None? || token.value == ""
  }

  /** The sidebar has two tabs with their own "coming soon" notice. */
  lemma UnmanagedTabs()
    ensures forall t :: t in SidebarTabs && RenderContent(t, [], [], []).ComingSoon? <==> t in {"testimonials", "faqs"}
  {
  }

  class Dashboard {
    var activeTab: string
    var bookings: seq<Booking>
    var services: seq<Service>
    var portfolio: seq<PortfolioItem>

    constructor ()
      ensures activeTab == "bookings" && bookings == [] && services == [] && portfolio == []
    {
      activeTab := "bookings";
      bookings := [];
      services := [];
      portfolio := [];
    }

    /**
     * The mount effect: without a token go to the login page; fetch the
     * three collections whether or not the token is there.
     */
    method Mount(w: Window, store: Api.MockStore)
      modifies this, w
      ensures TokenMissing(old(w.GetItem(TokenKey))) ==> w.path == LoginPath
      ensures !TokenMissing(old(w.GetItem(TokenKey))) ==> w.path == old(w.path)
      ensures w.storage == old(w.storage)
      ensures bookings == store.bookings && services == store.services && portfolio == store.portfolio
      ensures activeTab == old(activeTab)
    {
      var token := w.GetItem(TokenKey);
      if TokenMissing(token) {
        w.Navigate(LoginPath);
      }
      var b := store.GetBookings();
      var s := store.GetServices();
      var p := store.GetPortfolio();
      bookings, services, portfolio := b, s, p;
    }

    method Logout(w: Window)
      modifies w
      ensures TokenKey !in w.storage
      ensures w.storage == old(w.storage) - {TokenKey}
      ensures w.path == LoginPath
    {
      w.RemoveItem(TokenKey);
      w.Navigate(LoginPath);
    }

    /** A sidebar click. */
    method SelectTab(id: string)
      requires id in SidebarTabs
      modifies this
      ensures activeTab == id
      ensures bookings == old(bookings) && services == old(services) && portfolio == old(portfolio)
    {
      activeTab := id;
    }

    function Content(): (v: View)
      reads this
      ensures v.BookingsView? ==> v.count == |bookings|
    {
      RenderContent(activeTab, bookings, services, portfolio)
    }
  }
}
