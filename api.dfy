/**
 * The data provider in its mock mode: five in-memory collections, getters
 * that hand them out, and the three writes that change them in place
 * (booking append, service append, service delete-by-id).  Login is a
 * literal comparison against one hard-coded credential pair.
 */
module Api {
  import opened Types

  const MockServices: seq<Service> :=
    [ Service(1, "Wedding Photography", "Candid and traditional photography that captures the soul of your celebration.", "Camera"),
      Service(2, "Cinematic Videography", "High-definition wedding films edited with a storytelling approach.", "Film"),
      Service(3, "Pre-Wedding Shoots", "Conceptual and romantic shoots at exotic locations.", "Heart"),
      Service(4, "Event Coverage", "Comprehensive coverage for engagements, sangeet, and receptions.", "Users") ]

  const MockPortfolio: seq<PortfolioItem> :=
    [ PortfolioItem(1, Photo, "https://images.unsplash.com/photo-1648328168368-3a25f2152802?q=80&w=2070&auto=format&fit=crop", None, "Wedding", "Royal Union", None),
      PortfolioItem(2, Photo, "https://images.unsplash.com/photo-1629942878296-c2710a050d95?q=80&w=2070&auto=format&fit=crop", None, "Pre-Wedding", "Sunset Love", None),
      PortfolioItem(3, Photo, "https://images.unsplash.com/photo-1515934751635-c81c6bc9a2d8?q=80&w=2070&auto=format&fit=crop", None, "Wedding", "The Vows", None),
      PortfolioItem(4, Video, "http://commondatastorage.googleapis.com/gtv-videos-bucket/sample/BigBuckBunny.mp4",
        Some("https://images.pexels.com/photos/1651411/pexels-photo-1651411.jpeg"), "Films", "Cinematic Highlights", Some(true)),
      PortfolioItem(5, Photo, "https://images.pexels.com/photos/2058070/pexels-photo-2058070.jpeg", None, "Details", "Golden Details", None),
      PortfolioItem(6, Photo, "https://images.pexels.com/photos/725462/pexels-photo-725462.jpeg", None, "Wedding", "Joyful Tears", None),
      PortfolioItem(7, Photo, "https://images.unsplash.com/photo-1606800052052-a08af7148866?q=80&w=2070&auto=format&fit=crop", None, "Wedding", "Eternal Bond", None),
      PortfolioItem(8, Video, "http://commondatastorage.googleapis.com/gtv-videos-bucket/sample/BigBuckBunny.mp4",
        Some("https://images.unsplash.com/photo-1519741497674-611481863552?q=80&w=2070&auto=format&fit=crop"), "Films", "Silent Emotions", Some(false)) ]

  const MockTestimonials: seq<Testimonial> :=
    [ Testimonial(1, "Aditi & Rahul", "A Cinematic Dream", "DC Art Production made our wedding look like a movie! The team was so professional and patient.", "Delhi",
        "https://images.unsplash.com/photo-1621621667797-e06afc217fb0?q=80&w=2070&auto=format&fit=crop"),
      Testimonial(2, "Priya & Aman", "Best Decision Ever", "We are absolutely in love with our pre-wedding shoot. The creativity they showed was unmatched.", "Gurgaon",
        "https://images.unsplash.com/photo-1583939003579-730e3918a45a?q=80&w=1974&auto=format&fit=crop"),
      Testimonial(3, "Sneha & Vikram", "Memories for Life", "The cinematic film they created for us is a masterpiece. It captured the essence of our family.", "Noida",
        "https://images.unsplash.com/photo-1511285560982-1351cdeb9821?q=80&w=2070&auto=format&fit=crop") ]

  const MockFaqs: seq<FaqItem> :=
    [ FaqItem(1, "Do you travel for destination weddings?", "Yes, we love traveling! We have covered weddings across India and internationally.", true),
      FaqItem(2, "How far in advance should we book you?", "We recommend booking at least 6-12 months in advance.", true),
      FaqItem(3, "What is your payment policy?", "We take a 25% advance to block the dates.", true),
      FaqItem(4, "Do you provide raw footage?", "We provide processed JPEGs and edited films. Raw footage is extra.", true),
      FaqItem(5, "What equipment do you use?", "We use high-end Sony and Canon mirrorless cameras with prime lenses.", false),
      FaqItem(6, "Can we customize the package?", "Yes, all packages are customizable.", false),
      FaqItem(7, "Do you offer drone services?", "Yes, drone coverage is available as an add-on.", false) ]

  const MockBookings: seq<Booking> :=
    [ Booking(1, "John Doe", "9876543210", "john@example.com", "2024-12-25", "Need photography for my wedding.", New, "2024-01-01") ]

  /** The stored booking: the request's fields, the given id and timestamp, status "new". */
  function NewBooking(data: BookingRequest, id: int, createdAt: string): (b: Booking)
    ensures BookingRequest(b.name, b.phone, b.email, b.date, b.message) == data
    ensures b.id == id && b.createdAt == createdAt && b.status == New
  {
    Booking(id, data.name, data.phone, data.email, data.date, data.message, New, createdAt)
  }

  datatype LoginResponse = LoginResponse(success: bool, token: string)

  const InvalidCredentials := "Invalid credentials"

  /** The mock login: one literal credential pair; anything else is the thrown "Invalid credentials". */
  function Login(username: string, password: string): (r: Result<LoginResponse, string>)
    ensures r.Ok? <==> username == "admin" && password == "password"
    ensures r.Ok? ==> r.value == LoginResponse(true, "mock-token")
    ensures r.Err? ==> r.error == InvalidCredentials
  {
    if username == "admin" && password == "password" then Ok(LoginResponse(true, "mock-token"))
    else Err(InvalidCredentials)
  }

  /**
   * The service list after deleting the first service whose id matches,
   * or the list itself when none matches.
   */
  function RemoveFirst(s: seq<Service>, id: int): (r: seq<Service>)
    ensures (exists k :: 0 <= k < |s| && s[k].id == id) ==> |r| == |s| - 1
    ensures (forall k :: 0 <= k < |s| ==> s[k].id != id) ==> r == s
  {
    if s == [] then []
    else if s[0].id == id then s[1..]
    else
      var rest := RemoveFirst(s[1..], id);
      assert (exists k :: 0 <= k < |s| && s[k].id == id) ==> exists k :: 0 <= k < |s[1..]| && s[1..][k].id == id by {
        if exists k :: 0 <= k < |s| && s[k].id == id {
          var k :| 0 <= k < |s| && s[k].id == id;
          assert s[1..][k - 1].id == id;
        }
      }
      assert s == [s[0]] + s[1..];
      [s[0]] + rest
  }

  /** Splicing out the first match is exactly RemoveFirst. */
  lemma {:induction false} RemoveFirstIsSplice(s: seq<Service>, id: int, i: nat)
    requires i < |s| && s[i].id == id
    requires forall k :: 0 <= k < i ==> s[k].id != id
    ensures RemoveFirst(s, id) == s[..i] + s[i + 1..]
  {
    if i > 0 {
      RemoveFirstIsSplice(s[1..], id, i - 1);
      assert s[1..][..i - 1] == s[1..i];
      assert s[1..][i..] == s[i + 1..];
      assert s[..i] == [s[0]] + s[1..i];
    }
  }

  /** Deletion keeps the remaining services in their relative order. */
  lemma {:induction false} RemoveFirstKeepsOrder(s: seq<Service>, id: int)
    ensures IsSubsequence(RemoveFirst(s, id), s)
  {
    if s != [] {
      if s[0].id == id {
        SubsequenceOfSelf(s[1..]);
        SubsequenceOfTail(s[1..], s);
      } else {
        RemoveFirstKeepsOrder(s[1..], id);
        assert RemoveFirst(s, id)[1..] == RemoveFirst(s[1..], id);
      }
    }
  }

  /** Services whose id differs from the deleted one all survive, in number. */
  lemma {:induction false} RemoveFirstKeepsOthers(s: seq<Service>, id: int, x: Service)
    requires x.id != id
    ensures multiset(RemoveFirst(s, id))[x] == multiset(s)[x]
  {
    if s != [] {
      assert s == [s[0]] + s[1..];
      if s[0].id != id {
        RemoveFirstKeepsOthers(s[1..], id, x);
      }
    }
  }

  /** Array.prototype.findIndex over the services: first index with that id, or -1. */
  method FindIndex(s: seq<Service>, id: int) returns (idx: int)
    ensures -1 <= idx < |s|
    ensures idx == -1 <==> forall k :: 0 <= k < |s| ==> s[k].id != id
    ensures idx >= 0 ==> s[idx].id == id && forall k :: 0 <= k < idx ==> s[k].id != id
  {
    var i := 0;
    while i < |s|
      invariant 0 <= i <= |s|
      invariant forall k :: 0 <= k < i ==> s[k].id != id
    {
      if s[i].id == id {
        return i;
      }
      i := i + 1;
    }
    return -1;
  }

  /** The module-level MOCK_* arrays, updated in place by the write operations. */
  class MockStore {
    var services: seq<Service>
    var portfolio: seq<PortfolioItem>
    var testimonials: seq<Testimonial>
    var faqs: seq<FaqItem>
    var bookings: seq<Booking>

    constructor ()
      ensures services == MockServices && portfolio == MockPortfolio
      ensures testimonials == MockTestimonials && faqs == MockFaqs
      ensures bookings == MockBookings
    {
      services := MockServices;
      portfolio := MockPortfolio;
      testimonials := MockTestimonials;
      faqs := MockFaqs;
      bookings := MockBookings;
    }

    method GetServices() returns (r: seq<Service>)
      ensures r == services
    {
      r := services;
    }

    method GetPortfolio() returns (r: seq<PortfolioItem>)
      ensures r == portfolio
    {
      r := portfolio;
    }

    method GetTestimonials() returns (r: seq<Testimonial>)
      ensures r == testimonials
    {
      r := testimonials;
    }

    method GetFaqs() returns (r: seq<FaqItem>)
      ensures r == faqs
    {
      r := faqs;
    }

    /** Both the mock and the production branch return the in-memory bookings. */
    method GetBookings() returns (r: seq<Booking>)
      ensures r == bookings
    {
      r := bookings;
    }

    /** Appends exactly one booking with status `new`; `now` and `isoNow` stand for the clock. */
    method SubmitBooking(data: BookingRequest, now: int, isoNow: string) returns (success: bool)
      modifies this
      ensures success
      ensures bookings == old(bookings) + [NewBooking(data, now, isoNow)]
      ensures bookings[|bookings| - 1].status == New
      ensures services == old(services) && portfolio == old(portfolio)
      ensures testimonials == old(testimonials) && faqs == old(faqs)
    {
      bookings := bookings + [NewBooking(data, now, isoNow)];
      success := true;
    }

    /** Appends one service carrying the given fields and a clock-derived id. */
    method AddService(title: string, description: string, iconName: string, now: int)
      modifies this
      ensures services == old(services) + [Service(now, title, description, iconName)]
      ensures bookings == old(bookings) && portfolio == old(portfolio)
      ensures testimonials == old(testimonials) && faqs == old(faqs)
    {
      services := services + [Service(now, title, description, iconName)];
    }

    /** findIndex then splice(idx, 1) when idx > -1. */
    method DeleteService(id: int)
      modifies this
      ensures services == RemoveFirst(old(services), id)
      ensures bookings == old(bookings) && portfolio == old(portfolio)
      ensures testimonials == old(testimonials) && faqs == old(faqs)
    {
      var idx := FindIndex(services, id);
      if idx > -1 {
        RemoveFirstIsSplice(services, id, idx);
        services := services[..idx] + services[idx + 1..];
      }
    }
  }
}
