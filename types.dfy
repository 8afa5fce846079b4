/**
 * The records the studio site passes around (services, portfolio items,
 * testimonials, FAQs, bookings), plus the small wrapper types the rest of
 * the model uses for values that may be missing and operations that may fail.
 */
module Types {

  datatype Option<+T> = None | Some(value: T)

  datatype Result<+T, +E> = Ok(value: T) | Err(error: E)

  datatype Service = Service(id: int, title: string, description: string, iconName: string)

  datatype MediaType = Photo | Video

  /** `hasAudio` is optional in the record; the video player reads a missing flag as true. */
  datatype PortfolioItem = PortfolioItem(
    id: int,
    kind: MediaType,
    src: string,
    poster: Option<string>,
    category: string,
    title: string,
    hasAudio: Option<bool>)

  datatype Testimonial = Testimonial(
    id: int, name: string, title: string, text: string, location: string, image: string)

  datatype FaqItem = FaqItem(id: int, question: string, answer: string, isFeatured: bool)

  datatype BookingStatus = New | Contacted | Booked

  datatype Booking = Booking(
    id: int,
    name: string,
    phone: string,
    email: string,
    date: string,
    message: string,
    status: BookingStatus,
    createdAt: string)

  /** The fields a visitor fills in on the contact form. */
  datatype BookingRequest = BookingRequest(
    name: string, phone: string, email: string, date: string, message: string)

  /** True when `sub` can be obtained from `s` by deleting elements, order kept. */
  predicate IsSubsequence<T(==)>(sub: seq<T>, s: seq<T>)
    decreases |s|
  {
    if sub == [] then true
    else if s == [] then false
    else if sub[0] == s[0] then IsSubsequence(sub[1..], s[1..])
    else IsSubsequence(sub, s[1..])
  }

  lemma {:induction false} SubsequenceOfSelf<T>(s: seq<T>)
    ensures IsSubsequence(s, s)
    decreases |s|
  {
    if s != [] {
      SubsequenceOfSelf(s[1..]);
    }
  }

  /** Skipping one more element of the longer sequence keeps the relation. */
  lemma {:induction false} SubsequenceOfTail<T>(sub: seq<T>, s: seq<T>)
    requires s != [] && IsSubsequence(sub, s[1..])
    ensures IsSubsequence(sub, s)
    decreases |s|, 1
  {
    if sub != [] && sub[0] == s[0] {
      DropHead(sub, s[1..]);
    }
  }

  lemma {:induction false} DropHead<T>(sub: seq<T>, t: seq<T>)
    requires sub != [] && IsSubsequence(sub, t)
    ensures IsSubsequence(sub[1..], t)
    decreases |t|, 2
  {
    if sub[0] == t[0] {
      SubsequenceOfTail(sub[1..], t);
    } else {
      DropHead(sub, t[1..]);
      SubsequenceOfTail(sub[1..], t);
    }
  }
}
