/**
 * The package catalogue: which cards can be booked, what their button
 * says, and where a booking click leads depending on the session.
 */
module BookTrip {
  import opened Js
  import opened Numbers
  import opened Bookings
  import BookingForm

  /** A package as the catalogue reads it: its id and its availability status. */
  datatype Package = Package(id: int, status: JsValue)

  /** The catalogue response: its `data` list, when there is one. */
  datatype CatalogBody = CatalogBody(data: Option<seq<Package>>)

  const Available := Str("tersedia")

  /** A card's button can be used exactly for an available package. */
  predicate Bookable(p: Package)
  {
    p.status == Available
  }

  /** The button's text and its `disabled`. */
  datatype Button = Button(text: string, disabled: bool)

  function CardButton(p: Package): (b: Button)
    ensures b.text == "Book Now" <==> Bookable(p)
    ensures b.text == "Sold Out" <==> !Bookable(p)
    ensures b.disabled <==> !Bookable(p)
  {
    if Bookable(p) then Button("Book Now", false) else Button("Sold Out", true)
  }

  /** The path the booking form is mounted at for a package. */
  function BookingPath(wisataId: int): string
  {
    "/booking/" + IntString(wisataId)
  }

  /**
   * handleBooking: a visitor is sent to the login page with the way back
   * and the package in the navigation state; a signed-in user goes to the
   * package's booking form.
   */
  function HandleBooking(isAuthenticated: bool, wisataId: int): (nav: Navigation)
    ensures !isAuthenticated ==>
      nav == Navigate("/login", Obj(map["from" := Str("/book-trip"), "wisataId" := Num(wisataId)]))
    ensures isAuthenticated ==> nav == Navigate(BookingPath(wisataId), Undefined)
    ensures nav.path == "/login" <==> !isAuthenticated
  {
    if !isAuthenticated then Navigate("/login", Obj(map["from" := Str("/book-trip"), "wisataId" := Num(wisataId)]))
    else Navigate(BookingPath(wisataId), Undefined)
  }

  /** The button's `onClick`: `status === "tersedia" && handleBooking(id)`. */
  function OnCardClick(isAuthenticated: bool, p: Package): (nav: Option<Navigation>)
    ensures nav.None? <==> !Bookable(p)
    ensures nav.Some? ==> nav.value == HandleBooking(isAuthenticated, p.id)
  {
    if Bookable(p) then Some(HandleBooking(isAuthenticated, p.id)) else None
  }

  /** `response?.data || []`: a missing response or a missing list is an empty catalogue. */
  function Packages(response: Option<CatalogBody>): (ps: seq<Package>)
    ensures response.None? || response.value.data.None? ==> ps == []
    ensures response.Some? && response.value.data.Some? ==> ps == response.value.data.value
  {
    match response
    case None => []
    case Some(body) => if body.data.Some? then body.data.value else []
  }

  datatype Screen = LoadError | Spinner | Cards(buttons: seq<Button>)

  /** The catalogue: an error first, then the spinner, then one card per package. */
  function Render(response: Option<CatalogBody>, failed: bool): (v: Screen)
    ensures failed ==> v == LoadError
    ensures !failed && response.None? ==> v == Spinner
    ensures !failed && response.Some? ==> v.Cards?
    ensures v.Cards? ==> |v.buttons| == |Packages(response)|
    ensures v.Cards? ==> forall i :: 0 <= i < |v.buttons| ==> v.buttons[i] == CardButton(Packages(response)[i])
  {
    if failed then LoadError
    else if response.None? then Spinner
    else Cards(seq(|Packages(response)|, i requires 0 <= i < |Packages(response)| => CardButton(Packages(response)[i])))
  }

  /** A response without a list renders an empty grid, not an error. */
  lemma MissingListIsEmptyGrid()
    ensures Render(Some(CatalogBody(None)), false) == Cards([])
  {
  }

  /**
   * The booking form reached from a card reads its route parameter back as
   * the same package id, so it counts exactly that package's bookings.
   */
  lemma BookingPathNamesPackage(wisataId: int, b: Booking, departure: int)
    ensures ParseInt(IntString(wisataId)) == Some(wisataId)
    ensures BookingForm.Counts(b, ParseInt(IntString(wisataId)), departure)
      <==> b.wisataId == wisataId && b.status == "settlement" && b.day == departure
  {
    ParseIntOfIntString(wisataId);
  }
}
