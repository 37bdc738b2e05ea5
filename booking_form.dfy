/**
 * The booking form of one package: the seats left for its departure day,
 * the party-size input, the checks made before a booking is requested, the
 * request body and the price shown.
 */
module BookingForm {
  import opened Js
  import opened Numbers
  import opened Bookings

  /** A booking takes seats of the package when it is paid for that package's departure day. */
  predicate Counts(b: Booking, wisataId: Option<int>, departure: int)
  {
    wisataId == Some(b.wisataId) && b.status == "settlement" && b.day == departure
  }

  /** The `filter` over the booking list. */
  function Confirmed(bookings: seq<Booking>, wisataId: Option<int>, departure: int): (r: seq<Booking>)
    ensures |r| <= |bookings|
    ensures forall b :: b in r ==> b in bookings && Counts(b, wisataId, departure)
    ensures forall b :: b in bookings && Counts(b, wisataId, departure) ==> b in r
    ensures forall b :: multiset(r)[b] == if Counts(b, wisataId, departure) then multiset(bookings)[b] else 0
  {
    if bookings == [] then []
    else
      assert bookings == [bookings[0]] + bookings[1..];
      (if Counts(bookings[0], wisataId, departure) then [bookings[0]] else [])
      + Confirmed(bookings[1..], wisataId, departure)
  }

  /** The `reduce((total, b) => total + b.jumlahOrang, 0)`, a fold from the left. */
  function TotalBooked(bookings: seq<Booking>): int
  {
    if bookings == [] then 0
    else TotalBooked(bookings[..|bookings| - 1]) + bookings[|bookings| - 1].jumlahOrang
  }

  /**
   * `sisaKapasitas`: the capacity minus every counted party. `routeId` is
   * the `:wisataId` route parameter, compared after `parseInt`. Nothing
   * clamps the result: it is the capacity minus the people of every paid
   * booking of this package on its departure day.
   */
  function Remaining(kapasitas: int, bookings: seq<Booking>, routeId: string, departure: int): (r: int)
    ensures r == kapasitas - SeatsTaken(bookings, ParseInt(routeId), departure)
  {
    TotalBookedIsSeatsTaken(bookings, ParseInt(routeId), departure);
    kapasitas - TotalBooked(Confirmed(bookings, ParseInt(routeId), departure))
  }

  /** An independent statement of the seats taken: the sum over counted bookings. */
  function SeatsTaken(bookings: seq<Booking>, wisataId: Option<int>, departure: int): int
  {
    if bookings == [] then 0
    else
      (if Counts(bookings[0], wisataId, departure) then bookings[0].jumlahOrang else 0)
      + SeatsTaken(bookings[1..], wisataId, departure)
  }

  lemma {:induction false} TotalBookedAppend(xs: seq<Booking>, ys: seq<Booking>)
    ensures TotalBooked(xs + ys) == TotalBooked(xs) + TotalBooked(ys)
    decreases |ys|
  {
    if ys == [] {
      assert xs + ys == xs;
    } else {
      var last := ys[|ys| - 1];
      assert (xs + ys)[..|xs + ys| - 1] == xs + ys[..|ys| - 1];
      TotalBookedAppend(xs, ys[..|ys| - 1]);
    }
  }

  lemma {:induction false} SeatsTakenAppend(xs: seq<Booking>, ys: seq<Booking>, wisataId: Option<int>, departure: int)
    ensures SeatsTaken(xs + ys, wisataId, departure) == SeatsTaken(xs, wisataId, departure) + SeatsTaken(ys, wisataId, departure)
    decreases |xs|
  {
    if xs == [] {
      assert xs + ys == ys;
    } else {
      assert (xs + ys)[0] == xs[0];
      assert (xs + ys)[1..] == xs[1..] + ys;
      SeatsTakenAppend(xs[1..], ys, wisataId, departure);
    }
  }

  /** The filter-then-reduce of the form and the direct sum agree on every booking list. */
  lemma {:induction false} TotalBookedIsSeatsTaken(bookings: seq<Booking>, wisataId: Option<int>, departure: int)
    ensures TotalBooked(Confirmed(bookings, wisataId, departure)) == SeatsTaken(bookings, wisataId, departure)
    decreases |bookings|
  {
    if bookings != [] {
      var head := if Counts(bookings[0], wisataId, departure) then [bookings[0]] else [];
      TotalBookedAppend(head, Confirmed(bookings[1..], wisataId, departure));
      TotalBookedIsSeatsTaken(bookings[1..], wisataId, departure);
      if head != [] {
        assert head[..0] == [];
      }
    }
  }

  /** A booking of another package, another status or another day does not change the remaining seats. */
  lemma RemainingIgnoresUncounted(kapasitas: int, xs: seq<Booking>, b: Booking, ys: seq<Booking>, routeId: string, departure: int)
    requires !Counts(b, ParseInt(routeId), departure)
    ensures Remaining(kapasitas, xs + [b] + ys, routeId, departure) == Remaining(kapasitas, xs + ys, routeId, departure)
  {
    var id := ParseInt(routeId);
    SeatsTakenAppend(xs + [b], ys, id, departure);
    SeatsTakenAppend(xs, [b], id, departure);
    SeatsTakenAppend(xs, ys, id, departure);
    assert [b][1..] == [];
  }

  /** A paid booking of this package on its departure day takes exactly its party size. */
  lemma RemainingCountsConfirmed(kapasitas: int, xs: seq<Booking>, b: Booking, ys: seq<Booking>, routeId: string, departure: int)
    requires Counts(b, ParseInt(routeId), departure)
    ensures Remaining(kapasitas, xs + [b] + ys, routeId, departure)
      == Remaining(kapasitas, xs + ys, routeId, departure) - b.jumlahOrang
  {
    var id := ParseInt(routeId);
    SeatsTakenAppend(xs + [b], ys, id, departure);
    SeatsTakenAppend(xs, [b], id, departure);
    SeatsTakenAppend(xs, ys, id, departure);
    assert [b][1..] == [];
  }

  lemma {:induction false} SeatsTakenNonNegative(bookings: seq<Booking>, wisataId: Option<int>, departure: int)
    requires forall i :: 0 <= i < |bookings| ==> bookings[i].jumlahOrang >= 0
    ensures SeatsTaken(bookings, wisataId, departure) >= 0
    decreases |bookings|
  {
    if bookings != [] {
      SeatsTakenNonNegative(bookings[1..], wisataId, departure);
    }
  }

  /** With party sizes that are not negative the remaining seats never exceed the capacity. */
  lemma RemainingAtMostCapacity(kapasitas: int, bookings: seq<Booking>, routeId: string, departure: int)
    requires forall i :: 0 <= i < |bookings| ==> bookings[i].jumlahOrang >= 0
    ensures Remaining(kapasitas, bookings, routeId, departure) <= kapasitas
  {
    SeatsTakenNonNegative(bookings, ParseInt(routeId), departure);
  }

  lemma {:induction false} NothingCountsForNaN(bookings: seq<Booking>, departure: int)
    ensures SeatsTaken(bookings, None, departure) == 0
    decreases |bookings|
  {
    if bookings != [] {
      NothingCountsForNaN(bookings[1..], departure);
    }
  }

  /** When the route parameter is not a number no booking matches, so the whole capacity remains. */
  lemma RemainingForNonNumericRoute(kapasitas: int, bookings: seq<Booking>, routeId: string, departure: int)
    requires ParseInt(routeId).None?
    ensures Remaining(kapasitas, bookings, routeId, departure) == kapasitas
  {
    NothingCountsForNaN(bookings, departure);
  }

  /**
   * The remaining seats are not clamped: one settled party larger than the
   * capacity gives a negative count.
   */
  lemma RemainingCanBeNegative(wisataId: int, day: int, party: int)
    requires party > 1
    ensures Remaining(1, [Booking(wisataId, "settlement", day, party, 0)], IntString(wisataId), day) == 1 - party < 0
  {
    var b := Booking(wisataId, "settlement", day, party, 0);
    ParseIntOfIntString(wisataId);
    assert [b][1..] == [];
    assert SeatsTaken([b], ParseInt(IntString(wisataId)), day) == party;
  }

  // ---------------------------------------------------------------------
  // Submission.

  const MinPartyText := "Jumlah orang harus minimal 1"
  const BookingFailedText := "Terjadi kesalahan saat booking. Silakan coba lagi."
  const LoadFailedText := "Gagal memuat data wisata. Silakan coba lagi nanti."

  /** The capacity message; it names the remaining count. */
  function CapacityText(remaining: int): string
  {
    "Jumlah orang melebihi kapasitas tersisa (" + IntString(remaining) + ")"
  }

  /**
   * The checks of the submit handler, in their order: the party must be at
   * least 1, then no larger than the remaining seats. `None` means both passed.
   */
  function SubmitCheck(jumlahOrang: int, remaining: int): (r: Option<string>)
    ensures r.None? <==> 1 <= jumlahOrang <= remaining
    ensures jumlahOrang < 1 ==> r == Some(MinPartyText)
    ensures 1 <= jumlahOrang && remaining < jumlahOrang ==> r == Some(CapacityText(remaining))
  {
    if jumlahOrang < 1 then Some(MinPartyText)
    else if jumlahOrang > remaining then Some(CapacityText(remaining))
    else None
  }

  /**
   * The submit button's `disabled`: it is enabled exactly when no request is
   * in flight and a party of one would pass the handler's checks.
   */
  function SubmitDisabled(submitting: bool, remaining: int): (d: bool)
    ensures d <==> submitting || SubmitCheck(1, remaining).Some?
  {
    submitting || remaining < 1
  }

  /** The total shown under the form. */
  function DisplayedTotal(harga: int, jumlahOrang: int): int
  {
    harga * jumlahOrang
  }

  /** With no seat left the button is disabled and the handler refuses every party size. */
  lemma NoSeatNoRequest(submitting: bool, jumlahOrang: int, remaining: int)
    requires remaining < 1
    ensures SubmitDisabled(submitting, remaining)
    ensures SubmitCheck(jumlahOrang, remaining).Some?
  {
  }

  /**
   * The total shown for what was typed into the party-size input: the unit
   * price times the typed number, or the unit price alone when the input
   * holds no number or 0. A non-zero price never shows a zero total.
   */
  lemma TotalShownForTypedParty(harga: int, value: string)
    ensures ParseInt(value).Some? && ParseInt(value).value != 0 ==>
      DisplayedTotal(harga, ParseCount(value)) == harga * ParseInt(value).value
    ensures ParseInt(value).None? || ParseInt(value) == Some(0) ==>
      DisplayedTotal(harga, ParseCount(value)) == harga
    ensures harga != 0 ==> DisplayedTotal(harga, ParseCount(value)) != 0
    ensures harga > 0 && ParseCount(value) > 0 ==> DisplayedTotal(harga, ParseCount(value)) >= harga
  {
    var j := ParseCount(value);
    if harga != 0 {
      NonZeroProduct(harga, j);
    }
    if harga > 0 && j > 0 {
      ProductAtLeast(harga, j);
    }
  }

  lemma {:induction false} ProductAtLeast(a: nat, b: nat)
    requires b >= 1
    ensures a * b >= a
    decreases b
  {
    if b > 1 {
      ProductAtLeast(a, b - 1);
      assert a * b == a * (b - 1) + a;
    }
  }

  lemma NonZeroProduct(a: int, b: int)
    requires a != 0 && b != 0
    ensures a * b != 0
  {
    var x: nat := if a < 0 then -a else a;
    var y: nat := if b < 0 then -b else b;
    ProductAtLeast(x, y);
    assert a * b == x * y || a * b == -(x * y);
  }

  /**
   * Capacity 10 with 8 seats paid on the departure day leaves 2, whatever a
   * pending booking or another package's booking holds: a party of 3 is
   * refused with the capacity message, a party of 2 passes.
   */
  lemma TwoSeatsLeft(wisataId: int, day: int, pending: int, other: int)
    ensures var bookings := [Booking(wisataId, "settlement", day, 8, 0), Booking(wisataId, "pending", day, pending, 0),
                             Booking(wisataId + 1, "settlement", day, other, 0)];
      && Remaining(10, bookings, IntString(wisataId), day) == 2
      && SubmitCheck(3, 2) == Some(CapacityText(2))
      && SubmitCheck(2, 2).None?
  {
    var b0, b1, b2 := Booking(wisataId, "settlement", day, 8, 0), Booking(wisataId, "pending", day, pending, 0),
                      Booking(wisataId + 1, "settlement", day, other, 0);
    ParseIntOfIntString(wisataId);
    EightSeatsPaid(b0, b1, b2, IntString(wisataId));
    CheckWithTwoLeft();
  }

  lemma EightSeatsPaid(b0: Booking, b1: Booking, b2: Booking, routeId: string)
    requires ParseInt(routeId) == Some(b0.wisataId) && b0.status == "settlement" && b0.jumlahOrang == 8
    requires b1.status != "settlement" && b2.wisataId != b0.wisataId && b1.day == b0.day == b2.day
    ensures SeatsTaken([b0, b1, b2], ParseInt(routeId), b0.day) == 8
  {
    var id := ParseInt(routeId);
    assert [b2][1..] == [];
    assert SeatsTaken([b2], id, b0.day) == 0;
    assert [b1, b2][1..] == [b2];
    assert SeatsTaken([b1, b2], id, b0.day) == 0;
    assert [b0, b1, b2][1..] == [b1, b2];
  }

  lemma CheckWithTwoLeft()
    ensures SubmitCheck(3, 2) == Some(CapacityText(2)) && SubmitCheck(2, 2).None?
  {
  }

  /** The package as the form uses it. */
  datatype WisataData = WisataData(harga: int, kapasitas: int, pemberangkatan: int)

  /** The body of the create-booking request. */
  datatype CreateBooking = CreateBooking(wisataId: Option<int>, tanggalBooking: int, jumlahOrang: int)

  /** The navigation to the confirmation page, with the created booking and the package. */
  datatype Confirmation = Confirmation(bookingData: JsValue, wisataData: WisataData)

  /** The form's component state. */
  class BookingFormPage {
    var wisataData: Option<WisataData>
    var jumlahOrang: int
    var loading: bool
    var error: JsValue
    var formError: JsValue
    var submitting: bool
    var sisaKapasitas: int

    constructor ()
      ensures wisataData.None? && jumlahOrang == 1 && loading && error == Null
      ensures formError == Null && !submitting && sisaKapasitas == 0
    {
      wisataData, jumlahOrang, loading, error := None, 1, true, Null;
      formError, submitting, sisaKapasitas := Null, false, 0;
    }

    /**
     * The loading effect: `wisata` is the package, `bookings` the booking
     * list, each `None` when its request failed. The booking list is only
     * asked for once the package has arrived.
     */
    method Load(routeId: string, wisata: Option<WisataData>, bookings: Option<seq<Booking>>)
      modifies this`wisataData, this`sisaKapasitas, this`loading, this`error
      ensures !loading
      ensures wisataData == (if wisata.Some? then wisata else old(wisataData))
      ensures wisata.Some? && bookings.Some? ==>
        error == old(error)
        && sisaKapasitas == Remaining(wisata.value.kapasitas, bookings.value, routeId, wisata.value.pemberangkatan)
      ensures wisata.None? || bookings.None? ==> error == Str(LoadFailedText) && sisaKapasitas == old(sisaKapasitas)
    {
      if wisata.None? {
        error := Str(LoadFailedText);
        loading := false;
        return;
      }
      var w := wisata.value;
      wisataData := wisata;
      if bookings.None? {
        error := Str(LoadFailedText);
        loading := false;
        return;
      }
      sisaKapasitas := Remaining(w.kapasitas, bookings.value, routeId, w.pemberangkatan);
      loading := false;
    }

    /** The party-size input's change handler: `parseInt(value) || 1`. */
    method OnJumlahChange(value: string)
      modifies this`jumlahOrang
      ensures jumlahOrang == ParseCount(value)
    {
      jumlahOrang := ParseCount(value);
    }

    /**
     * The submit handler. A request is sent only when both checks pass; its
     * reply decides between the confirmation page and an error message.
     */
    method HandleSubmit(routeId: string, reply: Reply) returns (request: Option<CreateBooking>, nav: Option<Confirmation>)
      requires wisataData.Some?
      modifies this`formError, this`submitting
      ensures request.Some? <==> SubmitCheck(jumlahOrang, sisaKapasitas).None?
      ensures request.None? ==>
        formError == Str(SubmitCheck(jumlahOrang, sisaKapasitas).value) && !submitting && nav.None?
      ensures request.Some? ==>
        request.value == CreateBooking(ParseInt(routeId), wisataData.value.pemberangkatan, jumlahOrang)
      ensures nav.Some? ==> reply.Ok? && request.Some? && formError == Null && submitting
      ensures nav.Some? ==> nav.value.wisataData == wisataData.value
      ensures request.Some? && reply.Ok? ==>
        if Prop(reply.body, "booking").Some? then nav == Some(Confirmation(Prop(reply.body, "booking").value, wisataData.value))
        else nav.None? && formError == Str(BookingFailedText) && !submitting
      ensures request.Some? && reply.Ok? && reply.body.Obj? ==>
        nav == Some(Confirmation(OptProp(reply.body, "booking"), wisataData.value))
      ensures request.Some? && reply.Failed? ==>
        formError == CaughtMessage(reply.error, BookingFailedText) && !submitting && nav.None?
    {
      formError := Null;
      submitting := true;
      if jumlahOrang < 1 {
        formError := Str(MinPartyText);
        submitting := false;
        return None, None;
      }
      if jumlahOrang > sisaKapasitas {
        formError := Str(CapacityText(sisaKapasitas));
        submitting := false;
        return None, None;
      }
      ParseIntOfIntString(jumlahOrang);
      var body := CreateBooking(ParseInt(routeId), wisataData.value.pemberangkatan, ParseInt(IntString(jumlahOrang)).value);
      request := Some(body);
      nav := None;
      match reply
      case Ok(_, data) =>
        match Prop(data, "booking") {
          case Some(booking) =>
            nav := Some(Confirmation(booking, wisataData.value));
          case None =>
            formError := CaughtMessage(TypeErrorFailure(Str("TypeError")), BookingFailedText);
            submitting := false;
        }
      case Failed(err) =>
        formError := CaughtMessage(err, BookingFailedText);
        submitting := false;
    }
  }
}
