/**
 * The admin dashboard's statistics over the booking list and the colour of
 * a booking's status badge.
 */
module Dashboard {
  import opened Js
  import opened Bookings
  import PaymentStatus

  /** `filter(booking => booking.status === status)`. */
  function WithStatus(bookings: seq<Booking>, status: string): (r: seq<Booking>)
    ensures |r| <= |bookings|
    ensures forall b :: b in r <==> b in bookings && b.status == status
    ensures forall b :: multiset(r)[b] == if b.status == status then multiset(bookings)[b] else 0
  {
    if bookings == [] then []
    else
      assert bookings == [bookings[0]] + bookings[1..];
      (if bookings[0].status == status then [bookings[0]] else []) + WithStatus(bookings[1..], status)
  }

  /** An independent count: each booking with the status adds one. */
  function CountWithStatus(bookings: seq<Booking>, status: string): nat
  {
    if bookings == [] then 0
    else (if bookings[0].status == status then 1 else 0) + CountWithStatus(bookings[1..], status)
  }

  lemma {:induction false} WithStatusCount(bookings: seq<Booking>, status: string)
    ensures |WithStatus(bookings, status)| == CountWithStatus(bookings, status)
    decreases |bookings|
  {
    if bookings != [] {
      WithStatusCount(bookings[1..], status);
    }
  }

  /** `pendingBookings`: the number of bookings whose status is pending. */
  function PendingBookings(bookings: seq<Booking>): (n: nat)
    ensures n == CountWithStatus(bookings, "pending")
  {
    WithStatusCount(bookings, "pending");
    |WithStatus(bookings, "pending")|
  }

  /** `completedBookings`: the number of bookings whose status is settlement. */
  function CompletedBookings(bookings: seq<Booking>): (n: nat)
    ensures n == CountWithStatus(bookings, "settlement")
  {
    WithStatusCount(bookings, "settlement");
    |WithStatus(bookings, "settlement")|
  }

  /** `reduce((sum, booking) => sum + booking.totalHarga, 0)`, a fold from the left. */
  function SumHarga(bookings: seq<Booking>): int
  {
    if bookings == [] then 0 else SumHarga(bookings[..|bookings| - 1]) + bookings[|bookings| - 1].totalHarga
  }

  /** The revenue: the prices of the settled bookings. */
  function TotalRevenue(bookings: seq<Booking>): (t: int)
    ensures t == SettledRevenue(bookings)
  {
    TotalRevenueIsSettledRevenue(bookings);
    SumHarga(WithStatus(bookings, "settlement"))
  }

  /** An independent statement of the revenue: each booking adds its price when it is settled. */
  function SettledRevenue(bookings: seq<Booking>): int
  {
    if bookings == [] then 0
    else (if bookings[0].status == "settlement" then bookings[0].totalHarga else 0) + SettledRevenue(bookings[1..])
  }

  lemma {:induction false} WithStatusAppend(xs: seq<Booking>, ys: seq<Booking>, status: string)
    ensures WithStatus(xs + ys, status) == WithStatus(xs, status) + WithStatus(ys, status)
    decreases |xs|
  {
    if xs == [] {
      assert xs + ys == ys;
    } else {
      assert (xs + ys)[0] == xs[0];
      assert (xs + ys)[1..] == xs[1..] + ys;
      WithStatusAppend(xs[1..], ys, status);
    }
  }

  lemma {:induction false} SumHargaAppend(xs: seq<Booking>, ys: seq<Booking>)
    ensures SumHarga(xs + ys) == SumHarga(xs) + SumHarga(ys)
    decreases |ys|
  {
    if ys == [] {
      assert xs + ys == xs;
    } else {
      assert (xs + ys)[..|xs + ys| - 1] == xs + ys[..|ys| - 1];
      SumHargaAppend(xs, ys[..|ys| - 1]);
    }
  }

  /** The filter-then-reduce of the page and the direct sum agree on every booking list. */
  lemma {:induction false} TotalRevenueIsSettledRevenue(bookings: seq<Booking>)
    ensures SumHarga(WithStatus(bookings, "settlement")) == SettledRevenue(bookings)
    decreases |bookings|
  {
    if bookings != [] {
      var head := if bookings[0].status == "settlement" then [bookings[0]] else [];
      SumHargaAppend(head, WithStatus(bookings[1..], "settlement"));
      TotalRevenueIsSettledRevenue(bookings[1..]);
      if head != [] {
        assert head[..0] == [];
      }
    }
  }

  /** No booking is both pending and settled, so the two counts never exceed the list's length. */
  lemma {:induction false} CountsBounded(bookings: seq<Booking>)
    ensures PendingBookings(bookings) + CompletedBookings(bookings) <= |bookings|
    decreases |bookings|
  {
    if bookings != [] {
      CountsBounded(bookings[1..]);
    }
  }

  /** The revenue of an empty list is 0, and the revenue of two lists is the sum of theirs. */
  lemma RevenueAdditive(xs: seq<Booking>, ys: seq<Booking>)
    ensures TotalRevenue([]) == 0
    ensures TotalRevenue(xs + ys) == TotalRevenue(xs) + TotalRevenue(ys)
  {
    WithStatusAppend(xs, ys, "settlement");
    SumHargaAppend(WithStatus(xs, "settlement"), WithStatus(ys, "settlement"));
  }

  /** A booking that is not settled adds nothing to the revenue, whatever its price. */
  lemma RevenueIgnoresUnsettled(xs: seq<Booking>, b: Booking, ys: seq<Booking>)
    requires b.status != "settlement"
    ensures TotalRevenue(xs + [b] + ys) == TotalRevenue(xs + ys)
  {
    RevenueAdditive(xs + [b], ys);
    RevenueAdditive(xs, [b]);
    RevenueAdditive(xs, ys);
    assert [b][1..] == [];
  }

  /** A settled booking adds exactly its price. */
  lemma RevenueCountsSettled(xs: seq<Booking>, b: Booking, ys: seq<Booking>)
    requires b.status == "settlement"
    ensures TotalRevenue(xs + [b] + ys) == TotalRevenue(xs + ys) + b.totalHarga
  {
    RevenueAdditive(xs + [b], ys);
    RevenueAdditive(xs, [b]);
    RevenueAdditive(xs, ys);
    assert [b][1..] == [];
    assert [b][..0] == [];
  }

  lemma {:induction false} SettledRevenueNonNegative(bookings: seq<Booking>)
    requires forall i :: 0 <= i < |bookings| ==> bookings[i].totalHarga >= 0
    ensures SettledRevenue(bookings) >= 0
    decreases |bookings|
  {
    if bookings != [] {
      SettledRevenueNonNegative(bookings[1..]);
    }
  }

  /** With prices that are not negative the revenue is not negative. */
  lemma RevenueNonNegative(bookings: seq<Booking>)
    requires forall i :: 0 <= i < |bookings| ==> bookings[i].totalHarga >= 0
    ensures TotalRevenue(bookings) >= 0
  {
    SettledRevenueNonNegative(bookings);
  }

  /** The colour of a booking's status badge, in the table and in the detail modal. */
  function BadgeColour(status: string): (colour: string)
    ensures colour == "warning" <==> status == "pending"
    ensures colour != "warning" ==> colour == "success"
  {
    if status == "pending" then "warning" else "success"
  }

  /** The dashboard colours an expired or failed booking as the payment page does not: green. */
  lemma BadgeColourDiffersFromPaymentPage()
    ensures BadgeColour("expire") == "success" && PaymentStatus.StatusBadge(Str("expire")).variant == "secondary"
    ensures BadgeColour("failure") == "success" && PaymentStatus.StatusBadge(Str("failure")).variant == "danger"
    ensures BadgeColour("pending") == PaymentStatus.StatusBadge(Str("pending")).variant
  {
  }

  datatype Stats = Stats(
    totalUsers: nat,
    totalBookings: nat,
    totalWisata: nat,
    pendingBookings: nat,
    completedBookings: nat,
    totalRevenue: int)

  /**
   * A response body the page inspects: `data` is the list it reads, or
   * `None` when the body carries no `data` (undefined or null).
   */
  datatype ListBody<T> = ListBody(data: Option<seq<T>>)

  /**
   * The spinner, the statistics, or a page that failed because reading
   * `.data.length` of a body without `data` threw a TypeError outside any
   * `try`.
   */
  datatype View = LoadingView | FailedView | StatsView(stats: Stats)

  /**
   * What the dashboard shows: the spinner until the user, booking and
   * package bodies have all arrived (`None` is a body not yet there), then
   * the statistics read from their `data` lists.
   */
  function Render(users: Option<ListBody<JsValue>>, bookings: Option<ListBody<Booking>>, wisata: Option<ListBody<JsValue>>): (v: View)
    ensures v == LoadingView <==> users.None? || bookings.None? || wisata.None?
    ensures v == FailedView <==>
      users.Some? && bookings.Some? && wisata.Some?
      && (users.value.data.None? || bookings.value.data.None? || wisata.value.data.None?)
    ensures v.StatsView? ==>
      && users.Some? && bookings.Some? && wisata.Some?
      && users.value.data.Some? && bookings.value.data.Some? && wisata.value.data.Some?
      && v.stats.totalUsers == |users.value.data.value|
      && v.stats.totalBookings == |bookings.value.data.value|
      && v.stats.totalWisata == |wisata.value.data.value|
      && v.stats.pendingBookings == CountWithStatus(bookings.value.data.value, "pending")
      && v.stats.completedBookings == CountWithStatus(bookings.value.data.value, "settlement")
      && v.stats.pendingBookings + v.stats.completedBookings <= v.stats.totalBookings
      && v.stats.totalRevenue == SettledRevenue(bookings.value.data.value)
  {
    if users.None? || bookings.None? || wisata.None? then LoadingView
    else if users.value.data.None? || bookings.value.data.None? || wisata.value.data.None? then FailedView
    else
      var bs := bookings.value.data.value;
      CountsBounded(bs);
      StatsView(Stats(|users.value.data.value|, |bs|, |wisata.value.data.value|,
        PendingBookings(bs), CompletedBookings(bs), TotalRevenue(bs)))
  }
}
