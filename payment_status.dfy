/**
 * The payment status page: the lookup from a payment status to its badge,
 * the banner shown above the details, the two-step fetch of the
 * transaction and its booking, and the choice of what the page renders.
 */
module PaymentStatus {
  import opened Js

  // ---------------------------------------------------------------------
  // Status badge.

  datatype Badge = Badge(variant: string, caption: string)

  /** The own entries of the status table. */
  const StatusTable: map<string, Badge> := map[
    "pending" := Badge("warning", "Menunggu Pembayaran"),
    "settlement" := Badge("success", "Pembayaran Berhasil"),
    "capture" := Badge("success", "Pembayaran Ditangkap"),
    "deny" := Badge("danger", "Pembayaran Ditolak"),
    "success" := Badge("success", "Pembayaran Berhasil"),
    "cancel" := Badge("danger", "Pembayaran Dibatalkan"),
    "expire" := Badge("secondary", "Pembayaran Kedaluwarsa"),
    "failure" := Badge("danger", "Pembayaran Gagal"),
    "refund" := Badge("info", "Pembayaran Dikembalikan"),
    "partial_refund" := Badge("info", "Pembayaran Dikembalikan Sebagian"),
    "authorize" := Badge("primary", "Pembayaran Diotorisasi")
  ]

  const UnknownBadge := Badge("secondary", "Status Tidak Diketahui")

  /**
   * The names an object literal inherits from Object.prototype. Indexing the
   * table with one of them finds an inherited function (or the prototype
   * itself), which is truthy.
   */
  const PrototypeMembers: set<string> := {
    "constructor", "__defineGetter__", "__defineSetter__", "hasOwnProperty",
    "__lookupGetter__", "__lookupSetter__", "isPrototypeOf", "propertyIsEnumerable",
    "toString", "valueOf", "__proto__", "toLocaleString"
  }

  /** The key a status indexes the table with: `String(status)`. */
  function StatusKey(status: JsValue): string
  {
    ToJsString(status)
  }

  /**
   * `statusMap[status] || default` as written. `None` is a badge whose
   * variant and label are both undefined: the inherited member is truthy,
   * so the default is not used, and it has neither property.
   */
  function StatusBadgeAsWritten(status: JsValue): (r: Option<Badge>)
    ensures r.None? <==> StatusKey(status) !in StatusTable && StatusKey(status) in PrototypeMembers
  {
    var key := StatusKey(status);
    if key in StatusTable then Some(StatusTable[key])
    else if key in PrototypeMembers then None
    else Some(UnknownBadge)
  }

  /** The status "constructor" gets a badge with no variant and no label. */
  lemma ConstructorStatusHasNoBadge()
    ensures StatusBadgeAsWritten(Str("constructor")).None?
  {
    assert "constructor" !in StatusTable;
  }

  /**
   * The lookup as intended: the own entry of the status, and the
   * "Status Tidak Diketahui" badge for every other status.
   */
  function StatusBadge(status: JsValue): (b: Badge)
    ensures StatusKey(status) in StatusTable ==> b == StatusTable[StatusKey(status)]
    ensures StatusKey(status) !in StatusTable ==> b == UnknownBadge
  {
    var key := StatusKey(status);
    if key in StatusTable then StatusTable[key] else UnknownBadge
  }

  /** Off the inherited names the code as written and the intended lookup agree. */
  lemma AsWrittenAgreesOffPrototype(status: JsValue)
    requires StatusKey(status) !in PrototypeMembers
    ensures StatusBadgeAsWritten(status) == Some(StatusBadge(status))
  {
  }

  /** Every caption in the table is non-empty, and the default is used exactly for unlisted statuses. */
  lemma StatusBadgeTotal(status: JsValue)
    ensures StatusBadge(status).caption != ""
    ensures StatusBadge(status) == UnknownBadge <==> StatusKey(status) !in StatusTable
  {
    var key := StatusKey(status);
    if key in StatusTable {
      assert StatusTable[key] != UnknownBadge;
      assert StatusTable[key].caption != "";
    }
  }

  /** Settlement and success are reported alike; a status that is not a string is keyed by its text. */
  lemma SettlementLikeSuccess()
    ensures StatusBadge(Str("settlement")) == StatusBadge(Str("success")) == Badge("success", "Pembayaran Berhasil")
    ensures StatusBadge(Undefined) == UnknownBadge
    ensures StatusBadge(Str("")) == UnknownBadge
  {
    assert "undefined" !in StatusTable;
    assert "" !in StatusTable;
  }

  // ---------------------------------------------------------------------
  // Banners.

  datatype Banner = PaidBanner | PendingBanner | FailedBanner

  /** The statuses of the failure banner, compared with `includes`. */
  const FailedStatuses: seq<JsValue> := [Str("deny"), Str("cancel"), Str("expire"), Str("failure")]

  /** The banners above the details, in page order, each under its own condition. */
  function Banners(status: JsValue): (r: seq<Banner>)
    ensures |r| <= 1
    ensures PaidBanner in r <==> status == Str("settlement") || status == Str("success")
    ensures PendingBanner in r <==> status == Str("pending")
    ensures FailedBanner in r <==> status in FailedStatuses
  {
    (if status == Str("settlement") || status == Str("success") then [PaidBanner] else [])
    + (if status == Str("pending") then [PendingBanner] else [])
    + (if status in FailedStatuses then [FailedBanner] else [])
  }

  /** A banner agrees with the badge: paid with a success badge, pending with a warning, failure with danger or secondary. */
  lemma BannersAgreeWithBadge(status: JsValue)
    ensures PaidBanner in Banners(status) ==> StatusBadge(status).variant == "success"
    ensures PendingBanner in Banners(status) ==> StatusBadge(status).variant == "warning"
    ensures FailedBanner in Banners(status) ==>
      StatusBadge(status).variant == "danger" || StatusBadge(status).variant == "secondary"
    ensures Banners(status) != [] ==> StatusKey(status) in StatusTable
  {
    if status == Str("settlement") || status == Str("success") {
      PaidBadges();
    } else if status == Str("pending") {
      PendingBadge();
    } else if status in FailedStatuses {
      FailedBadges(status);
    }
  }

  lemma PaidBadges()
    ensures "settlement" in StatusTable && StatusBadge(Str("settlement")).variant == "success"
    ensures "success" in StatusTable && StatusBadge(Str("success")).variant == "success"
  {
  }

  lemma PendingBadge()
    ensures "pending" in StatusTable && StatusBadge(Str("pending")).variant == "warning"
  {
  }

  lemma FailedBadges(status: JsValue)
    requires status in FailedStatuses
    ensures StatusKey(status) in StatusTable
    ensures StatusBadge(status).variant == "danger" || StatusBadge(status).variant == "secondary"
  {
  }

  /** Captured, refunded and authorised payments have a badge but no banner. */
  lemma NoBannerForOtherListed()
    ensures Banners(Str("capture")) == []
    ensures Banners(Str("refund")) == []
    ensures Banners(Str("partial_refund")) == []
    ensures Banners(Str("authorize")) == []
    ensures StatusBadge(Str("capture")).variant == "success"
  {
    OtherListedNotFailed();
  }

  lemma OtherListedNotFailed()
    ensures Str("capture") !in FailedStatuses && Str("refund") !in FailedStatuses
    ensures Str("partial_refund") !in FailedStatuses && Str("authorize") !in FailedStatuses
  {
  }

  // ---------------------------------------------------------------------
  // Dates.

  /** A formatted date: "-" or the locale text of a date value (locale formatting is not modelled). */
  datatype DateText = Dash | Localised(date: JsValue)

  /** formatDate's guard: an empty or missing date prints "-". */
  function FormatDate(date: JsValue): (r: DateText)
    ensures r == Dash <==> !Truthy(date)
    ensures r != Dash ==> r == Localised(date)
  {
    if !Truthy(date) then Dash else Localised(date)
  }

  // ---------------------------------------------------------------------
  // Fetching.

  const MissingIdText := "ID Booking tidak ditemukan"
  const FetchFailedText := "Gagal memuat data transaksi. Silakan coba lagi nanti."

  /** The component state of the page. */
  datatype PageState = PageState(
    loading: bool,
    error: JsValue,
    transaction: JsValue,
    booking: JsValue,
    refreshing: bool)

  const InitialPage := PageState(true, Null, Null, Null, false)

  function TransactionPath(base: string, bookingId: JsValue): string
  {
    base + "/gettransaksibybookingid/" + ToJsString(bookingId)
  }

  function BookingPath(base: string, bookingId: JsValue): string
  {
    base + "/getbooking/" + ToJsString(bookingId)
  }

  /** `transactionData && transactionData.boking`: the booking embedded in the transaction. */
  predicate HasEmbeddedBooking(tx: JsValue)
  {
    Truthy(tx) && Truthy(OptProp(tx, "boking"))
  }

  /** State after the fetch ends in the catch block. */
  function Caught(s: PageState, err: Failure): PageState
  {
    s.(error := CaughtMessage(err, FetchFailedText), loading := false, refreshing := false)
  }

  /** State after the fetch runs to its end. */
  function Settle(s: PageState): PageState
  {
    s.(loading := false, refreshing := false)
  }

  /**
   * fetchData: the new state and the paths requested, in order. Reading
   * `.data` of a null body throws a TypeError, which the catch block handles
   * as a failure without a response.
   */
  function Fetch(s: PageState, base: string, bookingId: JsValue, txReply: Reply, bookingReply: Reply): (r: (PageState, seq<string>))
    ensures !r.0.loading
    ensures r.1 == [] <==> !Truthy(bookingId)
    ensures Truthy(bookingId) ==> r.1[0] == TransactionPath(base, bookingId) && !r.0.refreshing
    ensures |r.1| <= 2
    ensures |r.1| == 2 <==>
      Truthy(bookingId) && txReply.Ok? && Prop(txReply.body, "data").Some?
      && !HasEmbeddedBooking(Prop(txReply.body, "data").value)
    ensures r.0.transaction != s.transaction ==>
      txReply.Ok? && Prop(txReply.body, "data") == Some(r.0.transaction)
  {
    if !Truthy(bookingId) then (s.(error := Str(MissingIdText), loading := false), [])
    else
      var first := [TransactionPath(base, bookingId)];
      match txReply
      case Failed(err) => (Caught(s, err), first)
      case Ok(_, body) =>
        match Prop(body, "data")
        case None => (Caught(s, TypeErrorFailure(Str("TypeError"))), first)
        case Some(tx) =>
          var s1 := s.(transaction := tx);
          if HasEmbeddedBooking(tx) then (Settle(s1.(booking := OptProp(tx, "boking"))), first)
          else
            var both := first + [BookingPath(base, bookingId)];
            match bookingReply
            case Failed(err) => (Caught(s1, err), both)
            case Ok(_, body2) =>
              match Prop(body2, "data")
              case None => (Caught(s1, TypeErrorFailure(Str("TypeError"))), both)
              case Some(b) => (Settle(s1.(booking := b)), both)
  }

  /** Without a booking id nothing is requested and the page shows the missing-id error. */
  lemma FetchWithoutId(s: PageState, base: string, bookingId: JsValue, txReply: Reply, bookingReply: Reply)
    requires !Truthy(bookingId)
    ensures Fetch(s, base, bookingId, txReply, bookingReply).1 == []
    ensures Fetch(s, base, bookingId, txReply, bookingReply).0 == s.(error := Str(MissingIdText), loading := false)
    ensures Render(Fetch(s, base, bookingId, txReply, bookingReply).0) == ErrorScreen(Str(MissingIdText))
  {
  }

  /**
   * With a booking id the transaction is always requested first, a second
   * request is made exactly when the transaction arrived without an embedded
   * booking, and the page stops loading and refreshing.
   */
  lemma FetchWithId(s: PageState, base: string, bookingId: JsValue, txReply: Reply, bookingReply: Reply)
    requires Truthy(bookingId)
    ensures var (t, requests) := Fetch(s, base, bookingId, txReply, bookingReply);
      && !t.loading && !t.refreshing
      && 1 <= |requests| <= 2
      && requests[0] == TransactionPath(base, bookingId)
      && (|requests| == 2 <==>
            txReply.Ok? && Prop(txReply.body, "data").Some? && !HasEmbeddedBooking(Prop(txReply.body, "data").value))
      && (|requests| == 2 ==> requests[1] == BookingPath(base, bookingId))
  {
  }

  /** The booking embedded in the transaction is used and the booking endpoint is not asked. */
  lemma FetchUsesEmbeddedBooking(s: PageState, base: string, bookingId: JsValue, status: int, body: JsValue, bookingReply: Reply)
    requires Truthy(bookingId)
    requires Prop(body, "data").Some? && HasEmbeddedBooking(Prop(body, "data").value)
    ensures var tx := Prop(body, "data").value;
      Fetch(s, base, bookingId, Ok(status, body), bookingReply)
        == (s.(transaction := tx, booking := OptProp(tx, "boking"), loading := false, refreshing := false),
            [TransactionPath(base, bookingId)])
  {
  }

  /** Without an embedded booking the booking comes from the second request's data. */
  lemma FetchAsksForBooking(s: PageState, base: string, bookingId: JsValue, status: int, body: JsValue, status2: int, body2: JsValue)
    requires Truthy(bookingId)
    requires Prop(body, "data").Some? && !HasEmbeddedBooking(Prop(body, "data").value)
    requires Prop(body2, "data").Some?
    ensures Fetch(s, base, bookingId, Ok(status, body), Ok(status2, body2))
      == (s.(transaction := Prop(body, "data").value, booking := Prop(body2, "data").value, loading := false, refreshing := false),
          [TransactionPath(base, bookingId), BookingPath(base, bookingId)])
  {
    assert [TransactionPath(base, bookingId)] + [BookingPath(base, bookingId)]
      == [TransactionPath(base, bookingId), BookingPath(base, bookingId)];
  }

  /** A failed transaction request keeps the old transaction and reports the server's message or the default. */
  lemma FetchFailure(s: PageState, base: string, bookingId: JsValue, err: Failure, bookingReply: Reply)
    requires Truthy(bookingId)
    ensures Fetch(s, base, bookingId, Failed(err), bookingReply).0
      == s.(error := CaughtMessage(err, FetchFailedText), loading := false, refreshing := false)
    ensures Render(Fetch(s, base, bookingId, Failed(err), bookingReply).0) == ErrorScreen(CaughtMessage(err, FetchFailedText))
  {
  }

  // ---------------------------------------------------------------------
  // Rendering.

  /** The details of the booking block, shown only when `booking` is truthy. */
  datatype BookingBlock = BookingBlock(id: JsValue, packageName: JsValue, departure: DateText, people: JsValue)

  datatype Screen =
    | Loading
    | ErrorScreen(message: JsValue)
    | NoTransaction
    | Details(banners: seq<Banner>, badge: Badge, paymentTime: DateText, paymentType: JsValue, booking: Option<BookingBlock>)

  /** What the page shows: the spinner, then an error, then the missing transaction, then the details. */
  function Render(s: PageState): (v: Screen)
    ensures v == Loading <==> s.loading
    ensures v.ErrorScreen? <==> !s.loading && Truthy(s.error)
    ensures v == NoTransaction <==> !s.loading && !Truthy(s.error) && !Truthy(s.transaction)
    ensures v.Details? <==> !s.loading && !Truthy(s.error) && Truthy(s.transaction)
    ensures v.Details? ==> (v.booking.Some? <==> Truthy(s.booking))
  {
    if s.loading then Loading
    else if Truthy(s.error) then ErrorScreen(s.error)
    else if !Truthy(s.transaction) then NoTransaction
    else
      var status := OptProp(s.transaction, "status");
      Details(
        Banners(status),
        StatusBadge(status),
        FormatDate(OptProp(s.transaction, "paymentTime")),
        Or(OptProp(s.transaction, "paymentType"), Str("Midtrans")),
        if Truthy(s.booking) then
          Some(BookingBlock(
            OptProp(s.booking, "id"),
            Or(OptProp(OptProp(s.booking, "wisatum"), "nama"), Str("-")),
            FormatDate(OptProp(s.booking, "tanggalBooking")),
            OptProp(s.booking, "jumlahOrang")))
        else None)
  }

  /**
   * The badge the details show is the intended lookup. The code as written
   * shows the same badge for every status that is not an inherited name.
   */
  lemma RenderedBadgeAsWritten(s: PageState)
    requires Render(s).Details?
    requires StatusKey(OptProp(s.transaction, "status")) !in PrototypeMembers
    ensures StatusBadgeAsWritten(OptProp(s.transaction, "status")) == Some(Render(s).badge)
  {
    AsWrittenAgreesOffPrototype(OptProp(s.transaction, "status"));
  }

  /** Once a fetch has run the page is never left on the spinner. */
  lemma FetchEndsLoading(s: PageState, base: string, bookingId: JsValue, txReply: Reply, bookingReply: Reply)
    ensures Render(Fetch(s, base, bookingId, txReply, bookingReply).0) != Loading
  {
  }

  /** The page's component state. */
  class PaymentStatusPage {
    var loading: bool
    var error: JsValue
    var transaction: JsValue
    var booking: JsValue
    var refreshing: bool

    function State(): PageState
      reads this
    {
      PageState(loading, error, transaction, booking, refreshing)
    }

    constructor ()
      ensures State() == InitialPage
    {
      loading, error, transaction, booking, refreshing := true, Null, Null, Null, false;
    }

    /** fetchData, with the two replies as inputs; returns the paths it requests. */
    method FetchData(base: string, bookingId: JsValue, txReply: Reply, bookingReply: Reply) returns (requests: seq<string>)
      modifies this
      ensures (State(), requests) == Fetch(old(State()), base, bookingId, txReply, bookingReply)
    {
      if !Truthy(bookingId) {
        error := Str(MissingIdText);
        loading := false;
        return [];
      }
      requests := [TransactionPath(base, bookingId)];
      var failure: Option<Failure> := None;
      match txReply {
        case Failed(err) =>
          failure := Some(err);
        case Ok(_, body) =>
          match Prop(body, "data") {
            case None =>
              failure := Some(TypeErrorFailure(Str("TypeError")));
            case Some(tx) =>
              transaction := tx;
              if HasEmbeddedBooking(tx) {
                booking := OptProp(tx, "boking");
              } else {
                requests := requests + [BookingPath(base, bookingId)];
                match bookingReply {
                  case Failed(err) =>
                    failure := Some(err);
                  case Ok(_, body2) =>
                    match Prop(body2, "data") {
                      case None => failure := Some(TypeErrorFailure(Str("TypeError")));
                      case Some(b) => booking := b;
                    }
                }
              }
          }
      }
      if failure.Some? {
        error := CaughtMessage(failure.value, FetchFailedText);
      }
      loading := false;
      refreshing := false;
    }

    /** handleRefresh: raise the refreshing flag, then fetch again. */
    method HandleRefresh(base: string, bookingId: JsValue, txReply: Reply, bookingReply: Reply) returns (requests: seq<string>)
      modifies this
      ensures (State(), requests) == Fetch(old(State()).(refreshing := true), base, bookingId, txReply, bookingReply)
    {
      refreshing := true;
      requests := FetchData(base, bookingId, txReply, bookingReply);
    }
  }
}
