/** A booking record as the booking list endpoint returns it. */
module Bookings {

  /**
   * `wisataId` names the package, `status` is the payment state the backend
   * records ("pending", "settlement", ...), `day` is the departure day
   * (`tanggalBooking`) as a day number, `jumlahOrang` the party size and
   * `totalHarga` the price the backend computed.
   */
  datatype Booking = Booking(
    wisataId: int,
    status: string,
    day: int,
    jumlahOrang: int,
    totalHarga: int)
}
