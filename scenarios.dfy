/**
 * Client code that drives the repositories through whole request sequences
 * and asserts the responses, using nothing but the methods' contracts.
 */
module Scenarios {
  import opened Js
  import Payments
  import Pets
  import Services
  import Bookings
  import Users

  /**
   * A pet owner (7) books a provider's (3) walking service priced 30. The
   * provider confirms and completes it, and the owner reviews it. Cancelling
   * the completed booking is refused, and a stranger (99) is refused.
   */
  method BookingLifecycle()
  {
    var pets := new Pets.PetRepository();
    var services := new Services.ServiceRepository();
    var bookings := new Bookings.BookingRepository();

    var code, petId := pets.CreatePet(7, Pets.PetFields(Some("Max"), Some("Dog"), None, Some(3), None, None));
    var serviceId;
    code, serviceId := services.CreateService(3, "provider",
      Services.ServiceFields(Some("Dog Walking"), None, Some(30), Some(60), None, None));
    assert code == Created;

    var id;
    code, id := bookings.CreateBooking(7, petId, serviceId, "2026-05-01", Some("Afternoon walk"), pets.pets, services.services);
    assert code == Created;
    assert bookings.bookings[id].status == Bookings.Pending;
    assert bookings.bookings[id].totalPrice == Some(30);

    Bookings.ParseName(Bookings.Confirmed);
    code := bookings.UpdateStatus(id, 3, "provider", "confirmed");
    assert code == Ok && bookings.bookings[id].status == Bookings.Confirmed;

    Bookings.ParseName(Bookings.Completed);
    code := bookings.UpdateStatus(id, 3, "provider", "completed");
    assert code == Ok && bookings.bookings[id].status == Bookings.Completed;

    code := bookings.AddReview(id, 7, Some(5), Some("Great walk"));
    assert code == Ok && bookings.bookings[id].rating == Some(5);

    code := bookings.AddReview(id, 7, None, Some("Walked again"));
    assert code == Ok && bookings.bookings[id].rating == Some(5) && bookings.bookings[id].reviewText == Some("Walked again");

    Bookings.ParseName(Bookings.Cancelled);
    code := bookings.UpdateStatus(id, 3, "provider", "cancelled");
    assert code == BadRequest;

    code := bookings.UpdateStatus(id, 99, "provider", "cancelled");
    assert code == Forbidden;
    code := bookings.UpdateStatus(id, 99, "customer", "cancelled");
    assert code == Forbidden;
  }

  /**
   * The payment glue of the booking routes holds the payment under one
   * random booking id and gives the booking another, so completing the
   * booking by its own id is refused as a mismatch. Cancelling refunds the
   * hold once; a second cancel is refused.
   */
  method EscrowThroughBookingRoutes(bookingDraw: string, holdDraw: string)
    requires bookingDraw != holdDraw
  {
    var escrow := new Payments.PaymentService();
    var holdBookingId := "booking-" + holdDraw;
    var paymentId := escrow.HoldPayment("k3x9q", holdBookingId, 30, "3");
    assert escrow.payments[paymentId].status == Payments.Escrowed;

    var bookingId := "booking-" + bookingDraw;
    assert bookingId[8..] == bookingDraw && holdBookingId[8..] == holdDraw;
    var outcome := escrow.ReleasePayment(paymentId, bookingId);
    assert outcome == Payments.Failed(Payments.BookingMismatch);

    outcome := escrow.RefundPayment(paymentId);
    assert outcome == Payments.Done && escrow.payments[paymentId].status == Payments.Refunded;

    outcome := escrow.RefundPayment(paymentId);
    assert outcome == Payments.Failed(Payments.NotInEscrow);
    outcome := escrow.ReleasePayment(paymentId, holdBookingId);
    assert outcome == Payments.Failed(Payments.NotInEscrow);
  }

  /**
   * Registration, then login with the right password, a wrong password and
   * an unknown email; a second registration with the same email is refused.
   */
  method RegisterAndLogin(hash: string -> string)
    requires hash("test123") != hash("wrong")
  {
    var users := new Users.UserRepository();
    var compare := (password: string, stored: string) => hash(password) == stored;
    var sign := (id: int, role: Option<string>) => "token";

    var code := users.Register("test@example.com", "test123", None, Some("owner"), hash);
    assert code == Created;
    assert users.rows[0].passwordHash == hash("test123");

    var token;
    code, token := users.Login("test@example.com", "test123", compare, sign);
    assert code == Ok && token == Some("token");

    code, token := users.Login("test@example.com", "wrong", compare, sign);
    assert code == Unauthorized && token == None;

    code, token := users.Login("nobody@example.com", "test123", compare, sign);
    assert code == Unauthorized && token == None;

    code := users.Register("test@example.com", "other", None, None, hash);
    assert code == BadRequest && |users.rows| == 1;

    code := users.UpdateProfile(1, Some("Sam"), Some(""), None);
    assert code == Ok && users.rows[0].name == Some("Sam") && users.rows[0].phoneNumber == None;
  }
}
