/** The three-step booking dialog: date, time and service; notes; payment
    method and confirmation. A confirmed booking is acknowledged for three
    seconds, after which the dialog returns to its first step and asks its
    owner to close it. */
module Booking {
  import opened Validation

  datatype ServiceOffer = ServiceOffer(id: string, name: string, price: nat)

  const Individual := ServiceOffer("individual", "Individual Therapy", 150)
  const Couples := ServiceOffer("couples", "Couples Therapy", 180)
  const Family := ServiceOffer("family", "Family Therapy", 200)
  const Consultation := ServiceOffer("consultation", "Initial Consultation", 120)

  /** The services the dialog offers, in the order it lists them. */
  const Services: seq<ServiceOffer> := [Individual, Couples, Family, Consultation]

  /** The appointment slots the time picker offers. */
  const AvailableTimes: seq<string> :=
    ["9:00 AM", "10:00 AM", "11:00 AM", "1:00 PM", "2:00 PM", "3:00 PM", "4:00 PM", "5:00 PM"]

  /** `ss.find(s => s.id === id)`: the first entry with that id, if any. */
  function FindIn(ss: seq<ServiceOffer>, id: string): (r: Option<ServiceOffer>)
    ensures r.None? <==> forall s :: s in ss ==> s.id != id
    ensures r.Some? ==> r.value in ss && r.value.id == id
  {
    if ss == [] then None
    else if ss[0].id == id then Some(ss[0])
    else
      assert forall s :: s in ss ==> s == ss[0] || s in ss[1..];
      FindIn(ss[1..], id)
  }

  /** The entry found is the first with that id: every entry before it has
      another id. */
  lemma {:induction false} FindInFirst(ss: seq<ServiceOffer>, id: string)
    ensures FindIn(ss, id).Some? ==>
      exists k :: 0 <= k < |ss| && ss[k] == FindIn(ss, id).value && forall j :: 0 <= j < k ==> ss[j].id != id
  {
    if ss != [] && ss[0].id != id && FindIn(ss, id).Some? {
      FindInFirst(ss[1..], id);
      var r := FindIn(ss[1..], id);
      var k :| 0 <= k < |ss[1..]| && ss[1..][k] == r.value && forall j :: 0 <= j < k ==> ss[1..][j].id != id;
      assert ss[k + 1] == r.value;
      forall j | 0 <= j < k + 1 ensures ss[j].id != id {
        if j > 0 {
          assert ss[j] == ss[1..][j - 1];
        }
      }
    } else if ss != [] && ss[0].id == id {
      assert ss[0] == FindIn(ss, id).value;
    }
  }

  /** `selectedService`: the offer whose id the service picker holds. */
  function SelectedService(service: string): Option<ServiceOffer> {
    FindIn(Services, service)
  }

  lemma ServiceIdsDistinct()
    ensures forall i, j :: 0 <= i < j < |Services| ==> Services[i].id != Services[j].id
  {
  }

  /** The ids are distinct, so the offer found is the only one with that
      id, and there is none for any other value (in particular for the
      picker's empty "Select service" option). */
  lemma SelectedServiceUnique(service: string, s: ServiceOffer)
    ensures SelectedService(service) == Some(s) <==> s in Services && s.id == service
  {
    ServiceIdsDistinct();
  }

  /** The summary's total is the selected offer's price. */
  lemma Totals()
    ensures SelectedService("individual") == Some(Individual) && Individual.price == 150
    ensures SelectedService("couples") == Some(Couples) && Couples.price == 180
    ensures SelectedService("family") == Some(Family) && Family.price == 200
    ensures SelectedService("consultation") == Some(Consultation) && Consultation.price == 120
    ensures SelectedService("") == None
  {
    SelectedServiceUnique("individual", Individual);
    SelectedServiceUnique("couples", Couples);
    SelectedServiceUnique("family", Family);
    SelectedServiceUnique("consultation", Consultation);
  }

  /** The inputs of the dialog, by their `name` attribute. */
  datatype BookingField = Date | Time | Service | Notes | PaymentMethod

  /** The step on which each input is shown. */
  function StepOf(f: BookingField): int {
    match f
    case Date => 1
    case Time => 1
    case Service => 1
    case Notes => 2
    case PaymentMethod => 3
  }

  const InitialBooking: map<BookingField, string> :=
    map[Date := "", Time := "", Service := "", Notes := "", PaymentMethod := "insurance"]

  /** The time picker offers eight different slots, none of them its empty
      "Select time" placeholder, which is the initial time. */
  lemma TimePicker()
    ensures |AvailableTimes| == 8
    ensures InitialBooking[Time] == "" && "" !in AvailableTimes
    ensures forall i, j :: 0 <= i < j < |AvailableTimes| ==> AvailableTimes[i] != AvailableTimes[j]
  {
  }

  lemma InitialBookingFields()
    ensures forall f: BookingField :: f in InitialBooking
  {
    forall f: BookingField ensures f in InitialBooking {
      match f
      case Date =>
      case Time =>
      case Service =>
      case Notes =>
      case PaymentMethod =>
    }
  }

  class BookingWizard {
    /** The owner's `isOpen` prop: while it is false nothing is shown. */
    var isOpen: bool
    var step: int
    var bookingData: map<BookingField, string>
    var isBooked: bool
    /** The 3-second confirmation timer is running. */
    var confirmPending: bool
    /** How many times the dialog has called its owner's `onClose`. */
    var closeRequests: nat

    ghost predicate Valid()
      reads this
    {
      && 1 <= step <= 3
      && (forall f: BookingField :: f in bookingData)
      && (isBooked <==> confirmPending)
      && (isBooked ==> step == 3)
    }

    /** What is on screen: nothing, the confirmation, or step `step` of
        the form. */
    predicate FormShown()
      reads this
    {
      isOpen && !isBooked
    }

    constructor (open: bool)
      ensures Valid()
      ensures isOpen == open && step == 1 && bookingData == InitialBooking
      ensures !isBooked && !confirmPending && closeRequests == 0
    {
      InitialBookingFields();
      isOpen := open;
      step := 1;
      bookingData := InitialBooking;
      isBooked := false;
      confirmPending := false;
      closeRequests := 0;
    }

    /** The owner opens or closes the dialog; its state is kept. */
    method SetOpen(open: bool)
      requires Valid()
      modifies this
      ensures Valid()
      ensures isOpen == open
      ensures step == old(step) && bookingData == old(bookingData) && isBooked == old(isBooked)
      ensures confirmPending == old(confirmPending) && closeRequests == old(closeRequests)
    {
      isOpen := open;
    }

    /** The close button in the header, shown whenever the dialog is. */
    method CloseButton()
      requires Valid()
      modifies this
      ensures Valid()
      ensures closeRequests == old(closeRequests) + (if old(isOpen) then 1 else 0)
      ensures isOpen == old(isOpen) && step == old(step) && bookingData == old(bookingData)
      ensures isBooked == old(isBooked) && confirmPending == old(confirmPending)
    {
      if isOpen {
        closeRequests := closeRequests + 1;
      }
    }

    /** `handleSubmit`, from the Continue / Confirm Booking button: steps 1
        and 2 advance by one; step 3 confirms and starts the timer. The
        booking data and the payment method play no part. */
    method Submit()
      requires Valid()
      modifies this
      ensures Valid()
      ensures !old(FormShown()) ==> unchanged(this)
      ensures old(FormShown()) && old(step) < 3 ==> step == old(step) + 1 && !isBooked && !confirmPending
      ensures old(FormShown()) && old(step) == 3 ==> step == 3 && isBooked && confirmPending
      ensures isOpen == old(isOpen) && bookingData == old(bookingData) && closeRequests == old(closeRequests)
    {
      if FormShown() {
        if step < 3 {
          step := step + 1;
        } else {
          isBooked := true;
          confirmPending := true;
        }
      }
    }

    /** The Back button, shown from step 2 on. */
    method Back()
      requires Valid()
      modifies this
      ensures Valid()
      ensures !(old(FormShown()) && old(step) > 1) ==> unchanged(this)
      ensures old(FormShown()) && old(step) > 1 ==> step == old(step) - 1
      ensures isOpen == old(isOpen) && bookingData == old(bookingData) && closeRequests == old(closeRequests)
      ensures isBooked == old(isBooked) && confirmPending == old(confirmPending)
    {
      if FormShown() && step > 1 {
        step := step - 1;
      }
    }

    /** `handleChange` from input `f`, which is on screen only on its own
        step: that one entry takes the new value. */
    method HandleChange(f: BookingField, value: string)
      requires Valid()
      modifies this
      ensures Valid()
      ensures !(old(FormShown()) && old(step) == StepOf(f)) ==> unchanged(this)
      ensures old(FormShown()) && old(step) == StepOf(f) ==> bookingData == old(bookingData)[f := value]
      ensures isOpen == old(isOpen) && step == old(step) && closeRequests == old(closeRequests)
      ensures isBooked == old(isBooked) && confirmPending == old(confirmPending)
    {
      if FormShown() && step == StepOf(f) {
        bookingData := bookingData[f := value];
      }
    }

    /** The confirmation timer: back to step 1 and one call of `onClose`;
        the data entered is kept. */
    method ConfirmElapsed()
      requires Valid()
      modifies this
      ensures Valid()
      ensures !old(confirmPending) ==> unchanged(this)
      ensures old(confirmPending) ==>
        && !isBooked && !confirmPending && step == 1 && closeRequests == old(closeRequests) + 1
      ensures isOpen == old(isOpen) && bookingData == old(bookingData)
    {
      if confirmPending {
        isBooked := false;
        step := 1;
        closeRequests := closeRequests + 1;
        confirmPending := false;
      }
    }
  }

  /** A whole booking from step 1 with any payment method: three submits
      reach the confirmation, the timer brings the dialog back to step 1
      with one close request, and the data entered, payment method
      included, is what it was. */
  method BookWith(w: BookingWizard, payment: string)
    requires w.Valid() && w.isOpen && !w.isBooked && w.step == 1
    modifies w
    ensures w.Valid() && w.step == 1 && !w.isBooked
    ensures w.closeRequests == old(w.closeRequests) + 1
    ensures w.bookingData == old(w.bookingData)[PaymentMethod := payment]
  {
    w.Submit();
    w.Submit();
    w.HandleChange(PaymentMethod, payment);
    w.Submit();
    assert w.isBooked && w.step == 3;
    w.ConfirmElapsed();
  }
}
