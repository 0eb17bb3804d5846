/**
 The LittleLemonBooking component's state machine: the form state, the list of
 bookings made in this session, the error map and the confirmation flag, and the
 event handlers that change them.
 */
module LittleLemon {
  import opened BookingForm
  import opened Slots
  import opened Validation

  /**
   What every stored booking satisfies whatever day it is now: the rules of the
   validator except "not in the past", which depends on the day it was made.
   */
  predicate Storable(d: BookingData)
  {
    && !AllWhitespace(d.name)
    && '@' in d.email
    && !AllWhitespace(d.phone)
    && d.date.On?
    && d.time != ""
    && 1 <= d.guests <= 12
  }

  /** A form accepted on some day is storable, and a storable form is accepted on its own day. */
  lemma AcceptedIsStorable(d: BookingData, today: int)
    ensures Errors(d, today) == map[] ==> Storable(d)
    ensures Storable(d) ==> Errors(d, d.date.day) == map[]
  {
    NoErrorsIffAcceptable(d, today);
    if Storable(d) {
      NoErrorsIffAcceptable(d, d.date.day);
    }
  }

  /**
   The time dropdown for the form's date: with no date chosen yet, every slot is
   offered, since no stored booking lacks a date.
   */
  lemma NoDateOffersAllSlots(bookings: seq<Booking>)
    requires forall i :: 0 <= i < |bookings| ==> Storable(bookings[i].data)
    ensures AvailableSlots(bookings, NoDate) == TimeSlots
  {
    forall b | b in bookings ensures b.data.date != NoDate {
      var i :| 0 <= i < |bookings| && bookings[i] == b;
    }
    NoBookingOnDateAllSlots(bookings, NoDate);
  }

  /**
   Validation never looks at the bookings: a form for a slot that is already
   taken on its date is still accepted. Only the time dropdown, which lists the
   available slots, keeps a guest from choosing a taken slot.
   */
  lemma TakenSlotStillAccepted()
    ensures var d := BookingData("Ann", "ann@example.com", "555", On(10), "6:00 PM", 4, "", "");
            && Taken([Booking(d, 1, "t")], On(10), "6:00 PM")
            && Errors(d, 10) == map[]
  {
    var d := BookingData("Ann", "ann@example.com", "555", On(10), "6:00 PM", 4, "", "");
    assert Booking(d, 1, "t") in [Booking(d, 1, "t")];
    assert !IsJsWhitespace(d.name[0]) && !IsJsWhitespace(d.phone[0]);
    assert d.email[3] == '@';
    NoErrorsIffAcceptable(d, 10);
  }

  class LittleLemonBooking {
    var bookingData: BookingData
    var bookings: seq<Booking>
    var showConfirmation: bool
    var errors: map<Field, string>

    /** Every booking in the list passed validation when it was submitted. */
    ghost predicate Valid()
      reads this
    {
      forall i :: 0 <= i < |bookings| ==> Storable(bookings[i].data)
    }

    /** The component's initial state: the default form, no bookings, no errors, no dialog. */
    constructor ()
      ensures Valid()
      ensures bookingData == DefaultBookingData && bookings == []
      ensures !showConfirmation && errors == map[]
    {
      bookingData := DefaultBookingData;
      bookings := [];
      showConfirmation := false;
      errors := map[];
    }

    /**
     `validateForm`: replaces the error map with the errors of the current form
     and reports whether there are none.
     */
    method ValidateForm(today: int) returns (ok: bool)
      modifies this`errors
      ensures errors == Errors(bookingData, today)
      ensures ok <==> errors == map[]
    {
      var newErrors := ComputeErrors(bookingData, today);
      errors := newErrors;
      ok := |newErrors| == 0;
    }

    /**
     `handleSubmit`. A rejected form leaves everything but the error map alone;
     an accepted one is appended to the bookings with the given id and
     timestamp, and the form, the errors and the dialog are reset.
     */
    method HandleSubmit(today: int, id: int, timestamp: string)
      requires Valid()
      modifies this
      ensures Valid()
      ensures Errors(old(bookingData), today) != map[] ==>
        && bookings == old(bookings)
        && bookingData == old(bookingData)
        && showConfirmation == old(showConfirmation)
        && errors == Errors(old(bookingData), today)
      ensures Errors(old(bookingData), today) == map[] ==>
        && bookings == old(bookings) + [Booking(old(bookingData), id, timestamp)]
        && bookingData == DefaultBookingData
        && errors == map[]
        && showConfirmation
    {
      var ok := ValidateForm(today);
      if !ok {
        return;
      }
      AcceptedIsStorable(bookingData, today);
      var newBooking := Booking(bookingData, id, timestamp);
      bookings := bookings + [newBooking];
      showConfirmation := true;
      bookingData := DefaultBookingData;
      errors := map[];
    }

    /**
     `handleInputChange(f, v)`: field `f` takes value `v`; an error shown for `f`
     is blanked (its key stays), every other error is kept.
     */
    method HandleInputChange(f: Field, v: Value)
      requires Fits(f, v)
      modifies this`bookingData, this`errors
      ensures bookingData == Set(old(bookingData), f, v)
      ensures errors == if f in old(errors) && old(errors)[f] != ""
                        then old(errors)[f := ""]
                        else old(errors)
      ensures errors.Keys == old(errors).Keys
      ensures f in errors ==> errors[f] == ""
    {
      bookingData := Set(bookingData, f, v);
      if f in errors && errors[f] != "" {
        errors := errors[f := ""];
      }
    }

    /** The dialog's Close button. */
    method CloseConfirmation()
      modifies this`showConfirmation
      ensures !showConfirmation
    {
      showConfirmation := false;
    }
  }
}
