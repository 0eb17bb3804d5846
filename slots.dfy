/**
 Slot availability: the fixed list of bookable times and `getAvailableSlots`,
 which drops every time already taken by a booking on the selected date.
 */
module Slots {
  import opened BookingForm

  /** The seventeen bookable times: lunch 11:00 AM to 2:30 PM, dinner 5:00 PM to 9:00 PM. */
  const TimeSlots: seq<string> := [
    "11:00 AM", "11:30 AM", "12:00 PM", "12:30 PM", "1:00 PM", "1:30 PM",
    "2:00 PM", "2:30 PM", "5:00 PM", "5:30 PM", "6:00 PM", "6:30 PM",
    "7:00 PM", "7:30 PM", "8:00 PM", "8:30 PM", "9:00 PM"
  ]

  /** `xs` can be obtained from `ys` by deleting entries: same entries, same relative order. */
  predicate IsSubsequence<T(==)>(xs: seq<T>, ys: seq<T>)
    decreases ys
  {
    || xs == []
    || (&& ys != []
        && ((xs[0] == ys[0] && IsSubsequence(xs[1..], ys[1..])) || IsSubsequence(xs, ys[1..])))
  }

  /** No entry of `s` occurs twice. */
  predicate Distinct<T(==)>(s: seq<T>)
  {
    forall i, j :: 0 <= i < j < |s| ==> s[i] != s[j]
  }

  /** Some booking in `bookings` is for `date` at `time`. */
  predicate Taken(bookings: seq<Booking>, date: DateInput, time: string)
  {
    exists b :: b in bookings && b.data.date == date && b.data.time == time
  }

  /** The times of the bookings on `date`, in booking order (`filter` by date, then `map` to time). */
  function BookedTimes(bookings: seq<Booking>, date: DateInput): (r: seq<string>)
    ensures forall t :: t in r <==> Taken(bookings, date, t)
  {
    if bookings == [] then []
    else
      var rest := BookedTimes(bookings[1..], date);
      assert forall b :: b in bookings <==> b == bookings[0] || b in bookings[1..];
      if bookings[0].data.date == date then [bookings[0].data.time] + rest else rest
  }

  /** The entries of `slots` that are not in `booked`, in their original order. */
  function FreeSlots(slots: seq<string>, booked: seq<string>): (r: seq<string>)
    ensures IsSubsequence(r, slots)
    ensures forall s :: s in r <==> s in slots && s !in booked
  {
    if slots == [] then []
    else
      var rest := FreeSlots(slots[1..], booked);
      if slots[0] in booked then rest else [slots[0]] + rest
  }

  /** `getAvailableSlots(date)` over the current `bookings`. */
  function AvailableSlots(bookings: seq<Booking>, date: DateInput): (r: seq<string>)
    ensures IsSubsequence(r, TimeSlots)
    ensures forall s :: s in r <==> s in TimeSlots && !Taken(bookings, date, s)
  {
    FreeSlots(TimeSlots, BookedTimes(bookings, date))
  }

  /** A subsequence is no longer than the sequence it is taken from. */
  lemma {:induction false} SubsequenceLength<T>(xs: seq<T>, ys: seq<T>)
    requires IsSubsequence(xs, ys)
    ensures |xs| <= |ys|
    decreases ys
  {
    if xs != [] {
      if xs[0] == ys[0] && IsSubsequence(xs[1..], ys[1..]) {
        SubsequenceLength(xs[1..], ys[1..]);
      } else {
        SubsequenceLength(xs, ys[1..]);
      }
    }
  }

  /** A subsequence of a sequence without repeats has no repeats either. */
  lemma {:induction false} SubsequenceDistinct<T>(xs: seq<T>, ys: seq<T>)
    requires IsSubsequence(xs, ys) && Distinct(ys)
    ensures Distinct(xs)
    decreases ys
  {
    if xs != [] {
      assert Distinct(ys[1..]) by {
        forall i, j | 0 <= i < j < |ys| - 1 ensures ys[1..][i] != ys[1..][j] {
          assert ys[1..][i] == ys[i + 1] && ys[1..][j] == ys[j + 1];
        }
      }
      if xs[0] == ys[0] && IsSubsequence(xs[1..], ys[1..]) {
        SubsequenceDistinct(xs[1..], ys[1..]);
        SubsequenceMembers(xs[1..], ys[1..]);
        forall j | 0 < j < |xs| ensures xs[0] != xs[j] {
          assert xs[j] == xs[1..][j - 1];
          assert xs[j] in ys[1..];
          var k :| 0 <= k < |ys[1..]| && ys[1..][k] == xs[j];
          assert ys[k + 1] == xs[j];
        }
      } else {
        SubsequenceDistinct(xs, ys[1..]);
      }
    }
  }

  /** Every entry of a subsequence is an entry of the sequence it is taken from. */
  lemma {:induction false} SubsequenceMembers<T>(xs: seq<T>, ys: seq<T>)
    requires IsSubsequence(xs, ys)
    ensures forall x :: x in xs ==> x in ys
    decreases ys
  {
    if xs != [] {
      if xs[0] == ys[0] && IsSubsequence(xs[1..], ys[1..]) {
        SubsequenceMembers(xs[1..], ys[1..]);
        assert forall x :: x in xs ==> x == xs[0] || x in xs[1..];
        assert forall y :: y in ys[1..] ==> y in ys;
      } else {
        SubsequenceMembers(xs, ys[1..]);
        assert forall y :: y in ys[1..] ==> y in ys;
      }
    }
  }

  /** The master list offers each time once. */
  lemma TimeSlotsDistinct()
    ensures |TimeSlots| == 17 && Distinct(TimeSlots)
  {
  }

  /**
   The available slots never repeat a time and are never more than the seventeen
   of the master list.
   */
  lemma AvailableSlotsBounded(bookings: seq<Booking>, date: DateInput)
    ensures Distinct(AvailableSlots(bookings, date))
    ensures |AvailableSlots(bookings, date)| <= 17
  {
    TimeSlotsDistinct();
    SubsequenceDistinct(AvailableSlots(bookings, date), TimeSlots);
    SubsequenceLength(AvailableSlots(bookings, date), TimeSlots);
  }

  /** Filtering against times none of which occurs among the slots changes nothing. */
  lemma {:induction false} FreeSlotsNoneBooked(slots: seq<string>, booked: seq<string>)
    requires forall s :: s in slots ==> s !in booked
    ensures FreeSlots(slots, booked) == slots
  {
    if slots != [] {
      assert forall s :: s in slots[1..] ==> s in slots;
      FreeSlotsNoneBooked(slots[1..], booked);
    }
  }

  /** With no booking on `date`, every slot of the master list is offered, in order. */
  lemma NoBookingOnDateAllSlots(bookings: seq<Booking>, date: DateInput)
    requires forall b :: b in bookings ==> b.data.date != date
    ensures AvailableSlots(bookings, date) == TimeSlots
  {
    FreeSlotsNoneBooked(TimeSlots, BookedTimes(bookings, date));
  }

  /** Filtering twice is filtering once against both lists of times. */
  lemma {:induction false} FreeSlotsTwice(slots: seq<string>, a: seq<string>, b: seq<string>)
    ensures FreeSlots(FreeSlots(slots, a), b) == FreeSlots(slots, a + b)
  {
    if slots != [] {
      FreeSlotsTwice(slots[1..], a, b);
      var rest := FreeSlots(slots[1..], a);
      if slots[0] !in a {
        assert FreeSlots(slots, a) == [slots[0]] + rest;
        assert ([slots[0]] + rest)[1..] == rest;
      }
    }
  }

  /** The times booked on `date` depend only on the bookings made for `date`. */
  lemma {:induction false} BookedTimesAppend(xs: seq<Booking>, ys: seq<Booking>, date: DateInput)
    ensures BookedTimes(xs + ys, date) == BookedTimes(xs, date) + BookedTimes(ys, date)
  {
    if xs != [] {
      assert (xs + ys)[1..] == xs[1..] + ys;
      BookedTimesAppend(xs[1..], ys, date);
    } else {
      assert xs + ys == ys;
    }
  }

  /** A booking on a different date never removes a slot, wherever it sits in the list. */
  lemma OtherDateKeepsSlots(xs: seq<Booking>, b: Booking, ys: seq<Booking>, date: DateInput)
    requires b.data.date != date
    ensures AvailableSlots(xs + [b] + ys, date) == AvailableSlots(xs + ys, date)
  {
    BookedTimesAppend(xs + [b], ys, date);
    BookedTimesAppend(xs, [b], date);
    BookedTimesAppend(xs, ys, date);
    assert BookedTimes([b], date) == [];
    assert BookedTimes(xs, date) + [] == BookedTimes(xs, date);
    assert BookedTimes(xs + [b] + ys, date) == BookedTimes(xs + ys, date);
  }

  /**
   Appending a booking on `date` removes exactly its time from the slots offered
   for `date`, keeping the order of the rest.
   */
  lemma NewBookingTakesItsSlot(bookings: seq<Booking>, b: Booking, date: DateInput)
    requires b.data.date == date
    ensures AvailableSlots(bookings + [b], date)
         == FreeSlots(AvailableSlots(bookings, date), [b.data.time])
  {
    BookedTimesAppend(bookings, [b], date);
    assert BookedTimes([b], date) == [b.data.time];
    FreeSlotsTwice(TimeSlots, BookedTimes(bookings, date), [b.data.time]);
  }
}
