/**
 The state of the booking form held by the LittleLemonBooking component: the
 fields the guest fills in, the value a field edit carries, the stored booking
 record, and JavaScript's String.prototype.trim, which the validator relies on.
 */
module BookingForm {

  /** The keys of the form state, and of the error map that shadows it. */
  datatype Field = Name | Email | Phone | Date | Time | Guests | Occasion | Requests

  /** The value of the date input: empty, or a calendar day counted from a fixed epoch. */
  datatype DateInput = NoDate | On(day: int)

  /** The form state (`bookingData`). */
  datatype BookingData = BookingData(
    name: string,
    email: string,
    phone: string,
    date: DateInput,
    time: string,
    guests: int,
    occasion: string,
    requests: string)

  /** The form every session starts with and returns to after a successful submission. */
  const DefaultBookingData := BookingData("", "", "", NoDate, "", 2, "", "")

  /** A stored booking: the submitted form plus the client-side id and creation timestamp. */
  datatype Booking = Booking(data: BookingData, id: int, timestamp: string)

  /** What one input's change handler passes for its field: text, a date, or a guest count. */
  datatype Value = Text(text: string) | Day(date: DateInput) | Count(count: int)

  /** The kind of value each field holds. */
  predicate Fits(f: Field, v: Value)
  {
    match f
    case Date => v.Day?
    case Guests => v.Count?
    case _ => v.Text?
  }

  /** The value of field `f` of the form, read the way `bookingData[f]` reads it. */
  function Get(d: BookingData, f: Field): (v: Value)
    ensures Fits(f, v)
  {
    match f
    case Name => Text(d.name)
    case Email => Text(d.email)
    case Phone => Text(d.phone)
    case Date => Day(d.date)
    case Time => Text(d.time)
    case Guests => Count(d.guests)
    case Occasion => Text(d.occasion)
    case Requests => Text(d.requests)
  }

  /** The form with field `f` replaced by `v` (`{...prev, [f]: v}`). */
  function Set(d: BookingData, f: Field, v: Value): (r: BookingData)
    requires Fits(f, v)
    ensures Get(r, f) == v
    ensures forall g :: g != f ==> Get(r, g) == Get(d, g)
  {
    match f
    case Name => d.(name := v.text)
    case Email => d.(email := v.text)
    case Phone => d.(phone := v.text)
    case Date => d.(date := v.date)
    case Time => d.(time := v.text)
    case Guests => d.(guests := v.count)
    case Occasion => d.(occasion := v.text)
    case Requests => d.(requests := v.text)
  }

  /** Writing back the value a field already holds leaves the form as it was. */
  lemma SetOwnValue(d: BookingData, f: Field)
    ensures Set(d, f, Get(d, f)) == d
  {
  }

  /** The characters ECMAScript's trim removes: WhiteSpace and LineTerminator. */
  predicate IsJsWhitespace(c: char)
  {
    || c == '\t' || c == '\n' || c == '\U{000B}' || c == '\U{000C}' || c == '\r'
    || c == ' ' || c == '\U{00A0}' || c == '\U{1680}'
    || ('\U{2000}' <= c <= '\U{200A}')
    || c == '\U{2028}' || c == '\U{2029}' || c == '\U{202F}' || c == '\U{205F}'
    || c == '\U{3000}' || c == '\U{FEFF}'
  }

  /** Every character of `s` is whitespace (the empty string included). */
  predicate AllWhitespace(s: string)
  {
    forall i :: 0 <= i < |s| ==> IsJsWhitespace(s[i])
  }

  /** `s` with its leading whitespace removed. */
  function TrimStart(s: string): string
  {
    if |s| > 0 && IsJsWhitespace(s[0]) then TrimStart(s[1..]) else s
  }

  /** `s` with its trailing whitespace removed. */
  function TrimEnd(s: string): string
  {
    if |s| > 0 && IsJsWhitespace(s[|s| - 1]) then TrimEnd(s[..|s| - 1]) else s
  }

  /**
   TrimStart removes a prefix made of whitespace only, and stops at the first
   character that is not whitespace.
   */
  lemma {:induction false} TrimStartRemovesLeadingWhitespace(s: string)
    ensures |TrimStart(s)| <= |s| && TrimStart(s) == s[|s| - |TrimStart(s)|..]
    ensures AllWhitespace(s[..|s| - |TrimStart(s)|])
    ensures TrimStart(s) != [] ==> !IsJsWhitespace(TrimStart(s)[0])
  {
    if |s| > 0 && IsJsWhitespace(s[0]) {
      TrimStartRemovesLeadingWhitespace(s[1..]);
      var k := |s| - |TrimStart(s)|;
      forall i | 0 <= i < k ensures IsJsWhitespace(s[..k][i]) {
        if i > 0 {
          assert s[..k][i] == s[1..][..k - 1][i - 1];
        }
      }
    }
  }

  /**
   TrimEnd removes a suffix made of whitespace only, and stops at the last
   character that is not whitespace.
   */
  lemma {:induction false} TrimEndRemovesTrailingWhitespace(s: string)
    ensures |TrimEnd(s)| <= |s| && TrimEnd(s) == s[..|TrimEnd(s)|]
    ensures AllWhitespace(s[|TrimEnd(s)|..])
    ensures TrimEnd(s) != [] ==> !IsJsWhitespace(TrimEnd(s)[|TrimEnd(s)| - 1])
  {
    if |s| > 0 && IsJsWhitespace(s[|s| - 1]) {
      TrimEndRemovesTrailingWhitespace(s[..|s| - 1]);
      var k := |TrimEnd(s)|;
      forall i | k <= i < |s| ensures IsJsWhitespace(s[i]) {
        if i < |s| - 1 {
          assert s[i] == s[..|s| - 1][k..][i - k];
        }
      }
      assert s[..k] == s[..|s| - 1][..k];
    }
  }

  /** `s.trim()`. */
  function Trim(s: string): string
  {
    TrimEnd(TrimStart(s))
  }

  /** `!s.trim()`: the trimmed string is empty, hence falsy. */
  predicate IsBlank(s: string)
  {
    Trim(s) == ""
  }

  /** A string trims to nothing exactly when it is whitespace through and through. */
  lemma BlankIffAllWhitespace(s: string)
    ensures IsBlank(s) <==> AllWhitespace(s)
  {
    var t := TrimStart(s);
    TrimStartRemovesLeadingWhitespace(s);
    TrimEndRemovesTrailingWhitespace(t);
    if AllWhitespace(s) {
      assert t == [];
    }
    if IsBlank(s) {
      assert t[0..] == t;
      assert t == [];
      assert s[..|s| - |t|] == s;
    }
  }
}
