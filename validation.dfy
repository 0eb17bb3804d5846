/**
 The form validator `validateForm`: independent per-field rules, each adding its
 own key to an error map; the form is accepted exactly when the map is empty.
 Dates are day numbers and `today` is the day of the submission in the guest's
 local calendar.
 */
module Validation {
  import opened BookingForm

  datatype Option<T> = None | Some(value: T)

  const NameRequired := "Name is required"
  const EmailRequired := "Email is required"
  const EmailInvalid := "Valid email is required"
  const PhoneRequired := "Phone number is required"
  const DateRequired := "Date is required"
  const DateInPast := "Date cannot be in the past"
  const TimeRequired := "Time is required"
  const GuestsOutOfRange := "Guests must be between 1 and 12"

  const AllFields: set<Field> := {Name, Email, Phone, Date, Time, Guests, Occasion, Requests}

  /** The rule for field `f` alone: the message shown for it, or None when it passes. */
  function FieldError(d: BookingData, today: int, f: Field): Option<string>
  {
    match f
    case Name => if IsBlank(d.name) then Some(NameRequired) else None
    case Email =>
      if IsBlank(d.email) then Some(EmailRequired)
      else if '@' !in d.email then Some(EmailInvalid)
      else None
    case Phone => if IsBlank(d.phone) then Some(PhoneRequired) else None
    case Date =>
      (match d.date
       case NoDate => Some(DateRequired)
       case On(day) => if day < today then Some(DateInPast) else None)
    case Time => if d.time == "" then Some(TimeRequired) else None
    case Guests => if d.guests < 1 || d.guests > 12 then Some(GuestsOutOfRange) else None
    case Occasion => None
    case Requests => None
  }

  /** The error map: one entry per field whose rule fails. */
  function Errors(d: BookingData, today: int): map<Field, string>
  {
    map f | f in AllFields && FieldError(d, today, f).Some? :: FieldError(d, today, f).value
  }

  /** Map `m` holds, for key `f`, exactly what the rule for `f` reports. */
  predicate FollowsRule(m: map<Field, string>, d: BookingData, today: int, f: Field)
  {
    (f in m <==> FieldError(d, today, f).Some?)
    && (f in m ==> m[f] == FieldError(d, today, f).value)
  }

  /** A map whose entries are set exactly as the rules of `validateForm` set them is the error map. */
  lemma RulesGiveErrors(m: map<Field, string>, d: BookingData, today: int)
    requires (Name in m <==> IsBlank(d.name)) && (Name in m ==> m[Name] == NameRequired)
    requires Email in m <==> IsBlank(d.email) || '@' !in d.email
    requires Email in m ==> m[Email] == if IsBlank(d.email) then EmailRequired else EmailInvalid
    requires (Phone in m <==> IsBlank(d.phone)) && (Phone in m ==> m[Phone] == PhoneRequired)
    requires Date in m <==> d.date == NoDate || d.date.day < today
    requires Date in m ==> m[Date] == if d.date == NoDate then DateRequired else DateInPast
    requires (Time in m <==> d.time == "") && (Time in m ==> m[Time] == TimeRequired)
    requires Guests in m <==> d.guests < 1 || d.guests > 12
    requires Guests in m ==> m[Guests] == GuestsOutOfRange
    requires Occasion !in m && Requests !in m
    ensures m == Errors(d, today)
  {
    var e := Errors(d, today);
    forall f ensures (f in m <==> f in e) && (f in m ==> m[f] == e[f]) {
      assert FollowsRule(m, d, today, f) by {
        match f
        case Name => case Email => case Phone => case Date =>
        case Time => case Guests => case Occasion => case Requests =>
      }
    }
    assert m.Keys == e.Keys;
  }

  /**
   `validateForm`'s construction of `newErrors`, one conditional assignment after
   another, later ones overriding earlier ones for the email and date keys. It
   yields exactly the map of the per-field rules.
   */
  method ComputeErrors(d: BookingData, today: int) returns (newErrors: map<Field, string>)
    ensures newErrors == Errors(d, today)
  {
    newErrors := map[];
    if IsBlank(d.name) { newErrors := newErrors[Name := NameRequired]; }
    if IsBlank(d.email) { newErrors := newErrors[Email := EmailRequired]; }
    if '@' !in d.email && !IsBlank(d.email) { newErrors := newErrors[Email := EmailInvalid]; }
    assert Phone !in newErrors && Date !in newErrors && Time !in newErrors && Guests !in newErrors;
    assert (Name in newErrors <==> IsBlank(d.name)) && (Name in newErrors ==> newErrors[Name] == NameRequired);
    assert Email in newErrors <==> IsBlank(d.email) || '@' !in d.email;
    assert Email in newErrors ==> newErrors[Email] == if IsBlank(d.email) then EmailRequired else EmailInvalid;
    if IsBlank(d.phone) { newErrors := newErrors[Phone := PhoneRequired]; }
    if d.date == NoDate { newErrors := newErrors[Date := DateRequired]; }
    if d.time == "" { newErrors := newErrors[Time := TimeRequired]; }
    if d.guests < 1 || d.guests > 12 { newErrors := newErrors[Guests := GuestsOutOfRange]; }
    // An empty date parses to an invalid date, which compares false with today.
    if d.date.On? && d.date.day < today { newErrors := newErrors[Date := DateInPast]; }
    RulesGiveErrors(newErrors, d, today);
  }

  /** Everything the validator demands of a form submitted on day `today`. */
  predicate Acceptable(d: BookingData, today: int)
  {
    && !AllWhitespace(d.name)
    && '@' in d.email
    && !AllWhitespace(d.phone)
    && d.date.On? && today <= d.date.day
    && d.time != ""
    && 1 <= d.guests <= 12
  }

  /** An email containing '@' is never blank. */
  lemma AtSignNotBlank(email: string)
    requires '@' in email
    ensures !AllWhitespace(email)
  {
  }

  /** `validateForm` returns true exactly when every rule passes. */
  lemma NoErrorsIffAcceptable(d: BookingData, today: int)
    ensures Errors(d, today) == map[] <==> Acceptable(d, today)
  {
    BlankIffAllWhitespace(d.name);
    BlankIffAllWhitespace(d.email);
    BlankIffAllWhitespace(d.phone);
    if '@' in d.email {
      AtSignNotBlank(d.email);
    }
    var e := Errors(d, today);
    if e == map[] {
      assert Name !in e && Email !in e && Phone !in e;
      assert Date !in e && Time !in e && Guests !in e;
    }
  }

  /** The name rule: the `name` key appears, with its message, exactly for a whitespace-only name. */
  lemma NameRule(d: BookingData, today: int)
    ensures Name in Errors(d, today) <==> AllWhitespace(d.name)
    ensures Name in Errors(d, today) ==> Errors(d, today)[Name] == NameRequired
  {
    BlankIffAllWhitespace(d.name);
  }

  /**
   The email rule has two messages: "required" for a whitespace-only email, and
   "valid email" for any other email without '@'; an email with '@' passes.
   */
  lemma EmailRule(d: BookingData, today: int)
    ensures Email in Errors(d, today) <==> '@' !in d.email
    ensures AllWhitespace(d.email) ==> Errors(d, today)[Email] == EmailRequired
    ensures !AllWhitespace(d.email) && '@' !in d.email
            ==> Errors(d, today)[Email] == EmailInvalid
  {
    BlankIffAllWhitespace(d.email);
    if '@' in d.email {
      AtSignNotBlank(d.email);
    }
  }

  /** The phone rule: the `phone` key appears exactly for a whitespace-only phone number. */
  lemma PhoneRule(d: BookingData, today: int)
    ensures Phone in Errors(d, today) <==> AllWhitespace(d.phone)
    ensures Phone in Errors(d, today) ==> Errors(d, today)[Phone] == PhoneRequired
  {
    BlankIffAllWhitespace(d.phone);
  }

  /**
   The date rule: an empty date is "required", a day before today is "in the
   past", today or later passes.
   */
  lemma DateRule(d: BookingData, today: int)
    ensures d.date == NoDate ==> Date in Errors(d, today) && Errors(d, today)[Date] == DateRequired
    ensures d.date.On? && d.date.day < today
            ==> Date in Errors(d, today) && Errors(d, today)[Date] == DateInPast
    ensures d.date.On? && today <= d.date.day ==> Date !in Errors(d, today)
  {
  }

  /** The time rule: the `time` key appears exactly when no time is chosen. */
  lemma TimeRule(d: BookingData, today: int)
    ensures Time in Errors(d, today) <==> d.time == ""
    ensures Time in Errors(d, today) ==> Errors(d, today)[Time] == TimeRequired
  {
  }

  /** The guests rule: counts 1 through 12 pass, everything else fails. */
  lemma GuestsRule(d: BookingData, today: int)
    ensures Guests in Errors(d, today) <==> !(1 <= d.guests <= 12)
    ensures Guests in Errors(d, today) ==> Errors(d, today)[Guests] == GuestsOutOfRange
  {
  }

  /** Occasion and special requests are never validated. */
  lemma UnvalidatedFields(d: BookingData, today: int)
    ensures Occasion !in Errors(d, today) && Requests !in Errors(d, today)
  {
  }

  /**
   The rules are independent: changing one field of the form changes at most
   that field's entry of the error map.
   */
  lemma EditOnlyAffectsOwnError(d: BookingData, today: int, f: Field, v: Value)
    requires Fits(f, v)
    ensures forall g :: g != f ==> FieldError(Set(d, f, v), today, g) == FieldError(d, today, g)
    ensures forall g :: g != f ==>
      (g in Errors(Set(d, f, v), today) <==> g in Errors(d, today))
      && (g in Errors(d, today) ==> Errors(Set(d, f, v), today)[g] == Errors(d, today)[g])
  {
  }

  /**
   The untouched form is rejected on every field that has a required value;
   its guest count of 2 passes.
   */
  lemma DefaultFormErrors(today: int)
    ensures Errors(DefaultBookingData, today).Keys == {Name, Email, Phone, Date, Time}
  {
  }
}
