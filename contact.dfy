/**
 * The contact form: name, phone and email are required, the event date and
 * the message are optional.  Name and phone are text inputs, whose values
 * the browser holds without line breaks.  The email input is of type
 * "email", so the browser also trims its value and refuses to submit a
 * malformed address before react-hook-form sees the submission.  A
 * submission that passes both goes to the data provider; success resets the
 * form's values, failure leaves them as they were.  Either way the form is
 * marked submitted once onSubmit returns, and from then on react-hook-form
 * re-validates each field as it changes.
 */
module Contact {
  import opened Types
  import Api

  const ThankYouAlert := "Thank you! Your booking request has been sent. We will contact you shortly."
  const FailureAlert := "Something went wrong. Please try again or contact us on WhatsApp."

  const EmptyForm := BookingRequest("", "", "", "", "")

  const RequiredFields: set<string> := {"name", "phone", "email"}

  // ---------------------------------------------------------------------
  // The browser's value sanitization: a text input loses its line breaks;
  // an email input then also loses leading and trailing ASCII whitespace.

  predicate IsAsciiWhitespace(c: char)
  {
    c == '\t' || c == '\n' || c == '\U{C}' || c == '\r' || c == ' '
  }

  function StripNewlines(s: string): (r: string)
    ensures forall c :: c in r <==> c in s && c != '\n' && c != '\r'
  {
    if s == [] then []
    else (if s[0] == '\n' || s[0] == '\r' then [] else [s[0]]) + StripNewlines(s[1..])
  }

  /** A text input's value is empty exactly when everything typed was a line break. */
  lemma NameBlankIffLineBreaks(s: string)
    ensures StripNewlines(s) == [] <==> forall i :: 0 <= i < |s| ==> s[i] == '\n' || s[i] == '\r'
  {
    var t := StripNewlines(s);
    if t != [] {
      assert t[0] in t;
    }
    if !(forall i :: 0 <= i < |s| ==> s[i] == '\n' || s[i] == '\r') {
      var i :| 0 <= i < |s| && s[i] != '\n' && s[i] != '\r';
      assert s[i] in s;
    }
  }

  function StripLeading(s: string): (r: string)
    ensures |r| <= |s|
    ensures r != [] ==> !IsAsciiWhitespace(r[0])
  {
    if s != [] && IsAsciiWhitespace(s[0]) then StripLeading(s[1..]) else s
  }

  /** Stripping leading whitespace keeps a suffix of the value. */
  lemma {:induction false} StripLeadingIsSuffix(s: string)
    ensures StripLeading(s) == s[|s| - |StripLeading(s)|..]
  {
    if s != [] && IsAsciiWhitespace(s[0]) {
      StripLeadingIsSuffix(s[1..]);
    }
  }

  function StripTrailing(s: string): (r: string)
    ensures r <= s
    ensures r != [] ==> !IsAsciiWhitespace(r[|r| - 1])
  {
    if s != [] && IsAsciiWhitespace(s[|s| - 1]) then StripTrailing(s[..|s| - 1]) else s
  }

  /**
   * The email input's value: no line break anywhere, no whitespace at either
   * end, and nothing that was not typed.
   */
  function SanitizeEmail(s: string): (r: string)
    ensures forall c :: c in r ==> c in s && c != '\n' && c != '\r'
    ensures r != [] ==> !IsAsciiWhitespace(r[0]) && !IsAsciiWhitespace(r[|r| - 1])
  {
    var t := StripNewlines(s);
    var lead := StripLeading(t);
    var r := StripTrailing(lead);
    StripLeadingIsSuffix(t);
    forall c | c in r
      ensures c in t
    {
      var i :| 0 <= i < |r| && r[i] == c;
      assert lead[i] == c;
      assert t[|t| - |lead| + i] == c;
    }
    r
  }

  lemma {:induction false} StripLeadingSpec(s: string)
    ensures StripLeading(s) == [] <==> forall i :: 0 <= i < |s| ==> IsAsciiWhitespace(s[i])
    ensures StripLeading(s) != [] ==> !IsAsciiWhitespace(StripLeading(s)[0])
  {
    if s != [] && IsAsciiWhitespace(s[0]) {
      StripLeadingSpec(s[1..]);
      assert forall i :: 1 <= i < |s| ==> s[i] == s[1..][i - 1];
    }
  }

  lemma {:induction false} StripTrailingKeepsHead(s: string)
    requires s != [] && !IsAsciiWhitespace(s[0])
    ensures StripTrailing(s) != []
    decreases |s|
  {
    if IsAsciiWhitespace(s[|s| - 1]) {
      StripTrailingKeepsHead(s[..|s| - 1]);
    }
  }

  /**
   * The sanitized email is empty exactly when the typed value is all ASCII
   * whitespace, so a blank-looking address fails the required rule.
   */
  lemma EmailBlankIffWhitespace(s: string)
    ensures SanitizeEmail(s) == [] <==> forall i :: 0 <= i < |s| ==> IsAsciiWhitespace(s[i])
  {
    var t := StripNewlines(s);
    StripLeadingSpec(t);
    if StripLeading(t) != [] {
      StripTrailingKeepsHead(StripLeading(t));
    }
    if forall i :: 0 <= i < |s| ==> IsAsciiWhitespace(s[i]) {
      forall i | 0 <= i < |t| ensures IsAsciiWhitespace(t[i]) {
        assert t[i] in s;
      }
    } else {
      var i :| 0 <= i < |s| && !IsAsciiWhitespace(s[i]);
      assert s[i] in t;
    }
  }

  // ---------------------------------------------------------------------
  // react-hook-form's rules.

  /** The `required` rule: a field is missing when it is the empty string. */
  function MissingFields(r: BookingRequest): (missing: set<string>)
    ensures missing <= RequiredFields
    ensures "name" in missing <==> r.name == ""
    ensures "phone" in missing <==> r.phone == ""
    ensures "email" in missing <==> r.email == ""
  {
    (if r.name == "" then {"name"} else {})
    + (if r.phone == "" then {"phone"} else {})
    + (if r.email == "" then {"email"} else {})
  }

  /** Validation looks at the three required fields only: date and message never block a submission. */
  lemma OptionalFieldsIgnored(r: BookingRequest, date: string, message: string)
    ensures MissingFields(r.(date := date, message := message)) == MissingFields(r)
    ensures MissingFields(r) == {} <==> r.name != "" && r.phone != "" && r.email != ""
  {
    if MissingFields(r) == {} {
      assert "name" !in MissingFields(r);
      assert "phone" !in MissingFields(r);
      assert "email" !in MissingFields(r);
    }
  }

  /** The required fields whose value an edit changes. */
  function ChangedFields(before: BookingRequest, after: BookingRequest): (c: set<string>)
    ensures c <= RequiredFields
    ensures "name" in c <==> before.name != after.name
    ensures "phone" in c <==> before.phone != after.phone
    ensures "email" in c <==> before.email != after.email
  {
    (if before.name != after.name then {"name"} else {})
    + (if before.phone != after.phone then {"phone"} else {})
    + (if before.email != after.email then {"email"} else {})
  }

  /**
   * Re-validation on change: every changed field's error now reflects its
   * new value, and every other field keeps the error it had.
   */
  function Revalidate(errors: set<string>, before: BookingRequest, after: BookingRequest): (r: set<string>)
    requires errors <= RequiredFields
    ensures r <= RequiredFields
    ensures forall f :: f in ChangedFields(before, after) ==> (f in r <==> f in MissingFields(after))
    ensures forall f :: f !in ChangedFields(before, after) ==> (f in r <==> f in errors)
  {
    var changed := ChangedFields(before, after);
    (errors - changed) + (MissingFields(after) * changed)
  }

  /**
   * After a blocked submission of an empty form, typing a name clears that
   * field's error and only that one.
   */
  lemma TypingANameClearsItsError(name: string)
    requires name != ""
    ensures Revalidate(RequiredFields, EmptyForm, EmptyForm.(name := name)) == {"phone", "email"}
  {
    var r := Revalidate(RequiredFields, EmptyForm, EmptyForm.(name := name));
    assert "name" !in r && "phone" in r && "email" in r;
  }

  /**
   * After a sent form was reset, typing a name and clearing it again shows
   * the name's error at once: the form stays marked submitted.
   */
  lemma ClearingANameAfterSendShowsItsError(name: string)
    requires name != ""
    ensures Revalidate({}, EmptyForm, EmptyForm.(name := name)) == {}
    ensures Revalidate(Revalidate({}, EmptyForm, EmptyForm.(name := name)), EmptyForm.(name := name), EmptyForm) == {"name"}
  {
    var typed := Revalidate({}, EmptyForm, EmptyForm.(name := name));
    assert "name" !in typed && "phone" !in typed && "email" !in typed;
    var cleared := Revalidate(typed, EmptyForm.(name := name), EmptyForm);
    assert "name" in cleared && "phone" !in cleared && "email" !in cleared;
  }

  /** The values the inputs hold for what was typed: name and phone without line breaks, the email sanitized. */
  function HeldValues(r: BookingRequest): BookingRequest
  {
    r.(name := StripNewlines(r.name), phone := StripNewlines(r.phone), email := SanitizeEmail(r.email))
  }

  datatype SubmitOutcome =
    | BrowserBlocked                  // the browser refused a malformed email; nothing ran
    | Blocked(missing: set<string>)   // validation errors shown, onSubmit not called
    | Sent(alert: string)             // submitBooking resolved
    | Failed(alert: string)           // submitBooking threw

  class ContactForm {
    var values: BookingRequest
    var errors: set<string>
    var submitted: bool

    /** Errors name required fields only, and none show before a submission attempt. */
    ghost predicate Valid()
      reads this
    {
      errors <= RequiredFields && (!submitted ==> errors == {})
    }

    constructor ()
      ensures Valid()
      ensures values == EmptyForm && errors == {} && !submitted
    {
      values := EmptyForm;
      errors := {};
      submitted := false;
    }

    /**
     * The user edits the fields to `r`.  Name and phone are held without
     * line breaks, the email sanitized; once a submission was attempted,
     * each changed field is validated again.
     */
    method Edit(r: BookingRequest)
      requires Valid()
      modifies this
      ensures Valid()
      ensures values == HeldValues(r)
      ensures submitted == old(submitted)
      ensures !old(submitted) ==> errors == old(errors)
      ensures old(submitted) ==> errors == Revalidate(old(errors), old(values), values)
    {
      var next := HeldValues(r);
      if submitted {
        errors := Revalidate(errors, values, next);
      }
      values := next;
    }

    /**
     * The submit button.  `emailAccepted` stands for the browser's check of
     * a non-empty email value; `providerThrows` for submitBooking rejecting,
     * which the mock branch never does; `now` and `isoNow` for the clock
     * the mock reads.
     */
    method Submit(store: Api.MockStore, emailAccepted: string -> bool, providerThrows: bool, now: int, isoNow: string)
      returns (outcome: SubmitOutcome)
      requires Valid()
      modifies this, store
      ensures Valid()
      ensures old(values.email) != "" && !emailAccepted(old(values.email)) ==>
        && outcome == BrowserBlocked
        && values == old(values) && errors == old(errors) && submitted == old(submitted)
        && store.bookings == old(store.bookings)
      ensures (old(values.email) == "" || emailAccepted(old(values.email))) && MissingFields(old(values)) != {} ==>
        && outcome == Blocked(MissingFields(old(values)))
        && errors == MissingFields(old(values)) && submitted
        && values == old(values)
        && store.bookings == old(store.bookings)
      ensures (old(values.email) == "" || emailAccepted(old(values.email))) && MissingFields(old(values)) == {} && !providerThrows ==>
        && outcome == Sent(ThankYouAlert)
        && store.bookings == old(store.bookings) + [Api.NewBooking(old(values), now, isoNow)]
        && values == EmptyForm && errors == {} && submitted
      ensures (old(values.email) == "" || emailAccepted(old(values.email))) && MissingFields(old(values)) == {} && providerThrows ==>
        && outcome == Failed(FailureAlert)
        && store.bookings == old(store.bookings)
        && values == old(values) && errors == {} && submitted
      ensures store.services == old(store.services) && store.portfolio == old(store.portfolio)
      ensures store.testimonials == old(store.testimonials) && store.faqs == old(store.faqs)
    {
      if values.email != "" && !emailAccepted(values.email) {
        return BrowserBlocked;
      }
      submitted := true;
      var missing := MissingFields(values);
      if missing != {} {
        errors := missing;
        return Blocked(missing);
      }
      errors := {};
      if providerThrows {
        return Failed(FailureAlert);
      }
      var _ := store.SubmitBooking(values, now, isoNow);
      values := EmptyForm;
      outcome := Sent(ThankYouAlert);
    }
  }
}
