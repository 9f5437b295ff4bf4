// pages/AdminRestaurantPage.js: the input helpers of the admin's restaurant
// form. `formatTimeInput` turns whatever is typed into a business-hours field
// into "HH:MM" as it is typed; the validators decide which fields the form
// reports before it is submitted.
module AdminRestaurantPage {
  import opened TextInput

  // ---------------------------------------------------------------------
  // validateTimeFormat: /^([01]?[0-9]|2[0-3]):[0-5][0-9]$/
  // ---------------------------------------------------------------------

  /** `[01]?[0-9]|2[0-3]` */
  predicate HoursPattern(h: string)
  {
    || (|h| == 1 && IsDigit(h[0]))
    || (|h| == 2 && (h[0] == '0' || h[0] == '1') && IsDigit(h[1]))
    || (|h| == 2 && h[0] == '2' && '0' <= h[1] <= '3')
  }

  /** `[0-5][0-9]` */
  predicate MinutesPattern(m: string)
  {
    |m| == 2 && '0' <= m[0] <= '5' && IsDigit(m[1])
  }

  predicate ValidateTimeFormat(t: string)
  {
    || (|t| == 4 && t[1] == ':' && HoursPattern(t[..1]) && MinutesPattern(t[2..]))
    || (|t| == 5 && t[2] == ':' && HoursPattern(t[..2]) && MinutesPattern(t[3..]))
  }

  /** The colon at `k`, one or two digits before it reading 0..23 and two after it reading 0..59. */
  predicate ClockAt(t: string, k: nat)
  {
    && |t| == k + 3 && t[k] == ':'
    && AllDigits(t[..k]) && AllDigits(t[k + 1..])
    && DecimalValue(t[..k]) <= 23 && DecimalValue(t[k + 1..]) <= 59
  }

  /** A wall-clock time of day: "H:MM" or "HH:MM". */
  predicate ClockTime(t: string)
  {
    ClockAt(t, 1) || ClockAt(t, 2)
  }

  lemma HoursPatternMeaning(h: string)
    requires |h| == 1 || |h| == 2
    ensures HoursPattern(h) <==> AllDigits(h) && DecimalValue(h) <= 23
  {
    if AllDigits(h) {
      if |h| == 1 {
        DecimalValueOne(h);
      } else {
        DecimalValueTwo(h);
      }
    }
  }

  lemma MinutesPatternMeaning(m: string)
    requires |m| == 2
    ensures MinutesPattern(m) <==> AllDigits(m) && DecimalValue(m) <= 59
  {
    if AllDigits(m) {
      DecimalValueTwo(m);
    }
  }

  /** The regular expression accepts exactly the times of day. */
  lemma ValidateTimeFormatMeaning(t: string)
    ensures ValidateTimeFormat(t) <==> ClockTime(t)
  {
    if |t| == 4 {
      HoursPatternMeaning(t[..1]);
      MinutesPatternMeaning(t[2..]);
    } else if |t| == 5 {
      HoursPatternMeaning(t[..2]);
      MinutesPatternMeaning(t[3..]);
    }
  }

  // ---------------------------------------------------------------------
  // formatTimeInput
  // ---------------------------------------------------------------------

  /** A two-digit hour kept when it reads 0..23, otherwise "00". */
  function ClampHours(hours: string): (r: string)
    requires AllDigits(hours) && |hours| == 2
    ensures |r| == 2 && AllDigits(r) && DecimalValue(r) <= 23
    ensures r == hours <==> DecimalValue(hours) <= 23
    ensures r != hours ==> r == "00"
  {
    DecimalValueTwo("00");
    if DecimalValue(hours) <= 23 then hours else "00"
  }

  /** A one- or two-digit minute part kept when it reads 0..59, otherwise "00"; one digit is always kept. */
  function ClampMinutes(minutes: string): (r: string)
    requires AllDigits(minutes) && (|minutes| == 1 || |minutes| == 2)
    ensures |r| == |minutes| && AllDigits(r) && DecimalValue(r) <= 59
    ensures r == minutes <==> DecimalValue(minutes) <= 59
    ensures r != minutes ==> r == "00"
  {
    DecimalValueTwo("00");
    if |minutes| == 1 then DecimalValueOne(minutes); minutes
    else if DecimalValue(minutes) <= 59 then minutes else "00"
  }

  /**
   * The first four digits typed, with a colon after the hours once a third
   * digit is there; an hour above 23 or a minute above 59 becomes "00".
   */
  function FormatTimeInput(value: string): (r: string)
    ensures |r| <= 5
    ensures forall i :: 0 <= i < |r| && r[i] == ':' ==> i == 2
    ensures r == "" <==> Digits(value) == ""
    ensures |Digits(value)| <= 2 ==> r == Digits(value)
    ensures |Digits(value)| > 2 ==> |r| == Min(|Digits(value)|, 4) + 1 && r[2] == ':'
  {
    var digits := Prefix(Digits(value), 4);
    if |digits| > 2 then
      ClampHours(digits[..2]) + ":" + ClampMinutes(digits[2..])
    else if |digits| > 0 then digits
    else ""
  }

  /**
   * Formatting only inserts the colon: the digits of the result are the
   * first four digits typed when the hour and minute are in range, and the
   * out-of-range part is replaced by "00" otherwise.
   */
  lemma FormatTimeInputDigits(value: string)
    requires |Digits(value)| > 2
    ensures var d := Prefix(Digits(value), 4);
      var r := FormatTimeInput(value);
      && r == r[..2] + ":" + r[3..]
      && (r[..2] == d[..2] <==> DecimalValue(d[..2]) <= 23)
      && (r[..2] != d[..2] ==> r[..2] == "00")
      && (r[3..] == d[2..] <==> DecimalValue(d[2..]) <= 59)
      && (r[3..] != d[2..] ==> r[3..] == "00")
  {
    var d := Prefix(Digits(value), 4);
    var r := FormatTimeInput(value);
    var h := ClampHours(d[..2]);
    var m := ClampMinutes(d[2..]);
    assert r == h + ":" + m;
    assert r[..2] == h;
    assert r[3..] == m;
  }

  /** Four or more digits typed always give a time the validator accepts. */
  lemma FormatTimeInputFourDigits(value: string)
    requires |Digits(value)| >= 4
    ensures ValidateTimeFormat(FormatTimeInput(value))
  {
    var d := Prefix(Digits(value), 4);
    var r := FormatTimeInput(value);
    var h := ClampHours(d[..2]);
    var m := ClampMinutes(d[2..]);
    assert r == h + ":" + m;
    assert r[..2] == h && r[3..] == m;
    assert ClockAt(r, 2);
    ValidateTimeFormatMeaning(r);
  }

  /** Formatting an already formatted value changes nothing. */
  lemma FormatTimeInputIdempotent(value: string)
    ensures FormatTimeInput(FormatTimeInput(value)) == FormatTimeInput(value)
  {
    var d := Prefix(Digits(value), 4);
    var r := FormatTimeInput(value);
    if |d| > 2 {
      var h := ClampHours(d[..2]);
      var m := ClampMinutes(d[2..]);
      assert r == h + ":" + m;
      DigitsOfConcat(h + ":", m);
      DigitsOfConcat(h, ":");
      DigitsOfNonDigit(':');
      assert Digits(r) == h + m;
      assert Prefix(Digits(r), 4) == h + m;
      assert (h + m)[..2] == h && (h + m)[2..] == m;
      assert ClampHours(h) == h;
      assert ClampMinutes(m) == m;
    }
  }

  // ---------------------------------------------------------------------
  // validatePhone, validateEmail
  // ---------------------------------------------------------------------

  /** `/^[0-9]{10}$/`: ten ASCII digits and nothing else. */
  predicate ValidatePhone(phone: string)
  {
    |phone| == 10 && AllDigits(phone)
  }

  /** `[^\s@]`: a character other than whitespace and '@'. */
  predicate Plain(s: string)
  {
    forall i :: 0 <= i < |s| ==> s[i] != '@' && !IsJsSpace(s[i])
  }

  /**
   * `/^[^\s@]+@[^\s@]+\.[^\s@]+$/`: a non-empty local part, one '@', and a
   * domain with a '.' that has characters on both sides.
   */
  predicate ValidateEmail(email: string)
  {
    exists at, dot :: 0 < at && at + 1 < dot < |email| - 1 && email[at] == '@' && email[dot] == '.'
      && Plain(email[..at]) && Plain(email[at + 1..])
  }

  // ---------------------------------------------------------------------
  // validateForm
  // ---------------------------------------------------------------------

  datatype RestaurantForm = RestaurantForm(
    email: string,
    phone: string,
    name: string,
    password: string,
    city: string,
    district: string,
    address: string,
    businessHoursStart: string,
    businessHoursEnd: string,
    cuisineType: string)

  /** The keys of the errors object. */
  datatype FormField =
    | EmailField | PhoneField | NameField | PasswordField | CityField | DistrictField
    | AddressField | HoursStartField | HoursEndField | CuisineTypeField

  function If(c: bool, f: FormField): set<FormField>
  {
    if c then {f} else {}
  }

  /** The e-mail and password checks, made only when a restaurant is created. */
  function CredentialErrors(form: RestaurantForm, isEdit: bool): (errors: set<FormField>)
    ensures errors <= {EmailField, PasswordField}
    ensures EmailField in errors <==> !isEdit && !ValidateEmail(form.email)
    ensures PasswordField in errors <==> !isEdit && form.password == ""
  {
    If(!isEdit && !ValidateEmail(form.email), EmailField) + If(!isEdit && form.password == "", PasswordField)
  }

  /** The phone check and the required text fields. */
  function ContactErrors(form: RestaurantForm): (errors: set<FormField>)
    ensures errors <= {PhoneField, NameField, CityField, DistrictField, AddressField, CuisineTypeField}
    ensures PhoneField in errors <==> !ValidatePhone(form.phone)
    ensures NameField in errors <==> Blank(form.name)
    ensures CityField in errors <==> Blank(form.city)
    ensures DistrictField in errors <==> Blank(form.district)
    ensures AddressField in errors <==> Blank(form.address)
    ensures CuisineTypeField in errors <==> Blank(form.cuisineType)
  {
    If(!ValidatePhone(form.phone), PhoneField)
    + If(Blank(form.name), NameField)
    + If(Blank(form.city), CityField)
    + If(Blank(form.district), DistrictField)
    + If(Blank(form.address), AddressField)
    + If(Blank(form.cuisineType), CuisineTypeField)
  }

  /** The two business-hours checks: a field is reported exactly when it is not a time of day. */
  function HoursErrors(form: RestaurantForm): (errors: set<FormField>)
    ensures errors <= {HoursStartField, HoursEndField}
    ensures HoursStartField in errors <==> !ClockTime(form.businessHoursStart)
    ensures HoursEndField in errors <==> !ClockTime(form.businessHoursEnd)
  {
    ValidateTimeFormatMeaning(form.businessHoursStart);
    ValidateTimeFormatMeaning(form.businessHoursEnd);
    If(!ValidateTimeFormat(form.businessHoursStart), HoursStartField)
    + If(!ValidateTimeFormat(form.businessHoursEnd), HoursEndField)
  }

  /** The fields the form reports; e-mail and password are only checked when a restaurant is created. */
  function ValidateForm(form: RestaurantForm, isEdit: bool): (errors: set<FormField>)
  {
    CredentialErrors(form, isEdit) + ContactErrors(form) + HoursErrors(form)
  }

  /** E-mail and password are reported exactly when creating with an invalid e-mail or an empty password. */
  lemma ValidateFormCredentials(form: RestaurantForm, isEdit: bool)
    ensures EmailField in ValidateForm(form, isEdit) <==> !isEdit && !ValidateEmail(form.email)
    ensures PasswordField in ValidateForm(form, isEdit) <==> !isEdit && form.password == ""
  {
    var k := ContactErrors(form);
    var h := HoursErrors(form);
    assert EmailField !in k && PasswordField !in k && EmailField !in h && PasswordField !in h;
  }

  /** The phone is reported unless it has ten digits, and each required text field exactly when blank. */
  lemma ValidateFormContact(form: RestaurantForm, isEdit: bool)
    ensures PhoneField in ValidateForm(form, isEdit) <==> !ValidatePhone(form.phone)
    ensures NameField in ValidateForm(form, isEdit) <==> Blank(form.name)
    ensures CityField in ValidateForm(form, isEdit) <==> Blank(form.city)
    ensures DistrictField in ValidateForm(form, isEdit) <==> Blank(form.district)
    ensures AddressField in ValidateForm(form, isEdit) <==> Blank(form.address)
    ensures CuisineTypeField in ValidateForm(form, isEdit) <==> Blank(form.cuisineType)
  {
    var c := CredentialErrors(form, isEdit);
    var h := HoursErrors(form);
    assert PhoneField !in c && NameField !in c && CityField !in c && DistrictField !in c && AddressField !in c && CuisineTypeField !in c;
    assert PhoneField !in h && NameField !in h && CityField !in h && DistrictField !in h && AddressField !in h && CuisineTypeField !in h;
  }

  /** Each of the business hours is reported exactly when it is not a time of day. */
  lemma ValidateFormHours(form: RestaurantForm, isEdit: bool)
    ensures HoursStartField in ValidateForm(form, isEdit) <==> !ClockTime(form.businessHoursStart)
    ensures HoursEndField in ValidateForm(form, isEdit) <==> !ClockTime(form.businessHoursEnd)
  {
    var c := CredentialErrors(form, isEdit);
    var k := ContactErrors(form);
    assert HoursStartField !in c && HoursEndField !in c && HoursStartField !in k && HoursEndField !in k;
  }

  /** Editing reports what creating reports, less the e-mail and password checks. */
  lemma ValidateFormEditMode(form: RestaurantForm)
    ensures ValidateForm(form, true) == ValidateForm(form, false) - {EmailField, PasswordField}
    ensures ValidateForm(form, true) <= ValidateForm(form, false)
  {
    var k := ContactErrors(form);
    var h := HoursErrors(form);
    assert CredentialErrors(form, true) == {};
    assert EmailField !in k && PasswordField !in k && EmailField !in h && PasswordField !in h;
    assert CredentialErrors(form, false) <= {EmailField, PasswordField};
  }

  /** Business hours entered through `formatTimeInput` with four digits are never reported. */
  lemma FormattedHoursAccepted(form: RestaurantForm, isEdit: bool, typedStart: string, typedEnd: string)
    requires |Digits(typedStart)| >= 4 && |Digits(typedEnd)| >= 4
    requires form.businessHoursStart == FormatTimeInput(typedStart)
    requires form.businessHoursEnd == FormatTimeInput(typedEnd)
    ensures HoursStartField !in ValidateForm(form, isEdit)
    ensures HoursEndField !in ValidateForm(form, isEdit)
  {
    FormatTimeInputFourDigits(typedStart);
    FormatTimeInputFourDigits(typedEnd);
    ValidateTimeFormatMeaning(form.businessHoursStart);
    ValidateTimeFormatMeaning(form.businessHoursEnd);
  }
}
