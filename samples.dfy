/** Representative fill values: ordered keyword rules over the lower-cased
    label (and, for text inputs, the `type` attribute). */
module Samples {
  import opened Seqs
  import opened PyText

  /** `get_attribute('type') or 'text'` */
  function InputType(typeAttr: Option<string>): (t: string)
    ensures t != ""
  {
    if typeAttr.Some? && typeAttr.value != "" then typeAttr.value else "text"
  }

  /** Every value the text-input rules can produce. */
  const TextSamples: set<string> :=
    {"test@example.com", "+1-555-123-4567", "John", "Doe", "John Doe", "Apt 123",
     "123 Main Street", "New York", "NY", "10001", "5", "https://example.com", "Sample Text"}

  predicate IsEmailField(labelText: string, typeAttr: Option<string>) {
    Contains(Lower(labelText), "email") || InputType(typeAttr) == "email"
  }

  /** The sample for a text input with the given label and `type`
      attribute; the first rule that matches decides. */
  function SampleTextValue(labelText: string, typeAttr: Option<string>): (r: string)
    ensures r in TextSamples
    ensures r == "test@example.com" <==> IsEmailField(labelText, typeAttr)
    ensures (!IsEmailField(labelText, typeAttr) && ContainsAny(Lower(labelText), ["phone", "mobile", "tel"]))
              ==> r == "+1-555-123-4567"
    ensures r == "Sample Text" ==>
              (!Contains(Lower(labelText), "name") && !Contains(Lower(labelText), "address") &&
               InputType(typeAttr) != "number" && InputType(typeAttr) != "url")
  {
    var l := Lower(labelText);
    var t := InputType(typeAttr);
    if Contains(l, "email") || t == "email" then "test@example.com"
    else if ContainsAny(l, ["phone", "mobile", "tel"]) then "+1-555-123-4567"
    else if Contains(l, "first name") || Contains(l, "given name") then "John"
    else if Contains(l, "last name") || Contains(l, "family name") || Contains(l, "surname") then "Doe"
    else if ContainsAny(l, ["name", "applicant"]) then "John Doe"
    else if Contains(l, "address") then
      (if Contains(l, "line 2") || Contains(l, "apt") then "Apt 123" else "123 Main Street")
    else if Contains(l, "city") then "New York"
    else if ContainsAny(l, ["state", "province"]) then "NY"
    else if ContainsAny(l, ["zip", "postal"]) then "10001"
    else if t == "number" || ContainsAny(l, ["years", "salary", "gpa"]) then "5"
    else if t == "url" || Contains(l, "website") || Contains(l, "url") then "https://example.com"
    else "Sample Text"
  }

  predicate IsDigit(c: char) { '0' <= c <= '9' }

  function DigitValue(c: char): int { c as int - '0' as int }

  /** A literal ISO calendar date `YYYY-MM-DD` with month 01-12 and day
      01-31. */
  ghost predicate IsIsoDate(s: string) {
    |s| == 10 && s[4] == '-' && s[7] == '-' &&
    IsDigit(s[0]) && IsDigit(s[1]) && IsDigit(s[2]) && IsDigit(s[3]) &&
    IsDigit(s[5]) && IsDigit(s[6]) && IsDigit(s[8]) && IsDigit(s[9]) &&
    1 <= DigitValue(s[5]) * 10 + DigitValue(s[6]) <= 12 &&
    1 <= DigitValue(s[8]) * 10 + DigitValue(s[9]) <= 31
  }

  /** Every value the date rules can produce. */
  const DateSamples: set<string> :=
    {"1990-01-15", "2020-01-01", "2023-12-31", "2022-05-15", "2024-02-01", "2023-06-15"}

  predicate IsBirthField(labelText: string) {
    ContainsAny(Lower(labelText), ["birth", "born", "dob"])
  }

  /** The sample for a date input with the given label; the first rule that
      matches decides. */
  function SampleDate(labelText: string): (r: string)
    ensures r in DateSamples
    ensures r == "1990-01-15" <==> IsBirthField(labelText)
    ensures r == "2023-06-15" ==>
              (!IsBirthField(labelText) &&
               !ContainsAny(Lower(labelText), ["start", "begin", "from"]) &&
               !ContainsAny(Lower(labelText), ["end", "until", "to", "finish"]))
  {
    var l := Lower(labelText);
    if ContainsAny(l, ["birth", "born", "dob"]) then "1990-01-15"
    else if ContainsAny(l, ["start", "begin", "from"]) then "2020-01-01"
    else if ContainsAny(l, ["end", "until", "to", "finish"]) then "2023-12-31"
    else if ContainsAny(l, ["graduation", "graduate", "degree"]) then "2022-05-15"
    else if ContainsAny(l, ["available", "prefer", "earliest"]) then "2024-02-01"
    else "2023-06-15"
  }

  /** Every value the date rules can produce is an ISO calendar date. */
  lemma DateSamplesAreIso()
    ensures forall d :: d in DateSamples ==> IsIsoDate(d)
  {
    assert IsIsoDate("1990-01-15");
    assert IsIsoDate("2020-01-01");
    assert IsIsoDate("2023-12-31");
    assert IsIsoDate("2022-05-15");
    assert IsIsoDate("2024-02-01");
    assert IsIsoDate("2023-06-15");
  }

  /** Whatever the label, the date sample is a valid ISO calendar date. */
  lemma SampleDateIsIso(labelText: string)
    ensures IsIsoDate(SampleDate(labelText))
  {
    DateSamplesAreIso();
  }
}
