/** Contact helpers of the client profile: the postal address line and the
    `wa.me`, `tel:`, `mailto:` and maps links. Percent-encoding
    (`encodeURIComponent`, and the form encoding `URLSearchParams` applies to a
    value) is a parameter. */
module ClientLinks {
  import opened Text
  import opened Http

  datatype ClientAddress = ClientAddress(line1: string, city: string, country: string)

  /** The Arabic comma followed by a space. */
  const AddressSeparator: string := "، "

  /** `formatClientAddress`: line, city and country, in that order. */
  function FormatClientAddress(a: ClientAddress): (r: string)
    ensures r == Join([a.line1, a.city, a.country], AddressSeparator)
  {
    a.line1 + AddressSeparator + a.city + AddressSeparator + a.country
  }

  /** `toWaMePhone`: the digits of the number, in order, nothing else. */
  function ToWaMePhone(phone: string): (r: string)
    ensures forall i :: 0 <= i < |r| ==> IsDigit(r[i])
  {
    Digits(phone)
  }

  /** Digit filtering distributes over concatenation; with the one-character
      case this determines it completely: every digit kept, in order, every
      other character dropped. */
  lemma {:induction false} DigitsAppend(a: string, b: string)
    ensures Digits(a + b) == Digits(a) + Digits(b)
  {
    if a != [] {
      assert (a + b)[1..] == a[1..] + b;
      DigitsAppend(a[1..], b);
    } else {
      assert a + b == b;
    }
  }

  lemma DigitsOfOne(c: char)
    ensures Digits([c]) == if IsDigit(c) then [c] else []
  {
  }

  /** A string of digits is its own `wa.me` number, so the conversion is idempotent. */
  lemma {:induction false} ToWaMePhoneIdempotent(phone: string)
    ensures ToWaMePhone(ToWaMePhone(phone)) == ToWaMePhone(phone)
  {
    DigitsOfDigits(Digits(phone));
  }

  lemma {:induction false} DigitsOfDigits(s: string)
    requires forall i :: 0 <= i < |s| ==> IsDigit(s[i])
    ensures Digits(s) == s
  {
    if s != [] {
      DigitsOfDigits(s[1..]);
    }
  }

  /** `buildWhatsAppLink`: without text (absent or empty) the bare chat link,
      otherwise the encoded text as the `text` query parameter. */
  function BuildWhatsAppLink(phone: string, text: Option<string>, encode: string -> string): (r: string)
    ensures StartsWith(r, "https://wa.me/" + ToWaMePhone(phone))
    ensures !Truthy(text) ==> r == "https://wa.me/" + ToWaMePhone(phone)
    ensures Truthy(text) ==> r == "https://wa.me/" + ToWaMePhone(phone) + "?text=" + encode(text.value)
  {
    var waPhone := ToWaMePhone(phone);
    if !Truthy(text) then "https://wa.me/" + waPhone
    else "https://wa.me/" + waPhone + "?text=" + encode(text.value)
  }

  /** `buildTelLink`: the number with all whitespace removed, after `tel:`. */
  function BuildTelLink(phone: string): (r: string)
    ensures |r| >= 4 && r[..4] == "tel:"
    ensures forall i :: 4 <= i < |r| ==> !IsJsSpace(r[i])
    ensures r[4..] == RemoveSpaces(phone)
  {
    "tel:" + RemoveSpaces(phone)
  }

  /** Removing whitespace keeps every other character, in order. */
  lemma {:induction false} RemoveSpacesAppend(a: string, b: string)
    ensures RemoveSpaces(a + b) == RemoveSpaces(a) + RemoveSpaces(b)
  {
    if a != [] {
      assert (a + b)[1..] == a[1..] + b;
      RemoveSpacesAppend(a[1..], b);
    } else {
      assert a + b == b;
    }
  }

  /** A number without whitespace is its own `tel:` target. */
  lemma {:induction false} RemoveSpacesOfClean(s: string)
    requires forall i :: 0 <= i < |s| ==> !IsJsSpace(s[i])
    ensures RemoveSpaces(s) == s
  {
    if s != [] {
      RemoveSpacesOfClean(s[1..]);
    }
  }

  /** `URLSearchParams.toString()`: `name=value` pairs joined by `&`, with
      `formEncode` applied to every name and value. */
  function SerializeParams(params: Dict, formEncode: string -> string): (q: string)
    ensures params == [] <==> q == ""
  {
    if params == [] then ""
    else if |params| == 1 then formEncode(params[0].0) + "=" + formEncode(params[0].1)
    else formEncode(params[0].0) + "=" + formEncode(params[0].1) + "&" + SerializeParams(params[1..], formEncode)
  }

  /** The query parameters of the `mailto:` link: `subject`, then `body`, each
      only when it is present and non-empty. */
  function MailtoParams(subject: Option<string>, body: Option<string>): (p: Dict)
    ensures p == [] <==> !Truthy(subject) && !Truthy(body)
    ensures |p| <= 2 && DistinctKeys(p)
    ensures Truthy(subject) ==> p[0] == ("subject", subject.value)
    ensures Truthy(body) ==> p[|p| - 1] == ("body", body.value)
  {
    var withSubject := if Truthy(subject) then Put([], "subject", subject.value) else [];
    if Truthy(body) then Put(withSubject, "body", body.value) else withSubject
  }

  /** `buildMailtoLink`: the bare address exactly when there is neither a
      subject nor a body, otherwise the address with the serialised query. */
  function BuildMailtoLink(email: string, subject: Option<string>, body: Option<string>,
                           formEncode: string -> string): (r: string)
    ensures r == "mailto:" + email <==> !Truthy(subject) && !Truthy(body)
    ensures Truthy(subject) || Truthy(body) ==>
              r == "mailto:" + email + "?" + SerializeParams(MailtoParams(subject, body), formEncode)
  {
    var query := SerializeParams(MailtoParams(subject, body), formEncode);
    if query != "" then
      assert |"mailto:" + email + "?" + query| > |"mailto:" + email|;
      "mailto:" + email + "?" + query
    else "mailto:" + email
  }

  /** Two parameters serialise as two pairs joined by `&`. */
  lemma SerializeTwo(x: (string, string), y: (string, string), formEncode: string -> string)
    ensures SerializeParams([x, y], formEncode)
            == formEncode(x.0) + "=" + formEncode(x.1) + "&" + (formEncode(y.0) + "=" + formEncode(y.1))
  {
    assert [x, y][1..] == [y];
  }

  /** With both a subject and a body, the subject comes first. */
  lemma MailtoSubjectFirst(email: string, subject: string, body: string, formEncode: string -> string)
    requires subject != "" && body != ""
    ensures BuildMailtoLink(email, Some(subject), Some(body), formEncode)
            == "mailto:" + email + "?" + (formEncode("subject") + "=" + formEncode(subject)
               + "&" + (formEncode("body") + "=" + formEncode(body)))
  {
    assert MailtoParams(Some(subject), Some(body)) == [("subject", subject), ("body", body)];
    SerializeTwo(("subject", subject), ("body", body), formEncode);
  }

  /** `buildMapsLink`: the configured URL, unchanged. */
  function BuildMapsLink(googleMapsUrl: string): (r: string)
    ensures r == googleMapsUrl
  {
    googleMapsUrl
  }
}
