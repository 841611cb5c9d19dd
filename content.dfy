/** The behaviour in the Arabic site copy: the WhatsApp booking message built
    from the booking form, the service options of the booking form, and the
    services page description. */
module Content {
  import opened Text
  import opened Http

  /** The booking form fields the message may mention; each optional. */
  datatype PrefillArgs = PrefillArgs(
    serviceLabel: Option<string>,
    preferredDate: Option<string>,
    preferredTimeLabel: Option<string>,
    fullName: Option<string>,
    phone: Option<string>,
    message: Option<string>)

  function Greeting(clinicName: string): string {
    "مرحبًا " + clinicName + "،"
  }

  const BookingLine: string := "أود حجز موعد."
  const ThanksLine: string := "شكرًا!"

  /** A labelled line when the value is present and non-empty, nothing otherwise. */
  function LineIf(caption: string, value: Option<string>): (r: seq<string>)
    ensures |r| == (if Truthy(value) then 1 else 0)
    ensures Truthy(value) ==> r[0] == caption + value.value
  {
    if Truthy(value) then [caption + value.value] else []
  }

  /** `[preferredDate, preferredTimeLabel].filter(Boolean).join(' - ')`. */
  function When(date: Option<string>, time: Option<string>): (r: string)
    ensures Truthy(date) && !Truthy(time) ==> r == date.value
    ensures !Truthy(date) && Truthy(time) ==> r == time.value
    ensures Truthy(date) && Truthy(time) ==> r == date.value + " - " + time.value
  {
    var present := (if Truthy(date) then [date.value] else []) + (if Truthy(time) then [time.value] else []);
    Join(present, " - ")
  }

  /** The lines of the booking message, in order: greeting, booking request,
      then the service, time, name, phone and note lines that apply, then thanks. */
  function PrefillLines(clinicName: string, a: PrefillArgs): seq<string> {
    [Greeting(clinicName), BookingLine]
    + LineIf("الخدمة: ", a.serviceLabel)
    + (if Truthy(a.preferredDate) || Truthy(a.preferredTimeLabel)
       then ["الوقت المفضل: " + When(a.preferredDate, a.preferredTimeLabel)] else [])
    + LineIf("الاسم: ", a.fullName)
    + LineIf("رقمي: ", a.phone)
    + LineIf("ملاحظة: ", a.message)
    + [ThanksLine]
  }

  /** `booking.whatsappPrefill`: the lines pushed one by one onto `parts`, then
      joined with newlines. */
  method WhatsappPrefill(clinicName: string, a: PrefillArgs) returns (text: string)
    ensures text == Join(PrefillLines(clinicName, a), "\n")
  {
    var parts: seq<string> := [];
    parts := parts + [Greeting(clinicName)];
    parts := parts + [BookingLine];
    if Truthy(a.serviceLabel) {
      parts := parts + ["الخدمة: " + a.serviceLabel.value];
    }
    assert parts == [Greeting(clinicName), BookingLine] + LineIf("الخدمة: ", a.serviceLabel);
    ghost var timeLine: seq<string> := [];
    if Truthy(a.preferredDate) || Truthy(a.preferredTimeLabel) {
      var when := When(a.preferredDate, a.preferredTimeLabel);
      timeLine := ["الوقت المفضل: " + when];
      parts := parts + ["الوقت المفضل: " + when];
    }
    assert parts == [Greeting(clinicName), BookingLine] + LineIf("الخدمة: ", a.serviceLabel) + timeLine;
    if Truthy(a.fullName) {
      parts := parts + ["الاسم: " + a.fullName.value];
    }
    assert parts == [Greeting(clinicName), BookingLine] + LineIf("الخدمة: ", a.serviceLabel) + timeLine
                    + LineIf("الاسم: ", a.fullName);
    if Truthy(a.phone) {
      parts := parts + ["رقمي: " + a.phone.value];
    }
    assert parts == [Greeting(clinicName), BookingLine] + LineIf("الخدمة: ", a.serviceLabel) + timeLine
                    + LineIf("الاسم: ", a.fullName) + LineIf("رقمي: ", a.phone);
    if Truthy(a.message) {
      parts := parts + ["ملاحظة: " + a.message.value];
    }
    parts := parts + [ThanksLine];
    assert parts == PrefillLines(clinicName, a);
    text := Join(parts, "\n");
  }

  /** The message always opens with the greeting and the booking request and
      closes with thanks; it has one line more for each field that applies. */
  lemma PrefillShape(clinicName: string, a: PrefillArgs)
    ensures var lines := PrefillLines(clinicName, a);
            && lines[0] == Greeting(clinicName) && lines[1] == BookingLine
            && lines[|lines| - 1] == ThanksLine
            && |lines| == 3 + |LineIf("", a.serviceLabel)|
                            + (if Truthy(a.preferredDate) || Truthy(a.preferredTimeLabel) then 1 else 0)
                            + |LineIf("", a.fullName)| + |LineIf("", a.phone)| + |LineIf("", a.message)|
    ensures StartsWith(Join(PrefillLines(clinicName, a), "\n"), Greeting(clinicName) + "\n" + BookingLine)
    ensures var t := Join(PrefillLines(clinicName, a), "\n");
            |ThanksLine| <= |t| && t[|t| - |ThanksLine|..] == ThanksLine
  {
    var lines := PrefillLines(clinicName, a);
    var rest := lines[2..];
    assert lines == [Greeting(clinicName), BookingLine] + rest;
    assert |rest| >= 1;
    assert lines[1..] == [BookingLine] + rest;
    assert Join(lines, "\n") == Greeting(clinicName) + "\n" + Join(lines[1..], "\n");
    assert Join(lines[1..], "\n") == BookingLine + "\n" + Join(rest, "\n");
    JoinEnds(lines, "\n");
  }

  /** With every field empty the message is exactly three lines. */
  lemma PrefillAllEmpty(clinicName: string, a: PrefillArgs)
    requires !Truthy(a.serviceLabel) && !Truthy(a.preferredDate) && !Truthy(a.preferredTimeLabel)
    requires !Truthy(a.fullName) && !Truthy(a.phone) && !Truthy(a.message)
    ensures Join(PrefillLines(clinicName, a), "\n") == Greeting(clinicName) + "\n" + BookingLine + "\n" + ThanksLine
  {
    var lines := PrefillLines(clinicName, a);
    assert lines == [Greeting(clinicName), BookingLine, ThanksLine];
    assert lines[1..] == [BookingLine, ThanksLine];
    assert lines[1..][1..] == [ThanksLine];
  }

  /** One choice of the booking form's service step. */
  datatype ServiceOption = ServiceOption(value: string, caption: string, desc: string)

  const OptionDescription: string := "يمكننا شرح التفاصيل وتأكيد الوقت المناسب بعد استلام الطلب."

  /** `serviceStep.options`: one option per service, in order, its value and
      caption (the `label` field) both the service name. */
  function ServiceOptions(services: seq<string>): (r: seq<ServiceOption>)
    ensures |r| == |services|
    ensures forall i :: 0 <= i < |r| ==> r[i].value == services[i] && r[i].caption == services[i] && r[i].desc == OptionDescription
  {
    if services == [] then []
    else [ServiceOption(services[0], services[0], OptionDescription)] + ServiceOptions(services[1..])
  }

  /** `services.slice(0, 5)`. */
  function FirstFive(services: seq<string>): (r: seq<string>)
    ensures |r| == if |services| < 5 then |services| else 5
    ensures r == services[..|r|]
  {
    if |services| < 5 then services else services[..5]
  }

  /** The services page description: the clinic, its city, and the first five
      services at most, separated by the Arabic comma. */
  function ServicesSeoDescription(clinicName: string, city: string, services: seq<string>): (r: string)
    ensures var listed := Join(FirstFive(services), "، ");
            r == "تعرّف على خدمات " + clinicName + " في " + city + ": " + listed + " وغيرها."
  {
    "تعرّف على خدمات " + clinicName + " في " + city + ": " + Join(FirstFive(services), "، ") + " وغيرها."
  }

  /** Services past the fifth never change the description. */
  lemma ServicesBeyondFiveIgnored(clinicName: string, city: string, services: seq<string>, more: seq<string>)
    requires |services| >= 5
    ensures ServicesSeoDescription(clinicName, city, services + more) == ServicesSeoDescription(clinicName, city, services)
  {
    assert (services + more)[..5] == services[..5];
  }
}
