/**
  The values the component derives from its props and its dispatch status:
  the `tel:` destination and its label (from `switchNumber`), and the classes
  and colour that show the last dispatch outcome.
*/
module Selection {

  /** The component's `sendStatus`: "idle", "sent" or "error". */
  datatype Status = Idle | Sent | Error

  /** `hrefNumber`, line 92. */
  function HrefNumber(switchNumber: bool): string {
    if switchNumber then "tel:+13236897861" else "tel:+18336638513"
  }

  /** `labelNumber`, line 93. */
  function LabelNumber(switchNumber: bool): string {
    if switchNumber then "CALL (323)-689-7861" else "CALL (833)-366-8513"
  }

  /** `chipClasses`, lines 96-101. */
  function ChipClasses(status: Status): string {
    match status
    case Sent => "bg-green-600 text-white"
    case Error => "bg-red-600 text-white"
    case Idle => "bg-gray-300 text-gray-800"
  }

  /** `buttonOutline`, lines 103-108. */
  function ButtonOutline(status: Status): string {
    match status
    case Sent => "ring-4 ring-green-300"
    case Error => "ring-4 ring-red-300"
    case Idle => "ring-0"
  }

  /** The colour of the countdown text, lines 145-150. */
  function TimerColor(status: Status): string {
    match status
    case Sent => "#16a34a"
    case Error => "#dc2626"
    case Idle => "#ef4444"
  }

  /**
    The label reads `CALL (AAA)-EEE-LLLL` and a `tel:+1…` link dials exactly
    the ten digits AAAEEELLLL: the caller dials the number shown.
  */
  predicate ShowsNumber(text: string, href: string) {
    |href| == 16 && href[..6] == "tel:+1" &&
    (forall i :: 6 <= i < 16 ==> '0' <= href[i] <= '9') &&
    |text| == 19 && text[..6] == "CALL (" && text[9..11] == ")-" && text[14] == '-' &&
    text[6..9] + text[11..14] + text[15..] == href[6..]
  }

  /**
    As written, the `switchNumber = true` label shows the number its link
    dials, but the `false` label shows 833-366-8513 while its link dials
    833-663-8513.
  */
  lemma LabelMismatchAsWritten()
    ensures ShowsNumber(LabelNumber(true), HrefNumber(true))
    ensures !ShowsNumber(LabelNumber(false), HrefNumber(false))
  {
    var text, href := LabelNumber(true), HrefNumber(true);
    assert text == "CALL (323)-689-7861" && href == "tel:+13236897861";
    assert text[6..9] == "323" && text[11..14] == "689" && text[15..] == "7861";
    assert href[6..] == "3236897861";
    assert "323" + "689" + "7861" == "3236897861";
    var other := LabelNumber(false);
    assert other[11..14] == "366";
    assert (other[6..9] + other[11..14] + other[15..])[3] == other[11];
    assert HrefNumber(false)[6..][3] == '6';
  }

  /** The label with the digits the link dials. */
  function CorrectedLabelNumber(switchNumber: bool): string {
    if switchNumber then "CALL (323)-689-7861" else "CALL (833)-663-8513"
  }

  /** With the corrected label, both choices show the number they dial. */
  lemma CorrectedLabelShowsDialledNumber(switchNumber: bool)
    ensures ShowsNumber(CorrectedLabelNumber(switchNumber), HrefNumber(switchNumber))
  {
    var text, href := CorrectedLabelNumber(switchNumber), HrefNumber(switchNumber);
    if switchNumber {
      assert text[6..9] == "323" && text[11..14] == "689" && text[15..] == "7861";
      assert href[6..] == "3236897861";
      assert "323" + "689" + "7861" == "3236897861";
    } else {
      assert text[6..9] == "833" && text[11..14] == "663" && text[15..] == "8513";
      assert href[6..] == "8336638513";
      assert "833" + "663" + "8513" == "8336638513";
    }
  }

  /** `switchNumber` decides between two different destinations and labels. */
  lemma DestinationsDiffer()
    ensures HrefNumber(true) != HrefNumber(false)
    ensures LabelNumber(true) != LabelNumber(false)
    ensures CorrectedLabelNumber(true) != CorrectedLabelNumber(false)
  {
  }

  /**
    Each of the chip, the button ring and the countdown colour tells the three
    outcomes apart.
  */
  lemma IndicatorsDistinguishStatus(a: Status, b: Status)
    requires a != b
    ensures ChipClasses(a) != ChipClasses(b)
    ensures ButtonOutline(a) != ButtonOutline(b)
    ensures TimerColor(a) != TimerColor(b)
  {
  }

  /**
    The chip and the ring agree on the outcome's hue: green for sent, red for
    error, and for idle a gray chip and no ring.
  */
  lemma ChipAndRingAgree(status: Status)
    ensures status == Sent ==> ChipClasses(status)[..9] == "bg-green-" && ButtonOutline(status)[12..18] == "green-"
    ensures status == Error ==> ChipClasses(status)[..7] == "bg-red-" && ButtonOutline(status)[12..16] == "red-"
    ensures status == Idle ==> ChipClasses(status)[..8] == "bg-gray-" && ButtonOutline(status) == "ring-0"
  {
  }
}
