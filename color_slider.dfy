/**
 * One colour channel's row (ContentView.swift, `ColorSliderView`): the
 * channel value shared with the screen, the text field's buffer and the
 * "Wrong format!" alert flag, together with the three handlers that change
 * them: the slider's value observer, the text field's change observer and
 * the row's appearance hook.
 */
module ColorSlider {
  import opened Wrappers

  /**
   * Swift's `Double(String)` initialiser, supplied by the caller: Some(x) when
   * the text reads as the finite number x, None when it does not read as a
   * number (text that reads as NaN or an infinity is also None here; either
   * way the range check rejects it).
   */
  type Parser = string -> Option<real>

  /** The closed range 0...255 that the slider offers and the text rule accepts. */
  predicate InRange(x: real)
  {
    0.0 <= x <= 255.0
  }

  /** The row's observable state: the bound value, the text buffer, the alert flag. */
  datatype SliderState = SliderState(value: real, text: string, alertPresented: bool)

  /** Swift's `lround`: the nearest integer, halves rounded away from zero. */
  function Round(v: real): (r: int)
    ensures v >= 0.0 ==> r as real - 0.5 <= v < r as real + 0.5
    ensures v < 0.0 ==> r as real - 0.5 < v <= r as real + 0.5
  {
    if v >= 0.0 then (v + 0.5).Floor else -((0.5 - v).Floor)
  }

  /** A rounded in-range value is itself a channel value from 0 to 255. */
  lemma RoundInRange(v: real)
    requires InRange(v)
    ensures 0 <= Round(v) <= 255
  {
  }

  predicate IsDigit(c: char)
  {
    '0' <= c <= '9'
  }

  /** A non-empty run of decimal digits. */
  predicate IsDecimal(s: string)
  {
    |s| > 0 && forall i :: 0 <= i < |s| ==> IsDigit(s[i])
  }

  function DigitChar(d: nat): (c: char)
    requires d < 10
    ensures IsDigit(c)
  {
    ('0' as int + d) as char
  }

  function DigitValue(c: char): (d: nat)
    requires IsDigit(c)
    ensures d < 10
  {
    c as int - '0' as int
  }

  /** The number a run of decimal digits denotes. */
  function DecimalValue(s: string): (n: nat)
    requires forall i :: 0 <= i < |s| ==> IsDigit(s[i])
    decreases |s|
  {
    if s == [] then 0
    else DecimalValue(s[..|s| - 1]) * 10 + DigitValue(s[|s| - 1])
  }

  /** The decimal digits of n, as string interpolation writes a non-negative Int. */
  function Digits(n: nat): (s: string)
    ensures IsDecimal(s)
    ensures s == "0" <==> n == 0
    ensures s[0] != '0' || s == "0"
    decreases n
  {
    if n < 10 then [DigitChar(n)] else Digits(n / 10) + [DigitChar(n % 10)]
  }

  /** String interpolation of an Int, `"\(n)"`: a minus sign before negative numbers. */
  function IntText(n: int): (s: string)
    ensures n >= 0 ==> IsDecimal(s) && DecimalValue(s) == n
    ensures n < 0 ==> |s| > 1 && s[0] == '-' && IsDecimal(s[1..]) && DecimalValue(s[1..]) == -n
    ensures n >= 0 ==> s[0] != '0' || s == "0"
    ensures n < 0 ==> |s| > 1 && s[1] != '0'
  {
    if n < 0 then
      DigitsRoundTrip(-n);
      assert ("-" + Digits(-n))[1..] == Digits(-n);
      "-" + Digits(-n)
    else
      DigitsRoundTrip(n);
      Digits(n)
  }

  /** Reading the digits written for n gives back n. */
  lemma {:induction false} DigitsRoundTrip(n: nat)
    ensures DecimalValue(Digits(n)) == n
    decreases n
  {
    if n >= 10 {
      var s := Digits(n);
      assert s[..|s| - 1] == Digits(n / 10);
      DigitsRoundTrip(n / 10);
    }
  }

  /**
   * What `Double(String)` is relied on for: a plain run of decimal digits
   * denoting a channel value from 0 to 255 reads as exactly that number
   * (every such whole number is a Double, so no rounding is involved).
   */
  ghost predicate ReadsDecimals(parse: Parser)
  {
    forall s :: IsDecimal(s) && DecimalValue(s) <= 255 ==> parse(s) == Some(DecimalValue(s) as real)
  }

  /**
   * The text refresh run when the slider moves the value and when the row
   * appears: the buffer is set to the value rounded with `lround`.
   */
  function SyncText(s: SliderState): (r: SliderState)
    ensures r.value == s.value && r.alertPresented == s.alertPresented
    ensures s.value >= 0.0 ==> IsDecimal(r.text) && Round(s.value) == DecimalValue(r.text)
    ensures s.value >= 0.0 ==> r.text[0] != '0' || r.text == "0"
    ensures s.value >= 0.0 ==> -0.5 <= s.value - DecimalValue(r.text) as real < 0.5
  {
    var r := s.(text := IntText(Round(s.value)));
    if s.value >= 0.0 then DigitsRoundTrip(Round(s.value)); r else r
  }

  /** Whether the text rule takes the typed text as the new channel value. */
  predicate Accepts(parse: Parser, text: string)
  {
    parse(text).Some? && InRange(parse(text).value)
  }

  /**
   * The text field's change observer: text that reads as a number in
   * 0...255 becomes the value and stays as typed; anything else raises the
   * alert and resets both the value and the text to zero.
   */
  function CommitText(s: SliderState, parse: Parser): (r: SliderState)
    ensures InRange(r.value)
  {
    match parse(s.text)
    case Some(n) =>
      if InRange(n) then s.(value := n) else SliderState(0.0, "0", true)
    case None => SliderState(0.0, "0", true)
  }

  /** The accept and reject outcomes of the text rule, each in full. */
  lemma CommitTextOutcome(s: SliderState, parse: Parser)
    ensures Accepts(parse, s.text) ==>
      CommitText(s, parse) == SliderState(parse(s.text).value, s.text, s.alertPresented)
    ensures !Accepts(parse, s.text) ==> CommitText(s, parse) == SliderState(0.0, "0", true)
    ensures CommitText(s, parse).alertPresented <==> s.alertPresented || !Accepts(parse, s.text)
  {
  }

  /**
   * Rewriting "0" into the buffer on a rejection fires the text observer
   * once more; that second run accepts "0" and changes nothing.
   */
  lemma CommitTextSettles(s: SliderState, parse: Parser)
    requires ReadsDecimals(parse)
    ensures CommitText(CommitText(s, parse), parse) == CommitText(s, parse)
  {
  }

  /**
   * The text the slider writes is always accepted by the text rule: no
   * alert, the text kept, and the value snapped to its rounded integer.
   */
  lemma SyncTextAccepted(s: SliderState, parse: Parser)
    requires ReadsDecimals(parse)
    requires InRange(s.value)
    ensures CommitText(SyncText(s), parse)
      == SliderState(Round(s.value) as real, IntText(Round(s.value)), s.alertPresented)
  {
  }

  /** A slider row: the channel value it binds, its text buffer and its alert flag. */
  class ChannelSlider {
    var value: real
    var text: string
    var isAlertPresented: bool

    /** The channel value stays inside 0...255. */
    ghost predicate Valid()
      reads this
    {
      InRange(value)
    }

    function State(): (s: SliderState)
      reads this
    {
      SliderState(value, text, isAlertPresented)
    }

    /** A fresh row: the value the screen starts with, text "0", no alert. */
    constructor (initial: real)
      requires InRange(initial)
      ensures Valid()
      ensures State() == SliderState(initial, "0", false)
    {
      value := initial;
      text := "0";
      isAlertPresented := false;
    }

    /** The slider, with range 0...255 and step 1, writes a whole number to the value. */
    method SlideTo(step: int)
      requires Valid()
      requires 0 <= step <= 255
      modifies this
      ensures Valid()
      ensures State() == old(State()).(value := step as real)
    {
      value := step as real;
    }

    /** The slider's change observer: the buffer shows the rounded value. */
    method ValueChanged()
      requires Valid()
      modifies this
      ensures Valid()
      ensures State() == SyncText(old(State()))
      ensures IsDecimal(text) && DecimalValue(text) == Round(value)
    {
      text := IntText(Round(value));
    }

    /** The row appears: the buffer is filled with the rounded value. */
    method Appear()
      requires Valid()
      modifies this
      ensures Valid()
      ensures State() == SyncText(old(State()))
      ensures IsDecimal(text) && DecimalValue(text) == Round(value)
    {
      text := IntText(Round(value));
    }

    /** The user edits the text field: the buffer holds what was typed. */
    method Type(typed: string)
      requires Valid()
      modifies this
      ensures Valid()
      ensures State() == old(State()).(text := typed)
    {
      text := typed;
    }

    /**
     * The text field's change observer. Whatever the state before, the value
     * ends inside 0...255.
     */
    method TextChanged(parse: Parser)
      modifies this
      ensures Valid()
      ensures State() == CommitText(old(State()), parse)
      ensures Accepts(parse, old(text)) ==>
        value == parse(old(text)).value && text == old(text) && isAlertPresented == old(isAlertPresented)
      ensures !Accepts(parse, old(text)) ==> value == 0.0 && text == "0" && isAlertPresented
    {
      var parsed := parse(text);
      if parsed.Some? && InRange(parsed.value) {
        value := parsed.value;
      } else {
        isAlertPresented := true;
        value := 0.0;
        text := "0";
      }
    }
  }
}
