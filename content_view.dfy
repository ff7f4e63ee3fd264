/**
 * The colour screen itself (ContentView.swift, `ContentView`): three channel
 * rows bound to the screen's red, green and blue values, and the optional
 * focused field that drives the keyboard toolbar.
 */
module Content {
  import opened Wrappers
  import opened Focus
  import opened ColorSlider

  class ContentView {
    /** The field holding keyboard focus; None while the keyboard is dismissed. */
    var activeField: Option<Field>
    const red: ChannelSlider
    const green: ChannelSlider
    const blue: ChannelSlider

    /** The three channels are three separate rows. */
    predicate DistinctRows()
      reads this
    {
      red != green && green != blue && red != blue
    }

    /** Three distinct rows, each keeping its channel value inside 0...255. */
    ghost predicate Valid()
      reads this, red, green, blue
    {
      DistinctRows() && red.Valid() && green.Valid() && blue.Valid()
    }

    /**
     * The row that a field's focus binding attaches to: each field to its own
     * channel's row, so distinct fields reach distinct rows.
     */
    function Row(f: Field): (row: ChannelSlider)
      reads this
      ensures DistinctRows() ==> (row == red <==> f == Red)
      ensures DistinctRows() ==> (row == green <==> f == Green)
      ensures DistinctRows() ==> (row == blue <==> f == Blue)
    {
      match f
      case Red => red
      case Green => green
      case Blue => blue
    }

    /**
     * The screen starts with nothing focused; the three starting values are
     * supplied by the caller and lie in 0...255.
     */
    constructor (r: real, g: real, b: real)
      requires InRange(r) && InRange(g) && InRange(b)
      ensures Valid() && fresh(red) && fresh(green) && fresh(blue)
      ensures activeField == None
      ensures red.State() == SliderState(r, "0", false)
      ensures green.State() == SliderState(g, "0", false)
      ensures blue.State() == SliderState(b, "0", false)
    {
      activeField := None;
      red := new ChannelSlider(r);
      green := new ChannelSlider(g);
      blue := new ChannelSlider(b);
    }

    /**
     * The guard on the keyboard toolbar, with its chevrons and Done button:
     * this is its definition (offered exactly while a field is focused), not a
     * proved property; the mutators' postconditions say how it changes.
     */
    function ToolbarShown(): (shown: bool)
      reads this
      ensures shown <==> exists f: Field :: activeField == Some(f)
    {
      activeField != None
    }

    /** The down chevron. */
    method NextField()
      requires Valid()
      modifies this`activeField
      ensures Valid()
      ensures activeField == Next(old(activeField))
      ensures ToolbarShown() == old(ToolbarShown())
    {
      match activeField
      case Some(Red) => activeField := Some(Green);
      case Some(Green) => activeField := Some(Blue);
      case Some(Blue) => activeField := Some(Red);
      case None => activeField := None;
    }

    /** The up chevron. */
    method PreviousField()
      requires Valid()
      modifies this`activeField
      ensures Valid()
      ensures activeField == Previous(old(activeField))
      ensures ToolbarShown() == old(ToolbarShown())
    {
      match activeField
      case Some(Red) => activeField := Some(Blue);
      case Some(Blue) => activeField := Some(Green);
      case Some(Green) => activeField := Some(Red);
      case None => activeField := None;
    }

    /** The toolbar's Done button dismisses the keyboard. */
    method DonePressed()
      requires Valid()
      modifies this`activeField
      ensures Valid()
      ensures activeField == None && !ToolbarShown()
    {
      activeField := None;
    }

    /** A tap on the background dismisses the keyboard. */
    method BackgroundTapped()
      requires Valid()
      modifies this`activeField
      ensures Valid()
      ensures activeField == None && !ToolbarShown()
    {
      activeField := None;
    }

    /** Tapping a channel's text field gives it focus, which brings up the toolbar. */
    method FieldTapped(f: Field)
      requires Valid()
      modifies this`activeField
      ensures Valid()
      ensures activeField == Some(f) && ToolbarShown()
    {
      activeField := Some(f);
    }

    /**
     * Typing into the focused field. The text observer runs only when the
     * edit changes the text; then only that row changes. Every row keeps its
     * value inside 0...255.
     */
    method TypeIntoFocused(typed: string, parse: Parser)
      requires Valid()
      modifies red, green, blue
      ensures Valid()
      ensures activeField.Some? && typed != old(Row(activeField.value).text) ==>
        Row(activeField.value).State() == CommitText(old(Row(activeField.value).State()).(text := typed), parse)
      ensures activeField.Some? && typed == old(Row(activeField.value).text) ==>
        Row(activeField.value).State() == old(Row(activeField.value).State())
      ensures forall f :: Some(f) != activeField ==> Row(f).State() == old(Row(f).State())
    {
      if activeField.Some? {
        var row := Row(activeField.value);
        if typed != row.text {
          row.Type(typed);
          row.TextChanged(parse);
        }
      }
    }
  }

  /** A walk through the focus cursor: focus red, move down twice and up once, then Done. */
  method FocusWalkthrough()
  {
    var screen := new ContentView(10.0, 20.0, 30.0);
    screen.FieldTapped(Red);
    screen.NextField();
    assert screen.activeField == Some(Green);
    screen.NextField();
    assert screen.activeField == Some(Blue);
    screen.PreviousField();
    assert screen.activeField == Some(Green) && screen.ToolbarShown();
    screen.DonePressed();
    assert !screen.ToolbarShown();
  }

  /** A walk through one channel: slide green to 128, then type an out-of-range 300 into its field. */
  method ChannelWalkthrough(parse: Parser)
    requires parse("300") == Some(300.0)
  {
    var screen := new ContentView(10.0, 20.0, 30.0);
    screen.green.SlideTo(128);
    screen.green.ValueChanged();
    assert screen.green.value == 128.0;
    screen.FieldTapped(Green);
    assert screen.Row(Red) == screen.red && screen.Row(Green) == screen.green;
    screen.TypeIntoFocused("300", parse);
    assert screen.green.State() == SliderState(0.0, "0", true);
    assert screen.red.State() == SliderState(10.0, "0", false);
  }
}
