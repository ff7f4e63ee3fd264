# ColorizedAppSUI colour picker, modelled in Dafny

ColorizedAppSUI is a one-screen SwiftUI app: three sliders with paired
numeric text fields choose the red, green and blue channels of a colour
swatch. Beneath the layout sit two small pieces of stateful logic, and this
project models and verifies both:

- **The keyboard-focus cursor** (`Focus`, `Content`): the optional
  `activeField` (red, green, blue or nothing), the toolbar's up/down chevrons
  `previousField`/`nextField`, the Done button, the background tap, and the
  rule that the keyboard toolbar is offered only while a field is focused.
  `Content.ContentView` is a class whose methods assign `activeField`; their
  postconditions tie the new focus to the pure transition functions
  `Focus.Next` and `Focus.Previous`. The functions are specified against an
  independent reference, each field's position on screen taken modulo 3. The
  lemmas prove the cycle laws: the chevrons are inverses in every state,
  three presses return focus to where it started, n presses move focus n
  places, and n up-presses undo n down-presses.
- **The per-channel text-commit rule** (`ColorSlider`): each row's bound
  `value`, its `text` buffer and its `isAlertPresenter` flag, with the
  slider's value observer, the text field's change observer and the row's
  appearance hook. `ColorSlider.ChannelSlider` is a class whose methods update
  those fields. Its postconditions tie the new state to the pure handler
  functions `SyncText` and `CommitText`, and state the accept and reject
  outcomes directly. Text that reads as a number in 0...255 becomes the
  value and stays as typed. Anything else raises the alert and resets the
  value to 0 and the text to "0". Either way the value ends inside 0...255.

Swift's `Double(String)` is not modelled: it is a parameter
`parse: string -> Option<real>`. Two lemmas assume only that it reads a
plain run of decimal digits denoting a whole number from 0 to 255 as exactly
that number (`ReadsDecimals`). Every such number is a Double, so Swift's
parser meets this; longer digit strings, which Swift rounds or reads as
infinity, are not constrained. Swift's `lround` is modelled exactly (nearest integer,
halves away from zero). String interpolation of an `Int` is modelled as
decimal digits, with a proved round trip. From these the model proves two
facts about the handlers firing each other:
- the text the slider writes back is always accepted, with no alert;
- the "0" written on a rejection fires the text observer once more, and that
  second run changes nothing.

Two consequences of the code that a plain reading of the app does not
suggest; the model follows the code:
- The random starting value is a fraction, and the handlers, not the
  initialiser, round it. When the row appears its text changes from "0" to
  `lround(value)`, that change fires the text rule, and the rule stores the
  rounded value (`SyncTextAccepted`). Only a starting value that rounds to 0
  stays a fraction, because the text stays "0" and the rule does not fire.
  The slider, with its step of 1, only ever writes whole numbers.
- An accepted text such as "7.5" is stored as 7.5 and not reformatted by the
  text rule. Because the value changed, the slider's observer then rewrites
  the text as "8". The text rule then runs again and stores 8
  (`SyncTextAccepted`).

Files: `wrappers.dfy` (Option), `focus.dfy` (module `Focus`),
`color_slider.dfy` (module `ColorSlider`), `content_view.dfy` (module
`Content`, with two client methods, `FocusWalkthrough` and `ChannelWalkthrough`,
that drive the screen through a focus sequence and a channel edit).

## Model

| member | source | states |
|---|---|---|
| Focus.Next | ColorizedAppSUI/ContentView.swift:120-131 | the down chevron moves a focused field one place down the screen modulo 3 (red to green, green to blue, blue to red) and keeps "nothing focused" as nothing focused |
| Focus.Previous | ColorizedAppSUI/ContentView.swift:133-144 | the up chevron moves a focused field one place up the screen modulo 3 (red to blue, blue to green, green to red) and keeps "nothing focused" as nothing focused |
| Focus.NextPreviousInverse | ColorizedAppSUI/ContentView.swift:120-144 | up after down, and down after up, restore the original focus in all four states |
| Focus.ThreePressesReturn | ColorizedAppSUI/ContentView.swift:120-144 | three down-presses, or three up-presses, return focus to where it started |
| Focus.AdvancePosition | ColorizedAppSUI/ContentView.swift:120-131 | n down-presses keep "nothing focused" as is and move a focused field n places down, modulo 3 |
| Focus.RetreatPosition | ColorizedAppSUI/ContentView.swift:133-144 | n up-presses keep "nothing focused" as is and move a focused field n places up (2n down), modulo 3 |
| Focus.AdvancePeriodic | ColorizedAppSUI/ContentView.swift:120-131 | the down chevron has period 3: n presses land where n mod 3 presses do |
| Focus.RetreatUndoesAdvance | ColorizedAppSUI/ContentView.swift:120-144 | n up-presses undo n down-presses and vice versa, for every n and every state |
| Content.ContentView.constructor | ColorizedAppSUI/ContentView.swift:11-15 | the screen starts with nothing focused and three distinct rows holding the given in-range starting values, text "0" and no alert |
| Content.ContentView.NextField | ColorizedAppSUI/ContentView.swift:120-131 | the new focus is `Next` of the old one; the toolbar stays shown or hidden as before |
| Content.ContentView.PreviousField | ColorizedAppSUI/ContentView.swift:133-144 | the new focus is `Previous` of the old one; the toolbar stays shown or hidden as before |
| Content.ContentView.DonePressed | ColorizedAppSUI/ContentView.swift:46-48 | Done leaves nothing focused, so the toolbar is withdrawn |
| Content.ContentView.BackgroundTapped | ColorizedAppSUI/ContentView.swift:21-23 | a background tap leaves nothing focused, so the toolbar is withdrawn |
| Content.ContentView.FieldTapped | ColorizedAppSUI/ContentView.swift:28-37 | tapping a channel field focuses it, and the toolbar is offered exactly while some field is focused |
| Content.ContentView.Row | ColorizedAppSUI/ContentView.swift:28-33 | each field's focus binding attaches to its own channel's row, so distinct fields reach distinct rows |
| Content.ContentView.ToolbarShown | ColorizedAppSUI/ContentView.swift:37 | the keyboard toolbar is offered exactly when some field holds focus |
| Content.ContentView.TypeIntoFocused | ColorizedAppSUI/ContentView.swift:28-33 | an edit to the focused field that changes its text goes through that row's text rule; an edit that leaves the text as it was fires nothing and changes nothing; the other rows are untouched and every value stays in 0...255 |
| ColorSlider.Round | ColorizedAppSUI/ContentView.swift:88 | `lround`: the result is within one half of the input, halves rounded away from zero |
| ColorSlider.RoundInRange | ColorizedAppSUI/ContentView.swift:81-84 | rounding a slider value in 0...255 gives a whole number in 0...255 |
| ColorSlider.Digits | ColorizedAppSUI/ContentView.swift:88 | interpolating a non-negative Int gives a non-empty run of digits with no leading zero, and "0" exactly for zero |
| ColorSlider.IntText | ColorizedAppSUI/ContentView.swift:88 | interpolating an Int gives the digits of a non-negative number, and a minus sign followed by the digits of its magnitude for a negative one, never with a leading zero (except "0" itself); reading the digits back gives the number |
| ColorSlider.DigitsRoundTrip | ColorizedAppSUI/ContentView.swift:88 | reading back the digits written for n gives n |
| ColorSlider.SyncText | ColorizedAppSUI/ContentView.swift:87-89 | the slider observer keeps value and alert, and for a non-negative value leaves digits with no leading zero denoting the value's rounding, within one half of the value |
| ColorSlider.CommitText | ColorizedAppSUI/ContentView.swift:97-105 | after the text rule the value lies in 0...255, whatever the state before |
| ColorSlider.CommitTextOutcome | ColorizedAppSUI/ContentView.swift:98-104 | text that parses into 0...255 becomes the value, with the text and alert flag unchanged; anything else gives value 0, text "0" and the alert raised; the alert ends raised exactly when it already was or the text was rejected |
| ColorSlider.CommitTextSettles | ColorizedAppSUI/ContentView.swift:100-104 | for any parser that reads "0" through "255" exactly, running the text rule again on its own output, as the rewritten "0" makes it do, changes nothing |
| ColorSlider.SyncTextAccepted | ColorizedAppSUI/ContentView.swift:87-105 | for any parser that reads "0" through "255" exactly, the text the slider writes for an in-range value is accepted by the text rule, with no alert, and snaps the value to its rounding |
| ColorSlider.ChannelSlider.constructor | ColorizedAppSUI/ContentView.swift:73-75 | a row starts with its bound value, text "0" and no alert |
| ColorSlider.ChannelSlider.SlideTo | ColorizedAppSUI/ContentView.swift:84 | the slider writes a whole number from 0 to 255 to the value and changes nothing else |
| ColorSlider.ChannelSlider.ValueChanged | ColorizedAppSUI/ContentView.swift:87-89 | the slider observer's new state is `SyncText` of the old; the text is the decimal digits of `lround(value)` |
| ColorSlider.ChannelSlider.Appear | ColorizedAppSUI/ContentView.swift:108-110 | on appearance the text becomes the decimal digits of `lround(value)`; value and alert unchanged |
| ColorSlider.ChannelSlider.Type | ColorizedAppSUI/ContentView.swift:90 | an edit puts the typed text in the buffer and changes nothing else |
| ColorSlider.ChannelSlider.TextChanged | ColorizedAppSUI/ContentView.swift:97-105 | the text observer's new state is `CommitText` of the old: accept keeps the text and alert and stores the number, reject stores 0 and "0" and raises the alert; the value ends in 0...255 from any state |

## Left out

- Layout and rendering (stacks, padding, frames, tint, the preview) and the swatch's colour conversion `value/255`, which is floating point and only feeds rendering.
- The random starting values: the constructor takes them as parameters that must lie in 0...255.
- Swift's `Double(String)`: a parameter. Double arithmetic is exact `real` arithmetic here. Text that Swift reads as NaN or an infinity is None in the model; the range check rejects both identically.
- The order in which SwiftUI re-fires one observer after another: each handler is one discrete step. `CommitTextSettles` and `SyncTextAccepted` state what two consecutive steps give.
- The alert's presentation and its dismissal (SwiftUI clears the flag through the binding when the alert is dismissed), the toolbar widgets, and `@FocusState`/`@Binding` mechanics. A row's value is a field of its `ChannelSlider` rather than a binding into the screen's state.
