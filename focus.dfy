/**
 * The keyboard-focus cursor of the colour screen: which of the three text
 * fields holds focus (None when the keyboard is dismissed) and how the
 * toolbar's up/down chevrons move it (ContentView.swift, the `Field` enum and
 * `nextField`/`previousField`).
 */
module Focus {
  import opened Wrappers

  /** The three channel text fields, declared in screen order. */
  datatype Field = Red | Green | Blue

  /** A field's place from top to bottom on the screen. */
  function Position(f: Field): (p: nat)
    ensures p < 3
  {
    match f
    case Red => 0
    case Green => 1
    case Blue => 2
  }

  lemma PositionInjective(f: Field, g: Field)
    ensures Position(f) == Position(g) ==> f == g
  {
  }

  /** The down chevron: focus moves one field down, wrapping from the last to the first. */
  function Next(focus: Option<Field>): (r: Option<Field>)
    ensures r.Some? <==> focus.Some?
    ensures focus.Some? ==> Position(r.value) == (Position(focus.value) + 1) % 3
  {
    match focus
    case Some(Red) => Some(Green)
    case Some(Green) => Some(Blue)
    case Some(Blue) => Some(Red)
    case None => None
  }

  /** The up chevron: focus moves one field up, wrapping from the first to the last. */
  function Previous(focus: Option<Field>): (r: Option<Field>)
    ensures r.Some? <==> focus.Some?
    ensures focus.Some? ==> Position(r.value) == (Position(focus.value) + 2) % 3
  {
    match focus
    case Some(Red) => Some(Blue)
    case Some(Blue) => Some(Green)
    case Some(Green) => Some(Red)
    case None => None
  }

  /** Each chevron undoes the other, in every state including "nothing focused". */
  lemma NextPreviousInverse(focus: Option<Field>)
    ensures Previous(Next(focus)) == focus
    ensures Next(Previous(focus)) == focus
  {
  }

  /** Three presses of the same chevron bring focus back to where it started. */
  lemma ThreePressesReturn(focus: Option<Field>)
    ensures Next(Next(Next(focus))) == focus
    ensures Previous(Previous(Previous(focus))) == focus
  {
  }

  /** Focus after n presses of the down chevron. */
  function Advance(focus: Option<Field>, n: nat): (r: Option<Field>)
    decreases n
  {
    if n == 0 then focus else Advance(Next(focus), n - 1)
  }

  /** Focus after n presses of the up chevron. */
  function Retreat(focus: Option<Field>, n: nat): (r: Option<Field>)
    decreases n
  {
    if n == 0 then focus else Retreat(Previous(focus), n - 1)
  }

  /** n down-presses move focus n places down the screen, modulo the three fields. */
  lemma {:induction false} AdvancePosition(focus: Option<Field>, n: nat)
    ensures Advance(focus, n).Some? <==> focus.Some?
    ensures focus.Some? ==> Position(Advance(focus, n).value) == (Position(focus.value) + n) % 3
    decreases n
  {
    if n > 0 {
      AdvancePosition(Next(focus), n - 1);
    }
  }

  /** n up-presses move focus n places up the screen, modulo the three fields. */
  lemma {:induction false} RetreatPosition(focus: Option<Field>, n: nat)
    ensures Retreat(focus, n).Some? <==> focus.Some?
    ensures focus.Some? ==> Position(Retreat(focus, n).value) == (Position(focus.value) + 2 * n) % 3
    decreases n
  {
    if n > 0 {
      RetreatPosition(Previous(focus), n - 1);
    }
  }

  /** The down chevron has period three: only n mod 3 matters. */
  lemma AdvancePeriodic(focus: Option<Field>, n: nat)
    ensures Advance(focus, n) == Advance(focus, n % 3)
  {
    AdvancePosition(focus, n);
    AdvancePosition(focus, n % 3);
    if focus.Some? {
      PositionInjective(Advance(focus, n).value, Advance(focus, n % 3).value);
    }
  }

  /** n up-presses undo n down-presses, and the other way round. */
  lemma RetreatUndoesAdvance(focus: Option<Field>, n: nat)
    ensures Retreat(Advance(focus, n), n) == focus
    ensures Advance(Retreat(focus, n), n) == focus
  {
    AdvancePosition(focus, n);
    RetreatPosition(Advance(focus, n), n);
    RetreatPosition(focus, n);
    AdvancePosition(Retreat(focus, n), n);
    if focus.Some? {
      PositionInjective(Retreat(Advance(focus, n), n).value, focus.value);
      PositionInjective(Advance(Retreat(focus, n), n).value, focus.value);
    }
  }
}
