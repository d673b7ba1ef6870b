/** What the presentation's navigation guarantees. */
module SlidesFacts {
  import opened Slides

  /** The slide shown exists. */
  predicate Inv(d: Deck, count: nat) {
    0 <= d.current < count
  }

  /** What the user does: use a thumbnail or an arrow button, start or stop presenting, click or press a key. */
  datatype Op = GoTo(index: int) | Start | Exit | Click(rightHalf: bool) | Press(key: SlideKey)

  /** Clicks and keys reach the deck only while it is presented, the editor's buttons only while it is not. */
  function Apply(d: Deck, count: nat, op: Op): Deck {
    match op
    case GoTo(index) => if d.presenting then d else GoToStep(d, count, index)
    case Start => if d.presenting then d else StartStep(d)
    case Exit => ExitStep(d)
    case Click(rightHalf) => if d.presenting then ClickStep(d, count, rightHalf) else d
    case Press(key) => if d.presenting then KeyStep(d, count, key) else d
  }

  function Run(d: Deck, count: nat, ops: seq<Op>): Deck
    decreases |ops|
  {
    if |ops| == 0 then d else Run(Apply(d, count, ops[0]), count, ops[1..])
  }

  /** Every step keeps the slide shown inside the deck, whatever index it is given. */
  lemma ApplyKeeps(d: Deck, count: nat, op: Op)
    requires Inv(d, count)
    ensures Inv(Apply(d, count, op), count)
  {
  }

  lemma {:induction false} RunKeeps(d: Deck, count: nat, ops: seq<Op>)
    requires Inv(d, count)
    ensures Inv(Run(d, count, ops), count)
    decreases |ops|
  {
    if |ops| > 0 {
      ApplyKeeps(d, count, ops[0]);
      RunKeeps(Apply(d, count, ops[0]), count, ops[1..]);
    }
  }

  /** From the shipped deck's first slide, no sequence of actions shows a slide that does not exist. */
  lemma Reachable(ops: seq<Op>)
    ensures Inv(Run(InitialDeck, ShippedCount, ops), ShippedCount)
  {
    RunKeeps(InitialDeck, ShippedCount, ops);
  }

  /** Starting and then ending a presentation comes back to the same slide. */
  lemma StartExit(d: Deck)
    requires !d.presenting
    ensures ExitStep(StartStep(d)) == d
  {
  }

  /** The right arrow followed by the left arrow comes back to the same slide, except on the last one. */
  lemma RightThenLeft(d: Deck, count: nat)
    requires Inv(d, count) && d.current < count - 1
    ensures KeyStep(KeyStep(d, count, ArrowRight), count, ArrowLeft) == d
  {
  }

  /** On the last slide a right click ends the presentation where the right arrow does nothing. */
  lemma LastSlide(d: Deck, count: nat)
    requires Inv(d, count) && d.current == count - 1 && d.presenting
    ensures ClickStep(d, count, true) == Deck(d.current, false)
    ensures KeyStep(d, count, ArrowRight) == d && KeyStep(d, count, Space) == d
  {
  }

  /** `k` right clicks from slide `c` show slide `c + k`, while that slide exists. */
  lemma {:induction false} RightClicks(d: Deck, count: nat, k: nat)
    requires Inv(d, count) && d.presenting && d.current + k < count
    ensures Run(d, count, seq(k, _ => Click(true))) == d.(current := d.current + k)
    decreases k
  {
    if k > 0 {
      var ops := seq(k, _ => Click(true));
      assert ops[0] == Click(true);
      assert ops[1..] == seq(k - 1, _ => Click(true));
      RightClicks(d.(current := d.current + 1), count, k - 1);
    }
  }

  /** Presenting the shipped deck and clicking on the right four times shows every slide and ends the presentation. */
  lemma ClickThrough()
    ensures Run(StartStep(InitialDeck), ShippedCount, seq(3, _ => Click(true))) == Deck(3, true)
    ensures Run(Deck(3, true), ShippedCount, [Click(true)]) == Deck(3, false)
  {
    RightClicks(StartStep(InitialDeck), ShippedCount, 3);
  }
}
