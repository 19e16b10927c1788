/** The stacked text blocks of the preview.  The info block and the contact
    block are both a fixed list of candidate lines, each drawn only when its
    gate holds, with a running baseline that moves by a fixed step after each
    line that is actually drawn.  The info block steps downwards (positive
    step), the contact block upwards (negative step). */
module TextStack {

  /** A candidate line: its text and whether it passes its gate. */
  datatype Entry = Entry(shown: bool, text: string)

  /** A drawn line: its text and its baseline. */
  datatype Line = Line(text: string, y: real)

  /** The gate of a flagged text field: the flag is on and the text is
      non-empty (a JavaScript string is truthy exactly when non-empty). */
  function Gate(flag: bool, text: string): Entry {
    Entry(flag && text != "", text)
  }

  /** A text that is kept exactly when it is shown. */
  function Optional(shown: bool, text: string): seq<string> {
    if shown then [text] else []
  }

  /** The texts that pass their gates, in candidate order. */
  function Shown(es: seq<Entry>): (ts: seq<string>)
    ensures |ts| <= |es|
  {
    if |es| == 0 then []
    else (if es[0].shown then [es[0].text] else []) + Shown(es[1..])
  }

  /** Two candidates keep what each one keeps, in order. */
  lemma ShownTwo(a: Entry, b: Entry)
    ensures Shown([a, b]) == Optional(a.shown, a.text) + Optional(b.shown, b.text)
  {
    assert [a, b][1..] == [b];
    assert [b][1..] == [];
  }

  /** Four candidates keep what each one keeps, in order. */
  lemma ShownFour(a: Entry, b: Entry, d: Entry, e: Entry)
    ensures Shown([a, b, d, e])
            == Optional(a.shown, a.text) + Optional(b.shown, b.text)
               + Optional(d.shown, d.text) + Optional(e.shown, e.text)
  {
    assert [a, b, d, e][1..] == [b, d, e];
    assert [b, d, e][1..] == [d, e];
    ShownTwo(d, e);
  }

  /** Draws the candidates from baseline `y`, advancing by `step` after each
      drawn line. */
  function Stack(es: seq<Entry>, y: real, step: real): (ls: seq<Line>)
    ensures |ls| == |Shown(es)|
  {
    if |es| == 0 then []
    else if es[0].shown then [Line(es[0].text, y)] + Stack(es[1..], y + step, step)
    else Stack(es[1..], y, step)
  }

  /** The k-th drawn line is the k-th candidate that passes its gate and sits
      exactly k steps from the starting baseline, so a skipped candidate
      leaves no gap. */
  lemma {:induction false} StackPlacement(es: seq<Entry>, y: real, step: real)
    ensures forall k | 0 <= k < |Shown(es)| ::
              Stack(es, y, step)[k] == Line(Shown(es)[k], y + k as real * step)
  {
    if |es| > 0 {
      if es[0].shown {
        StackPlacement(es[1..], y + step, step);
        PlaceFirst(es[0].text, Shown(es[1..]), Stack(es[1..], y + step, step), y, step);
      } else {
        StackPlacement(es[1..], y, step);
      }
    }
  }

  /** Putting one line at `y` in front of a block placed from `y + step`
      gives a block placed from `y`. */
  lemma PlaceFirst(text: string, tail: seq<string>, rest: seq<Line>, y: real, step: real)
    requires |rest| == |tail|
    requires forall k | 0 <= k < |tail| :: rest[k] == Line(tail[k], y + step + k as real * step)
    ensures forall k | 0 <= k < |tail| + 1 ::
              ([Line(text, y)] + rest)[k] == Line(([text] + tail)[k], y + k as real * step)
  {
    forall k | 0 <= k < |tail| + 1
      ensures ([Line(text, y)] + rest)[k] == Line(([text] + tail)[k], y + k as real * step)
    {
      if k > 0 {
        OneMoreStep(k - 1, step);
      }
    }
  }

  lemma OneMoreStep(k: int, step: real)
    ensures step + k as real * step == (k + 1) as real * step
  {
  }

  /** A stack is decided by the texts that pass their gates: candidates
      with the same shown texts stack into the same lines. */
  lemma SameShownSameStack(es: seq<Entry>, fs: seq<Entry>, y: real, step: real)
    requires Shown(es) == Shown(fs)
    ensures Stack(es, y, step) == Stack(fs, y, step)
  {
    StackPlacement(es, y, step);
    StackPlacement(fs, y, step);
  }
}
