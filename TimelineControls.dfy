/** The pan buttons of the timeline controls
    (src/components/TimelineControls.tsx): each builds the next visible
    range from the current one. */
module TimelineControls {
  import opened TimelineTypes

  function Max(a: int, b: int): int {
    if a >= b then a else b
  }

  /** The left chevron: four hours earlier, never before hour 0 and never
      ending before hour 4. */
  function PanLeft(r: TimeRange): (l: TimeRange)
    ensures r.start <= 4 ==> l.start == 0
    ensures r.start >= 4 ==> l.start == r.start - 4
    ensures r.end <= 8 ==> l.end == 4
    ensures r.end >= 8 ==> l.end == r.end - 4
    ensures l.start >= 0 && l.end >= 4
    ensures r.start >= 0 && r.end >= 4 ==> l.start <= r.start && l.end <= r.end
    ensures r.start >= 4 && r.end >= 8 ==> l == TimeRange(r.start - 4, r.end - 4)
    ensures r.start >= 4 && r.end >= 8 ==> l.end - l.start == r.end - r.start
    ensures r.start < r.end ==> l.start < l.end
  {
    TimeRange(Max(0, r.start - 4), Max(4, r.end - 4))
  }

  /** The right chevron: four hours later, with no upper bound. */
  function PanRight(r: TimeRange): (l: TimeRange)
    ensures l.end - l.start == r.end - r.start
    ensures l.start == r.start + 4
    ensures r.start < r.end ==> l.start < l.end
  {
    TimeRange(r.start + 4, r.end + 4)
  }

  /** Panning left from a range that starts beyond hour 0 but would cross
      it narrows the window; for example the initial window. */
  lemma PanLeftNarrows(r: TimeRange)
    requires 0 <= r.start < 4 && r.end >= 8
    ensures PanLeft(r).end - PanLeft(r).start < r.end - r.start
    ensures PanLeft(TimeRange(0, 24)) == TimeRange(0, 20)
  {
  }

  /** Panning right and then left returns to where one started, for every
      range the widget can reach. */
  lemma PanRightThenLeft(r: TimeRange)
    requires r.start >= 0 && r.end >= 4
    ensures PanLeft(PanRight(r)) == r
  {
  }

  /** The narrowest window at the left edge does not move. */
  lemma PanLeftFixedPoint()
    ensures PanLeft(TimeRange(0, 4)) == TimeRange(0, 4)
  {
  }

  /** The range after a sequence of button presses (`true` for right). */
  function Navigate(r: TimeRange, presses: seq<bool>): TimeRange
    decreases |presses|
  {
    if presses == [] then r
    else Navigate(if presses[0] then PanRight(r) else PanLeft(r), presses[1..])
  }

  /** Whatever the user presses, a non-empty window stays non-empty, so the
      time-axis mapper's precondition survives navigation; the window also
      never starts before hour 0 once it did not. */
  lemma {:induction false} NavigateKeepsRangeValid(r: TimeRange, presses: seq<bool>)
    requires 0 <= r.start < r.end
    ensures 0 <= Navigate(r, presses).start < Navigate(r, presses).end
    decreases |presses|
  {
    if presses != [] {
      NavigateKeepsRangeValid(if presses[0] then PanRight(r) else PanLeft(r), presses[1..]);
    }
  }
}
