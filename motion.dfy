/** What the two controllers' height handlers share: the state they keep between
    notifications and the rule by which they decide that the desk has stopped. */
module Motion {
  import opened Wrappers

  /** A height as `height_conv_to_in` returns it; the handlers only compare heights for equality. */
  type Height = real

  /** A `time.time()` reading, in seconds. */
  type Time = real

  /** Heights kept in `_last_heights` between two notifications. */
  const Retained: nat := 4

  /** `_last_heights`, `_moving` and `_last_action_time`; the last is absent until first set,
      since neither constructor assigns it. */
  datatype State = State(window: seq<Height>, moving: bool, lastAction: Option<Time>)

  /** The state of a freshly constructed desk. */
  const Initial: State := State([], false, None)

  /** The stop test reads `_last_action_time` only when the desk is moving. */
  predicate Coherent(m: State) {
    m.moving ==> m.lastAction.Some?
  }

  /** What holds between notifications. */
  predicate Invariant(m: State) {
    |m.window| <= Retained && Coherent(m)
  }

  /** The `Retained` most recent heights of `s`, oldest first. */
  function Recent(s: seq<Height>): (r: seq<Height>)
    ensures |r| == if |s| <= Retained then |s| else Retained
  {
    if |s| <= Retained then s else s[|s| - Retained..]
  }

  /** The stop test, applied to the window just after the new height `h` was appended:
      the desk is marked moving, more than one second has passed since the last action,
      and the four oldest heights all equal `h`. */
  predicate ShouldStop(window: seq<Height>, moving: bool, lastAction: Option<Time>, h: Height, now: Time)
    requires |window| > Retained && (moving ==> lastAction.Some?)
  {
    moving && lastAction.value + 1.0 < now
    && window[0] == h && window[1] == h && window[2] == h && window[3] == h
  }

  /** One height notification as the handler receives it, with the clock at that moment. */
  datatype Sample = Sample(height: Height, at: Time)

  /** The heights the samples report, in arrival order. */
  function Heights(ss: seq<Sample>): (hs: seq<Height>)
    ensures |hs| == |ss|
  {
    if ss == [] then [] else [ss[0].height] + Heights(ss[1..])
  }

  /** Trimming the history first does not change its most recent heights. */
  lemma RecentOfRecent(a: seq<Height>, b: seq<Height>)
    ensures Recent(Recent(a) + b) == Recent(a + b)
  {
  }

  /** Sliding the window over the first sample and then over the rest is sliding it over
      all of them. */
  lemma SlideThenRest(w: seq<Height>, ss: seq<Sample>)
    requires ss != []
    ensures Recent(Recent(w + [ss[0].height]) + Heights(ss[1..])) == Recent(w + Heights(ss))
  {
    var x, rest := ss[0].height, Heights(ss[1..]);
    assert Heights(ss) == [x] + rest;
    assert (w + [x]) + rest == w + ([x] + rest);
    RecentOfRecent(w + [x], rest);
  }
}
