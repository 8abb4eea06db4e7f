/** The motion inference of the earlier controller (`Desk._height_notify_callback` in
    `desk.py`): an idle desk is marked moving by the first height it hears or by a change,
    a moving desk is never re-marked, so the one-second dwell counts from the start of the
    movement; the stop rule is the packaged controller's. */
module LegacyDebounce {
  import opened Wrappers
  import opened Motion
  import UpliftDebounce

  /** The state after the notification of height `h` at time `now`. */
  function Step(m: State, h: Height, now: Time): (r: State)
    requires Coherent(m)
    ensures Coherent(r)
    ensures |m.window| <= Retained ==> r.window == Recent(m.window + [h])
  {
    var started := !m.moving && (|m.window| == 0 || m.window[|m.window| - 1] != h);
    var moving := m.moving || started;
    var lastAction := if started then Some(now) else m.lastAction;
    var window := m.window + [h];
    if |window| <= Retained then State(window, moving, lastAction)
    else if ShouldStop(window, moving, lastAction, h, now) then State(window[1..], false, Some(now))
    else State(window[1..], moving, lastAction)
  }

  /** The very first height, heard on an empty window, marks an idle desk moving. */
  lemma FirstHeightStartsMotion(lastAction: Option<Time>, h: Height, now: Time)
    ensures Step(State([], false, lastAction), h, now) == State([h], true, Some(now))
  {
  }

  /** An idle desk is marked moving by a height different from the last one. */
  lemma ChangeStartsMotion(m: State, h: Height, now: Time)
    requires Invariant(m) && !m.moving && |m.window| > 0 && m.window[|m.window| - 1] != h
    ensures Step(m, h, now).moving && Step(m, h, now).lastAction == Some(now)
  {
  }

  /** An idle desk that hears the height it last stored stays idle, and its last action
      time is left alone. */
  lemma RepeatKeepsIdle(m: State, h: Height, now: Time)
    requires Invariant(m) && !m.moving && |m.window| > 0 && m.window[|m.window| - 1] == h
    ensures !Step(m, h, now).moving && Step(m, h, now).lastAction == m.lastAction
  {
  }

  /** While the desk stays moving its last action time is left alone: the dwell is measured
      from the start of the movement, not from the latest change. */
  lemma DwellFromMotionStart(m: State, h: Height, now: Time)
    requires Coherent(m) && m.moving && Step(m, h, now).moving
    ensures Step(m, h, now).lastAction == m.lastAction
  {
  }

  /** The stop rule, as in the packaged controller. */
  lemma StopRule(m: State, h: Height, now: Time)
    requires Invariant(m) && m.moving
    ensures !Step(m, h, now).moving <==>
      |m.window| == Retained && m.lastAction.value + 1.0 < now
      && forall i :: 0 <= i < Retained ==> m.window[i] == h
    ensures !Step(m, h, now).moving ==> Step(m, h, now).lastAction == Some(now)
  {
  }

  /** Both controllers move the window on in the same way. */
  lemma SameWindow(m: State, h: Height, now: Time)
    requires Coherent(m)
    ensures Step(m, h, now).window == UpliftDebounce.Step(m, h, now).window
  {
  }

  /** The two dwell rules differ. Heights 1, 2, 2, 2, 2, 2 at times 0, 2, 2.1, 2.2, 2.3, 2.4:
      this controller starts at the first height and stops at the last, 2.4 seconds after
      the start; the packaged one starts at the change to 2 and is still moving at 2.4,
      since the change restarted its dwell. */
  lemma DwellRulesDiffer()
    ensures
      var l0 := Step(Initial, 1.0, 0.0);
      var l1 := Step(l0, 2.0, 2.0);
      var l2 := Step(l1, 2.0, 2.1);
      var l3 := Step(l2, 2.0, 2.2);
      var l4 := Step(l3, 2.0, 2.3);
      var l5 := Step(l4, 2.0, 2.4);
      var u0 := UpliftDebounce.Step(Initial, 1.0, 0.0);
      var u1 := UpliftDebounce.Step(u0, 2.0, 2.0);
      var u2 := UpliftDebounce.Step(u1, 2.0, 2.1);
      var u3 := UpliftDebounce.Step(u2, 2.0, 2.2);
      var u4 := UpliftDebounce.Step(u3, 2.0, 2.3);
      var u5 := UpliftDebounce.Step(u4, 2.0, 2.4);
      && l0.moving && !u0.moving
      && l4.moving && u4.moving
      && !l5.moving && u5.moving
  {
  }

  /** The handler applied to each sample in turn. */
  function Run(m: State, ss: seq<Sample>): (r: State)
    requires Coherent(m)
    ensures Coherent(r)
    decreases |ss|
  {
    if ss == [] then m else Run(Step(m, ss[0].height, ss[0].at), ss[1..])
  }

  /** Between notifications the window holds at most four heights: the most recent ones,
      in arrival order. */
  lemma {:induction false} RunWindow(m: State, ss: seq<Sample>)
    requires Invariant(m)
    ensures Invariant(Run(m, ss))
    ensures Run(m, ss).window == Recent(m.window + Heights(ss))
    decreases |ss|
  {
    if ss != [] {
      var next := Step(m, ss[0].height, ss[0].at);
      assert Run(m, ss) == Run(next, ss[1..]);
      RunWindow(next, ss[1..]);
      SlideThenRest(m.window, ss);
    }
  }
}
