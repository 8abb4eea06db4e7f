/** The motion inference of the packaged controller (`Desk._notify_callback_height` in
    `uplift/__init__.py`): any change from the previous height marks the desk moving and
    restarts the one-second dwell; the desk is marked idle again once five heights agree
    and the dwell has passed. */
module UpliftDebounce {
  import opened Wrappers
  import opened Motion

  /** The state after the notification of height `h` at time `now`. */
  function Step(m: State, h: Height, now: Time): (r: State)
    requires Coherent(m)
    ensures Coherent(r)
    ensures |m.window| <= Retained ==> r.window == Recent(m.window + [h])
  {
    var changed := |m.window| > 0 && m.window[|m.window| - 1] != h;
    var moving := m.moving || changed;
    var lastAction := if changed then Some(now) else m.lastAction;
    var window := m.window + [h];
    if |window| <= Retained then State(window, moving, lastAction)
    else if ShouldStop(window, moving, lastAction, h, now) then State(window[1..], false, Some(now))
    else State(window[1..], moving, lastAction)
  }

  /** A height different from the last one marks the desk moving and restarts the dwell,
      whether or not the desk was already moving. */
  lemma ChangeStartsMotion(m: State, h: Height, now: Time)
    requires Invariant(m) && |m.window| > 0 && m.window[|m.window| - 1] != h
    ensures Step(m, h, now).moving && Step(m, h, now).lastAction == Some(now)
  {
  }

  /** On an empty window or a repeated height nothing starts: the flag can only be
      cleared, the last action time changes only when it is, and an idle desk stays idle
      with only its window moved on. */
  lemma RepeatStartsNothing(m: State, h: Height, now: Time)
    requires Invariant(m)
    requires |m.window| == 0 || m.window[|m.window| - 1] == h
    ensures Step(m, h, now).moving ==> m.moving
    ensures Step(m, h, now).moving == m.moving ==> Step(m, h, now).lastAction == m.lastAction
    ensures !m.moving ==> Step(m, h, now) == State(Recent(m.window + [h]), false, m.lastAction)
  {
  }

  /** A moving desk is marked idle exactly when it has four retained heights equal to the
      new one and more than a second has passed since the last action; stopping is itself
      an action. */
  lemma StopRule(m: State, h: Height, now: Time)
    requires Invariant(m) && m.moving
    ensures !Step(m, h, now).moving <==>
      |m.window| == Retained && m.lastAction.value + 1.0 < now
      && forall i :: 0 <= i < Retained ==> m.window[i] == h
    ensures !Step(m, h, now).moving ==> Step(m, h, now).lastAction == Some(now)
  {
  }

  /** The handler applied to each sample in turn. */
  function Run(m: State, ss: seq<Sample>): (r: State)
    requires Coherent(m)
    ensures Coherent(r)
    decreases |ss|
  {
    if ss == [] then m else Run(Step(m, ss[0].height, ss[0].at), ss[1..])
  }

  /** Between notifications the window holds at most four heights: the most recent ones,
      in arrival order. */
  lemma {:induction false} RunWindow(m: State, ss: seq<Sample>)
    requires Invariant(m)
    ensures Invariant(Run(m, ss))
    ensures Run(m, ss).window == Recent(m.window + Heights(ss))
    decreases |ss|
  {
    if ss != [] {
      var next := Step(m, ss[0].height, ss[0].at);
      assert Run(m, ss) == Run(next, ss[1..]);
      RunWindow(next, ss[1..]);
      SlideThenRest(m.window, ss);
    }
  }

  /** A desk that starts idle, with every retained height equal to h, is never marked
      moving by a stream of notifications that all report h. */
  lemma {:induction false} SteadyStreamStaysIdle(m: State, h: Height, ss: seq<Sample>)
    requires Invariant(m) && !m.moving
    requires forall i :: 0 <= i < |m.window| ==> m.window[i] == h
    requires forall i :: 0 <= i < |ss| ==> ss[i].height == h
    ensures !Run(m, ss).moving && Run(m, ss).lastAction == m.lastAction
    decreases |ss|
  {
    if ss != [] {
      var next := Step(m, h, ss[0].at);
      RepeatStartsNothing(m, h, ss[0].at);
      assert forall i :: 0 <= i < |next.window| ==> next.window[i] == h;
      SteadyStreamStaysIdle(next, h, ss[1..]);
    }
  }

  /** A desk that settles at 32.5: heights 30, 30, 32.5, 32.5, 32.5, 32.5, 32.5 reported two
      seconds apart. The desk is marked moving at the third report, stays moving while
      the window still holds the old height, and is marked idle at the seventh. */
  lemma SettlingExample()
    ensures
      var s0 := Step(Initial, 30.0, 0.0);
      var s1 := Step(s0, 30.0, 2.0);
      var s2 := Step(s1, 32.5, 4.0);
      var s3 := Step(s2, 32.5, 6.0);
      var s4 := Step(s3, 32.5, 8.0);
      var s5 := Step(s4, 32.5, 10.0);
      var s6 := Step(s5, 32.5, 12.0);
      && !s1.moving
      && s2.moving && s2.lastAction == Some(4.0)
      && s5 == State([32.5, 32.5, 32.5, 32.5], true, Some(4.0))
      && s6 == State([32.5, 32.5, 32.5, 32.5], false, Some(12.0))
  {
  }
}
