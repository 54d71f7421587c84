/** What the trigger controller promises, stated over its step function
    `Trigger.Step` and over runs of messages handled in arrival order. */
module TriggerProperties {
  import opened Options
  import opened Display
  import opened Cairo
  import opened Trigger

  // ----- the source resolver -----

  /** Two defined pairs that resolve to the same source are the same pair. */
  lemma GetSourceInjective(c1: Option<Channel>, e1: Option<Edge>, c2: Option<Channel>, e2: Option<Edge>)
    requires GetSource(c1, e1).Some? && GetSource(c1, e1) == GetSource(c2, e2)
    ensures c1 == c2 && e1 == e2
  {
  }

  /** Every one of the six sources is reached, from its own channel and edge. */
  lemma GetSourceCovers(s: Source)
    ensures GetSource(Some(ChannelOf(s)), Some(EdgeOf(s))) == Some(s)
  {
  }

  // ----- one message at a time -----

  /** A tick fires `Auto` in auto mode, `Normal` in normal mode and nothing
      in single mode, and changes neither the selection nor anything else. */
  lemma TickEffect(s: State)
    ensures Step(s, InternalTick).channel == s.channel
    ensures Step(s, InternalTick).edge == s.edge
    ensures Step(s, InternalTick).mode == s.mode
    ensures Emitted(Step(s, InternalTick).effects) == Emitted(s.effects) +
              (match s.mode
               case Auto => [Signal.Auto]
               case Normal => [Signal.Normal]
               case Single => [])
    ensures Enabled(Step(s, InternalTick).effects) == Enabled(s.effects)
    ensures Visibility(Step(s, InternalTick).effects) == Visibility(s.effects)
  {
    var fired := Fire(s.mode);
    CollectAppend(s.effects, fired, PickEmit);
    CollectAppend(s.effects, fired, PickEnable);
    CollectAppend(s.effects, fired, PickVisible);
    if fired != [] {
      assert fired[..0] == [];
    }
  }

  /** Choosing a mode sets it, shows the single-shot button exactly when
      the mode is `Single`, and neither emits nor arms anything. */
  lemma ModeEffect(s: State, m: Mode)
    ensures Step(s, Signal.Mode(m)).mode == m
    ensures Step(s, Signal.Mode(m)).channel == s.channel
    ensures Step(s, Signal.Mode(m)).edge == s.edge
    ensures Visibility(Step(s, Signal.Mode(m)).effects) == Visibility(s.effects) + [m == Mode.Single]
    ensures Emitted(Step(s, Signal.Mode(m)).effects) == Emitted(s.effects)
    ensures Enabled(Step(s, Signal.Mode(m)).effects) == Enabled(s.effects)
  {
    var added := [SetVisible(m == Mode.Single)];
    assert added[..0] == [];
    CollectAppend(s.effects, added, PickEmit);
    CollectAppend(s.effects, added, PickEnable);
    CollectAppend(s.effects, added, PickVisible);
  }

  /** Emitting a source and then arming the instrument with it: the effect
      pair an axis change produces once the selection resolves. */
  lemma ArmPairEffect(s: State, src: Source)
    ensures Emitted(s.effects + [Emit(Signal.Source(src)), Enable(src)]) == Emitted(s.effects) + [Signal.Source(src)]
    ensures Enabled(s.effects + [Emit(Signal.Source(src)), Enable(src)]) == Enabled(s.effects) + [src]
    ensures Visibility(s.effects + [Emit(Signal.Source(src)), Enable(src)]) == Visibility(s.effects)
  {
    var added := [Emit(Signal.Source(src)), Enable(src)];
    assert added[..1][..0] == [];
    assert added[..1] == [Emit(Signal.Source(src))];
    CollectAppend(s.effects, added, PickEmit);
    CollectAppend(s.effects, added, PickEnable);
    CollectAppend(s.effects, added, PickVisible);
  }

  /** Picking a channel sets it and keeps edge and mode. If an edge is
      already picked, the controller emits the resolved source and then
      arms the instrument with it; otherwise it does nothing else. */
  lemma ChannelEffect(s: State, c: Channel)
    ensures Step(s, Signal.Channel(c)).channel == Some(c)
    ensures Step(s, Signal.Channel(c)).edge == s.edge
    ensures Step(s, Signal.Channel(c)).mode == s.mode
    ensures s.edge.None? ==> Step(s, Signal.Channel(c)).effects == s.effects
    ensures s.edge.Some? ==>
              var src := GetSource(Some(c), s.edge).value;
              && ChannelOf(src) == c && EdgeOf(src) == s.edge.value
              && Step(s, Signal.Channel(c)).effects == s.effects + [Emit(Signal.Source(src)), Enable(src)]
              && Emitted(Step(s, Signal.Channel(c)).effects) == Emitted(s.effects) + [Signal.Source(src)]
              && Enabled(Step(s, Signal.Channel(c)).effects) == Enabled(s.effects) + [src]
              && Visibility(Step(s, Signal.Channel(c)).effects) == Visibility(s.effects)
  {
    if s.edge.Some? {
      ArmPairEffect(s, GetSource(Some(c), s.edge).value);
    }
  }

  /** Picking an edge is symmetric to picking a channel. */
  lemma EdgeEffect(s: State, x: Edge)
    ensures Step(s, Signal.Edge(x)).edge == Some(x)
    ensures Step(s, Signal.Edge(x)).channel == s.channel
    ensures Step(s, Signal.Edge(x)).mode == s.mode
    ensures s.channel.None? ==> Step(s, Signal.Edge(x)).effects == s.effects
    ensures s.channel.Some? ==>
              var src := GetSource(s.channel, Some(x)).value;
              && ChannelOf(src) == s.channel.value && EdgeOf(src) == x
              && Step(s, Signal.Edge(x)).effects == s.effects + [Emit(Signal.Source(src)), Enable(src)]
              && Emitted(Step(s, Signal.Edge(x)).effects) == Emitted(s.effects) + [Signal.Source(src)]
              && Enabled(Step(s, Signal.Edge(x)).effects) == Enabled(s.effects) + [src]
              && Visibility(Step(s, Signal.Edge(x)).effects) == Visibility(s.effects)
  {
    if s.channel.Some? {
      ArmPairEffect(s, GetSource(s.channel, Some(x)).value);
    }
  }

  /** The signals the controller only emits (`Auto`, `Normal`, `Source`),
      the single-shot click and `Redraw` leave the state as it is. */
  predicate Inert(e: Signal) {
    e.Auto? || e.Normal? || e.Single? || e.Source? || e.Redraw?
  }

  lemma InertSignals(s: State, e: Signal)
    requires Inert(e)
    ensures Step(s, e) == s
  {
  }

  /** Picking the same channel again changes neither the selection nor the
      resolved source; at most it arms the instrument once more with the
      same source. */
  lemma ReselectChannel(s: State, c: Channel)
    ensures Step(Step(s, Signal.Channel(c)), Signal.Channel(c)).channel == Step(s, Signal.Channel(c)).channel
    ensures Step(Step(s, Signal.Channel(c)), Signal.Channel(c)).edge == Step(s, Signal.Channel(c)).edge
    ensures Step(Step(s, Signal.Channel(c)), Signal.Channel(c)).mode == Step(s, Signal.Channel(c)).mode
    ensures var once := Step(s, Signal.Channel(c));
            Enabled(Step(once, Signal.Channel(c)).effects) ==
              Enabled(once.effects) + (if s.edge.Some? then [GetSource(Some(c), s.edge).value] else [])
    ensures var once := Step(s, Signal.Channel(c));
            Step(once, Signal.Channel(c)).effects ==
              once.effects + (if s.edge.Some?
                              then [Emit(Signal.Source(GetSource(Some(c), s.edge).value)),
                                    Enable(GetSource(Some(c), s.edge).value)]
                              else [])
  {
    var once := Step(s, Signal.Channel(c));
    ChannelEffect(s, c);
    ChannelEffect(once, c);
  }

  // ----- runs of messages -----

  /** The effect trace only grows, and a picked axis is never unset again. */
  lemma {:induction false} RunKeepsHistory(s: State, events: seq<Signal>)
    ensures s.effects <= Run(s, events).effects
    ensures s.channel.Some? ==> Run(s, events).channel.Some?
    ensures s.edge.Some? ==> Run(s, events).edge.Some?
    decreases |events|
  {
    if events != [] {
      var next := Step(s, events[0]);
      assert s.effects <= next.effects;
      RunKeepsHistory(next, events[1..]);
    }
  }

  /** The instrument is armed exactly when the selection resolves, and
      always with the source it currently resolves to. */
  predicate Armed(s: State) {
    && (Enabled(s.effects) == [] <==> GetSource(s.channel, s.edge).None?)
    && (Enabled(s.effects) != [] ==>
          Enabled(s.effects)[|Enabled(s.effects)| - 1] == GetSource(s.channel, s.edge).value)
  }

  lemma StepKeepsArmed(s: State, e: Signal)
    requires Armed(s)
    ensures Armed(Step(s, e))
  {
    match e
    case InternalTick => TickEffect(s);
    case Mode(m) => ModeEffect(s, m);
    case Channel(c) => ChannelEffect(s, c);
    case Edge(x) => EdgeEffect(s, x);
    case _ =>
  }

  lemma {:induction false} RunKeepsArmed(s: State, events: seq<Signal>)
    requires Armed(s)
    ensures Armed(Run(s, events))
    decreases |events|
  {
    if events != [] {
      StepKeepsArmed(s, events[0]);
      RunKeepsArmed(Step(s, events[0]), events[1..]);
    }
  }

  /** From creation on, whatever the operator does, the last source the
      instrument was armed with is the one the selection resolves to, and
      it has been armed at all exactly when both axes are picked. */
  lemma ArmedAfterAnyRun(events: seq<Signal>)
    ensures Armed(Run(Initial, events))
    ensures Enabled(Run(Initial, events).effects) != [] <==>
              Run(Initial, events).channel.Some? && Run(Initial, events).edge.Some?
  {
    assert Enabled(Initial.effects) == [];
    RunKeepsArmed(Initial, events);
  }

  /** The signals the controller puts on its own stream. */
  predicate SelfEmitted(e: Signal) {
    e.Auto? || e.Normal? || e.Source?
  }

  /** The controller only ever emits `Auto`, `Normal` and `Source`, so
      (by `InertSignals`) everything it emits comes back to it as a no-op. */
  lemma {:induction false} RunEmitsInert(s: State, events: seq<Signal>)
    requires forall x :: x in Emitted(s.effects) ==> SelfEmitted(x)
    ensures forall x :: x in Emitted(Run(s, events).effects) ==> SelfEmitted(x) && Inert(x)
    decreases |events|
  {
    if events != [] {
      var e := events[0];
      match e {
        case InternalTick => TickEffect(s);
        case Mode(m) => ModeEffect(s, m);
        case Channel(c) => ChannelEffect(s, c);
        case Edge(x) => EdgeEffect(s, x);
        case _ =>
      }
      RunEmitsInert(Step(s, e), events[1..]);
    }
  }

  /** `n` timer ticks. */
  function Ticks(n: nat): seq<Signal> {
    seq(n, _ => InternalTick)
  }

  /** What `n` ticks fire in a mode. */
  function Fired(m: Mode, n: nat): seq<Signal> {
    match m
    case Auto => seq(n, _ => Signal.Auto)
    case Normal => seq(n, _ => Signal.Normal)
    case Single => []
  }

  lemma FiredOneMore(m: Mode, n: nat)
    requires n > 0
    ensures Fired(m, n) ==
              (match m
               case Auto => [Signal.Auto]
               case Normal => [Signal.Normal]
               case Single => []) + Fired(m, n - 1)
  {
  }

  /** Over `n` ticks the controller emits exactly `n` copies of its mode's
      fire signal (none in single mode) and changes nothing else. */
  lemma {:induction false} TicksFire(s: State, n: nat)
    ensures Run(s, Ticks(n)).channel == s.channel
    ensures Run(s, Ticks(n)).edge == s.edge
    ensures Run(s, Ticks(n)).mode == s.mode
    ensures Emitted(Run(s, Ticks(n)).effects) == Emitted(s.effects) + Fired(s.mode, n)
    ensures Enabled(Run(s, Ticks(n)).effects) == Enabled(s.effects)
    ensures Visibility(Run(s, Ticks(n)).effects) == Visibility(s.effects)
    decreases n
  {
    if n == 0 {
      assert Ticks(0) == [];
    } else {
      var next := Step(s, InternalTick);
      TickEffect(s);
      assert Ticks(n)[0] == InternalTick;
      assert Ticks(n)[1..] == Ticks(n - 1);
      assert Run(s, Ticks(n)) == Run(next, Ticks(n - 1));
      TicksFire(next, n - 1);
      FiredOneMore(s.mode, n);
    }
  }

  /** Picking CH1 alone resolves nothing; picking the positive edge next
      emits and arms `CH1_PE`, once. */
  lemma ChannelThenEdge()
    ensures Run(Initial, [Signal.Channel(CH1)]).effects == []
    ensures Run(Initial, [Signal.Channel(CH1), Signal.Edge(Positive)]).effects ==
              [Emit(Signal.Source(CH1_PE)), Enable(CH1_PE)]
  {
    assert [Signal.Channel(CH1), Signal.Edge(Positive)][1..] == [Signal.Edge(Positive)];
  }

  // ----- the overlay -----

  /** The four commands that stroke one marker line. */
  function MarkerOps(width: real, from: Point, to: Point): seq<Op> {
    [SetLineWidth(width), MoveTo(from), LineTo(to), Stroke]
  }

  /** Stroking a marker also strokes whatever path was pending, first,
      with the marker's width: `move_to` does not start a new path. */
  lemma MarkerPaints(width: real, from: Point, to: Point, pen: Pen)
    ensures Render(MarkerOps(width, from, to), pen) ==
              Painted(pen.(width := width)) + [Line(Segment(from, to), width, pen.color)]
    ensures Final(MarkerOps(width, from, to), pen) == pen.(width := width, current := None, path := [])
  {
    var ops := MarkerOps(width, from, to);
    var p1 := Apply(pen, ops[0]);
    var p2 := Apply(p1, ops[1]);
    var p3 := Apply(p2, ops[2]);
    var p4 := Apply(p3, ops[3]);
    assert p3.path == pen.path + [Segment(from, to)] && p3.width == width && p3.color == pen.color;
    assert p4 == pen.(width := width, current := None, path := []);
    assert ops[4..] == [];
    assert Render(ops[3..], p3) == Painted(p3) + Render(ops[4..], p4);
    assert Painted(p3) == Painted(pen.(width := width)) + [Line(Segment(from, to), width, pen.color)];
    assert Render(ops[2..], p2) == Render(ops[3..], p3);
    assert Render(ops[1..], p1) == Render(ops[2..], p2);
    assert Final(ops[3..], p3) == Final(ops[4..], p4);
    assert Final(ops[2..], p2) == Final(ops[3..], p3);
    assert Final(ops[1..], p1) == Final(ops[2..], p2);
  }

  lemma {:induction false} FinalAppend(a: seq<Op>, b: seq<Op>, pen: Pen)
    ensures Final(a + b, pen) == Final(b, Final(a, pen))
    decreases |a|
  {
    if a == [] {
      assert a + b == b;
    } else {
      assert (a + b)[0] == a[0];
      assert (a + b)[1..] == a[1..] + b;
      FinalAppend(a[1..], b, Apply(pen, a[0]));
    }
  }

  /** What `draw` paints: nothing in auto mode; otherwise, in the trigger
      color, first any path left pending on the context (`draw` never
      starts a new path) at the delay marker's width, then the vertical
      delay marker across the vertical scale, then the horizontal
      trigger-level marker across the horizontal scale, each with its own
      line width. Outside auto mode the path is left empty. */
  lemma OverlayPaints(mode: Mode, g: Geometry, pen: Pen)
    requires mode != Mode.Auto ==> HasTriggerOffsets(g)
    ensures mode == Mode.Auto ==> Render(Overlay(mode, g), pen) == []
    ensures mode != Mode.Auto ==>
              Render(Overlay(mode, g), pen) ==
                Painted(pen.(width := g.width / 1000.0, color := Some(TriggerColor))) +
                [ Line(Segment(Point(g.offsets[DELAY], g.v.0), Point(g.offsets[DELAY], g.v.1)),
                       g.width / 1000.0, Some(TriggerColor)),
                  Line(Segment(Point(g.h.0, g.offsets[TRIG]), Point(g.h.1, g.offsets[TRIG])),
                       g.height / 1000.0, Some(TriggerColor)) ]
    ensures Final(Overlay(mode, g), pen).path == (if mode == Mode.Auto then pen.path else [])
  {
    var ops := Overlay(mode, g);
    if mode != Mode.Auto {
      var delay, trigger := g.offsets[DELAY], g.offsets[TRIG];
      var vertical := MarkerOps(g.width / 1000.0, Point(delay, g.v.0), Point(delay, g.v.1));
      var horizontal := MarkerOps(g.height / 1000.0, Point(g.h.0, trigger), Point(g.h.1, trigger));
      assert ops == [SetColor(TriggerColor)] + (vertical + horizontal);
      var colored := Apply(pen, SetColor(TriggerColor));
      RenderAppend([SetColor(TriggerColor)], vertical + horizontal, pen);
      assert Final([SetColor(TriggerColor)], pen) == colored;
      assert Render([SetColor(TriggerColor)], pen) == [];
      RenderAppend(vertical, horizontal, colored);
      MarkerPaints(g.width / 1000.0, Point(delay, g.v.0), Point(delay, g.v.1), colored);
      var next := Final(vertical, colored);
      MarkerPaints(g.height / 1000.0, Point(g.h.0, trigger), Point(g.h.1, trigger), next);
      assert next.path == [] && next.color == Some(TriggerColor);
      assert Painted(next.(width := g.height / 1000.0)) == [];
      assert colored.(width := g.width / 1000.0) == pen.(width := g.width / 1000.0, color := Some(TriggerColor));
      assert Render(vertical + horizontal, colored) ==
               Painted(pen.(width := g.width / 1000.0, color := Some(TriggerColor))) +
               ([Line(Segment(Point(delay, g.v.0), Point(delay, g.v.1)), g.width / 1000.0, Some(TriggerColor))] +
               [Line(Segment(Point(g.h.0, trigger), Point(g.h.1, trigger)), g.height / 1000.0, Some(TriggerColor))]);
      assert Render(ops, pen) == [] + Render(vertical + horizontal, colored);
      FinalAppend([SetColor(TriggerColor)], vertical + horizontal, pen);
      FinalAppend(vertical, horizontal, colored);
      assert Final(ops, pen) == Final(horizontal, next);
    }
  }

  /** On a context whose earlier commands left no pending path, a draw adds
      exactly the overlay's lines to what the canvas shows. */
  lemma DrawAddsOverlay(log: seq<Op>, mode: Mode, g: Geometry)
    requires mode != Mode.Auto ==> HasTriggerOffsets(g)
    requires Final(log, FreshPen).path == []
    ensures Render(log + Overlay(mode, g), FreshPen) ==
              Render(log, FreshPen) + Render(Overlay(mode, g), Final(log, FreshPen))
    ensures |Render(log + Overlay(mode, g), FreshPen)| ==
              |Render(log, FreshPen)| + (if mode == Mode.Auto then 0 else 2)
  {
    RenderAppend(log, Overlay(mode, g), FreshPen);
    OverlayPaints(mode, g, Final(log, FreshPen));
    assert Painted(Final(log, FreshPen).(width := g.width / 1000.0, color := Some(TriggerColor))) == [];
  }

  /** From creation on, the controller only ever emits `Auto`, `Normal`
      and `Source` on its stream. */
  lemma EmitsInertFromCreation(events: seq<Signal>)
    ensures forall x :: x in Emitted(Run(Initial, events).effects) ==> SelfEmitted(x) && Inert(x)
  {
    assert Emitted(Initial.effects) == [];
    RunEmitsInert(Initial, events);
  }
}
