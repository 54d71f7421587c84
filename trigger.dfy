/** The trigger controller (`application::trigger`): the operator picks a
    channel, an edge and a firing mode; once both axes are picked the
    controller resolves them to a hardware trigger source, announces it on
    its event stream and arms the instrument with it. A periodic tick
    re-fires the current mode, and on redraw the controller overlays the
    delay and trigger-level markers on the waveform canvas. */
module Trigger {
  import opened Options
  import opened Display
  import Cairo

  datatype Channel = CH1 | CH2 | EXT

  datatype Edge = Positive | Negative

  datatype Mode = Auto | Normal | Single

  /** The instrument's trigger sources (`redpitaya_scpi::trigger::Source`)
      that this controller can select: one per channel and edge. */
  datatype Source = CH1_PE | CH1_NE | CH2_PE | CH2_NE | EXT_PE | EXT_NE

  /** The channel a source listens on. */
  function ChannelOf(s: Source): Channel {
    match s
    case CH1_PE | CH1_NE => CH1
    case CH2_PE | CH2_NE => CH2
    case EXT_PE | EXT_NE => EXT
  }

  /** The edge a source fires on. */
  function EdgeOf(s: Source): Edge {
    match s
    case CH1_PE | CH2_PE | EXT_PE => Positive
    case CH1_NE | CH2_NE | EXT_NE => Negative
  }

  /** The controller's messages. `Redraw` carries the drawing context and
      the geometry snapshot it borrows for one draw call. */
  datatype Signal =
    | Auto
    | Normal
    | Single
    | Mode(mode: Mode)
    | Channel(channel: Channel)
    | Source(source: Source)
    | Edge(edge: Edge)
    | InternalTick
    | Redraw(context: Cairo.Context, model: Geometry)

  /** An observable side effect of `update`, in the order it happens:
      a signal emitted on the controller's stream, an `enable` call on the
      instrument, or a `set_visible` call on the single-shot button. */
  datatype Effect =
    | Emit(signal: Signal)
    | Enable(source: Source)
    | SetVisible(visible: bool)

  /** Everything `update` can change: the selection and the effect trace. */
  datatype State = State(channel: Option<Channel>, edge: Option<Edge>, mode: Mode, effects: seq<Effect>)

  const Initial := State(None, None, Mode.Normal, [])

  /** `get_source`: the source selected by a (channel, edge) pair, or
      `None` while either axis is unset. */
  function GetSource(channel: Option<Channel>, edge: Option<Edge>): (r: Option<Source>)
    ensures r.Some? <==> channel.Some? && edge.Some?
    ensures r.Some? ==> ChannelOf(r.value) == channel.value && EdgeOf(r.value) == edge.value
  {
    if channel == Some(CH1) && edge == Some(Positive) then Some(CH1_PE)
    else if channel == Some(CH1) && edge == Some(Negative) then Some(CH1_NE)
    else if channel == Some(CH2) && edge == Some(Positive) then Some(CH2_PE)
    else if channel == Some(CH2) && edge == Some(Negative) then Some(CH2_NE)
    else if channel == Some(EXT) && edge == Some(Positive) then Some(EXT_PE)
    else if channel == Some(EXT) && edge == Some(Negative) then Some(EXT_NE)
    else
      // the six pairs above are all the defined ones
      assert channel.Some? ==> channel.value.CH1? || channel.value.CH2? || channel.value.EXT?;
      assert edge.Some? ==> edge.value.Positive? || edge.value.Negative?;
      None
  }

  /** The items a trace records of one kind, in order: `pick` selects them. */
  function Collect<T>(t: seq<Effect>, pick: Effect -> Option<T>): (r: seq<T>)
    ensures |r| <= |t|
    ensures forall x :: x in r ==> exists e :: e in t && pick(e) == Some(x)
    decreases |t|
  {
    if t == [] then []
    else
      var last := t[|t| - 1];
      Collect(t[..|t| - 1], pick) + (if pick(last).Some? then [pick(last).value] else [])
  }

  /** Collecting over a concatenation collects over each part. */
  lemma {:induction false} CollectAppend<T>(a: seq<Effect>, b: seq<Effect>, pick: Effect -> Option<T>)
    ensures Collect(a + b, pick) == Collect(a, pick) + Collect(b, pick)
    decreases |b|
  {
    if b == [] {
      assert a + b == a;
    } else {
      var front := b[..|b| - 1];
      assert (a + b)[..|a + b| - 1] == a + front;
      assert (a + b)[|a + b| - 1] == b[|b| - 1];
      CollectAppend(a, front, pick);
    }
  }

  function PickEmit(e: Effect): Option<Signal> {
    if e.Emit? then Some(e.signal) else None
  }

  function PickEnable(e: Effect): Option<Source> {
    if e.Enable? then Some(e.source) else None
  }

  function PickVisible(e: Effect): Option<bool> {
    if e.SetVisible? then Some(e.visible) else None
  }

  /** The signals emitted on the controller's stream. */
  function Emitted(t: seq<Effect>): seq<Signal> {
    Collect(t, PickEmit)
  }

  /** The sources the instrument has been armed with, in order. */
  function Enabled(t: seq<Effect>): seq<Source> {
    Collect(t, PickEnable)
  }

  /** The visibility values given to the single-shot button, in order. */
  function Visibility(t: seq<Effect>): seq<bool> {
    Collect(t, PickVisible)
  }

  /** What a timer tick fires in each mode. */
  function Fire(m: Mode): seq<Effect> {
    match m
    case Auto => [Emit(Signal.Auto)]
    case Normal => [Emit(Signal.Normal)]
    case Single => []
  }

  /** After an axis changed: if the selection now resolves to a source,
      announce it on the stream and then arm the instrument with it. */
  function Arm(s: State): State {
    match GetSource(s.channel, s.edge)
    case None => s
    case Some(src) => s.(effects := s.effects + [Emit(Signal.Source(src)), Enable(src)])
  }

  /** `update` on one message, as a function of the observable state.
      `Redraw` draws on its context and leaves this state alone. */
  function Step(s: State, e: Signal): State {
    match e
    case InternalTick => s.(effects := s.effects + Fire(s.mode))
    case Mode(m) => s.(mode := m, effects := s.effects + [SetVisible(m == Mode.Single)])
    case Channel(c) => Arm(s.(channel := Some(c)))
    case Edge(x) => Arm(s.(edge := Some(x)))
    case _ => s
  }

  /** Messages handled one after the other, in arrival order. */
  function Run(s: State, events: seq<Signal>): State
    decreases |events|
  {
    if events == [] then s else Run(Step(s, events[0]), events[1..])
  }

  /** The drawing commands `draw` issues in mode `mode`. */
  function Overlay(mode: Mode, g: Geometry): seq<Cairo.Op>
    requires mode != Mode.Auto ==> HasTriggerOffsets(g)
  {
    if mode == Mode.Normal || mode == Mode.Single then
      var delay := Offset(g, DELAY);
      var trigger := Offset(g, TRIG);
      [ Cairo.SetColor(Cairo.TriggerColor),
        Cairo.SetLineWidth(g.width / 1000.0),
        Cairo.MoveTo(Cairo.Point(delay, g.v.0)),
        Cairo.LineTo(Cairo.Point(delay, g.v.1)),
        Cairo.Stroke,
        Cairo.SetLineWidth(g.height / 1000.0),
        Cairo.MoveTo(Cairo.Point(g.h.0, trigger)),
        Cairo.LineTo(Cairo.Point(g.h.1, trigger)),
        Cairo.Stroke ]
    else
      []
  }

  /** The trigger widget: its selection fields, updated in place, and the
      trace of what it has done to its collaborators. */
  class Widget {
    var channel: Option<Channel>
    var edge: Option<Edge>
    var mode: Mode
    var effects: seq<Effect>

    function Snapshot(): State
      reads this
    {
      State(channel, edge, mode, effects)
    }

    /** `model`: normal mode, no channel and no edge picked yet. */
    constructor ()
      ensures mode == Mode.Normal && channel == None && edge == None
      ensures effects == []
      ensures Snapshot() == Initial
    {
      channel, edge, mode, effects := None, None, Mode.Normal, [];
    }

    /** `stream.emit`. */
    method StreamEmit(signal: Signal)
      modifies this
      ensures effects == old(effects) + [Emit(signal)]
      ensures channel == old(channel) && edge == old(edge) && mode == old(mode)
    {
      effects := effects + [Emit(signal)];
    }

    /** `trigger.enable` on the instrument. */
    method EnableTrigger(source: Source)
      modifies this
      ensures effects == old(effects) + [Enable(source)]
      ensures channel == old(channel) && edge == old(edge) && mode == old(mode)
    {
      effects := effects + [Enable(source)];
    }

    /** `single_button.set_visible`. */
    method SetSingleVisible(visible: bool)
      modifies this
      ensures effects == old(effects) + [SetVisible(visible)]
      ensures channel == old(channel) && edge == old(edge) && mode == old(mode)
    {
      effects := effects + [SetVisible(visible)];
    }

    /** `update`: handles one message. */
    method Update(e: Signal)
      requires e.Redraw? && mode != Mode.Auto ==> HasTriggerOffsets(e.model)
      modifies this, if e.Redraw? then {e.context} else {}
      ensures Snapshot() == Step(old(Snapshot()), e)
      ensures e.Redraw? ==> e.context.log == old(e.context.log) + Overlay(mode, e.model)
    {
      match e {
        case InternalTick =>
          match mode {
            case Auto => StreamEmit(Signal.Auto);
            case Normal => StreamEmit(Signal.Normal);
            case Single =>
          }
        case Mode(m) =>
          mode := m;
          match m {
            case Auto => SetSingleVisible(false);
            case Normal => SetSingleVisible(false);
            case Single => SetSingleVisible(true);
          }
        case Channel(c) =>
          channel := Some(c);
          var source := GetSource(channel, edge);
          if source.Some? {
            StreamEmit(Signal.Source(source.value));
            EnableTrigger(source.value);
          }
        case Edge(x) =>
          edge := Some(x);
          var source := GetSource(channel, edge);
          if source.Some? {
            StreamEmit(Signal.Source(source.value));
            EnableTrigger(source.value);
          }
        case Redraw(context, model) =>
          Draw(context, model);
        case _ =>
      }
    }

    /** `draw`: in normal and single mode, a vertical marker at the delay
        offset across the vertical scale, then a horizontal marker at the
        trigger level across the horizontal scale; nothing in auto mode. */
    method Draw(context: Cairo.Context, model: Geometry)
      requires mode != Mode.Auto ==> HasTriggerOffsets(model)
      modifies context
      ensures context.log == old(context.log) + Overlay(mode, model)
    {
      if mode == Mode.Normal || mode == Mode.Single {
        var width := model.width;
        var height := model.height;
        var delay := Offset(model, DELAY);
        var trigger := Offset(model, TRIG);

        context.SetColor(Cairo.TriggerColor);

        context.SetLineWidth(width / 1000.0);
        context.MoveTo(delay, model.v.0);
        context.LineTo(delay, model.v.1);
        context.Stroke();

        context.SetLineWidth(height / 1000.0);
        context.MoveTo(model.h.0, trigger);
        context.LineTo(model.h.1, trigger);
        context.Stroke();
      }
    }
  }
}
