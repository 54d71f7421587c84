/** The generator panel (`application::generator::widget`): two output
    widgets of the same kind, one per physical output, whose
    channel-agnostic messages the panel relabels with their output before
    passing them up, and to which it forwards every redraw, each inside its
    own save/restore bracket on the drawing context. */
module Generator {
  import opened Options
  import opened Display
  import Cairo
  import Output

  /** The generator outputs (`redpitaya_scpi::generator::Source`). */
  datatype Tag = OUT1 | OUT2

  /** The panel's messages: the children's parameter messages tagged with
      their output, and the redraw request. */
  datatype Signal<A, D, F, O, W> =
    | Amplitude(source: Tag, amplitude: A)
    | DutyCycle(source: Tag, dutyCycle: D)
    | Frequency(source: Tag, frequency: F)
    | Offset(source: Tag, offset: O)
    | Form(source: Tag, form: W)
    | Start(source: Tag)
    | Stop(source: Tag)
    | Redraw(context: Cairo.Context, model: Geometry)

  /** Removes the output tag from a panel message, giving back the child
      message and the output it came from; `Redraw` carries no tag. */
  function Strip<A, D, F, O, W>(p: Signal<A, D, F, O, W>): (r: Option<(Tag, Output.Signal<A, D, F, O, W>)>)
    ensures r.Some? <==> !p.Redraw?
    ensures r.Some? ==> r.value.0 == p.source && !r.value.1.Redraw?
  {
    match p
    case Amplitude(t, a) => Some((t, Output.Amplitude(a)))
    case DutyCycle(t, d) => Some((t, Output.DutyCycle(d)))
    case Frequency(t, f) => Some((t, Output.Frequency(f)))
    case Offset(t, o) => Some((t, Output.Offset(o)))
    case Form(t, w) => Some((t, Output.Form(w)))
    case Start(t) => Some((t, Output.Start))
    case Stop(t) => Some((t, Output.Stop))
    case Redraw(_, _) => None
  }

  /** The mapping the panel installs on the child bound to output `tag`:
      each parameter message becomes the same-named panel message tagged
      with `tag`, payload untouched. The child's `Redraw` is not mapped. */
  function Relabel<A, D, F, O, W>(tag: Tag, s: Output.Signal<A, D, F, O, W>): (r: Option<Signal<A, D, F, O, W>>)
    ensures r.Some? <==> !s.Redraw?
    ensures r.Some? ==> !r.value.Redraw? && r.value.source == tag
    ensures r.Some? ==> Strip(r.value) == Some((tag, s))
  {
    match s
    case Amplitude(a) => Some(Amplitude(tag, a))
    case DutyCycle(d) => Some(DutyCycle(tag, d))
    case Frequency(f) => Some(Frequency(tag, f))
    case Offset(o) => Some(Offset(tag, o))
    case Form(w) => Some(Form(tag, w))
    case Start => Some(Start(tag))
    case Stop => Some(Stop(tag))
    case Redraw(_, _) => None
  }

  /** A side effect of `draw`, in order: `save` or `restore` on the drawing
      context, or a message sent to the child bound to an output. */
  datatype Step<A, D, F, O, W> =
    | Save
    | Restore
    | Emit(target: Tag, signal: Output.Signal<A, D, F, O, W>)

  /** The effects of one `draw`. */
  function Bracketed<A, D, F, O, W>(context: Cairo.Context, model: Geometry): seq<Step<A, D, F, O, W>> {
    [ Save, Emit(OUT1, Output.Redraw(context, model)), Restore,
      Save, Emit(OUT2, Output.Redraw(context, model)), Restore ]
  }

  /** The generator panel. `stream` holds the messages it passes up,
      `trace` what its draws have done. */
  class Widget<A, D, F, O, W> {
    var stream: seq<Signal<A, D, F, O, W>>
    var trace: seq<Step<A, D, F, O, W>>

    constructor ()
      ensures stream == [] && trace == []
    {
      stream, trace := [], [];
    }

    /** The child bound to `tag` emitted `s`: the mapped message, if any,
        goes up the panel's stream and through its own `update`. */
    method Forward(tag: Tag, s: Output.Signal<A, D, F, O, W>)
      modifies this
      ensures stream == old(stream) + (if s.Redraw? then [] else [Relabel(tag, s).value])
      ensures trace == old(trace)
    {
      var mapped := Relabel(tag, s);
      if mapped.Some? {
        stream := stream + [mapped.value];
        Update(mapped.value);
      }
    }

    /** `update`: draws on `Redraw`, ignores everything else. */
    method Update(e: Signal<A, D, F, O, W>)
      modifies this
      ensures e.Redraw? ==> trace == old(trace) + Bracketed(e.context, e.model)
      ensures !e.Redraw? ==> trace == old(trace)
      ensures stream == old(stream)
    {
      match e {
        case Redraw(context, model) => Draw(context, model);
        case _ =>
      }
    }

    /** `draw`: the redraw goes to the first output's child and then to the
        second's, each between a `save` and a `restore` of the context. */
    method Draw(context: Cairo.Context, model: Geometry)
      modifies this
      ensures trace == old(trace) + Bracketed(context, model)
      ensures stream == old(stream)
    {
      ContextSave();
      EmitTo(OUT1, Output.Redraw(context, model));
      ContextRestore();
      ContextSave();
      EmitTo(OUT2, Output.Redraw(context, model));
      ContextRestore();
    }

    /** `context.save()`. */
    method ContextSave()
      modifies this
      ensures trace == old(trace) + [Save] && stream == old(stream)
    {
      trace := trace + [Save];
    }

    /** `context.restore()`. */
    method ContextRestore()
      modifies this
      ensures trace == old(trace) + [Restore] && stream == old(stream)
    {
      trace := trace + [Restore];
    }

    /** `out1.emit(..)` or `out2.emit(..)`. */
    method EmitTo(target: Tag, signal: Output.Signal<A, D, F, O, W>)
      modifies this
      ensures trace == old(trace) + [Emit(target, signal)] && stream == old(stream)
    {
      trace := trace + [Emit(target, signal)];
    }
  }
}
