# Trigger controller and generator panel of an instrument front-end

A Dafny model of two pieces of sequential logic in a GTK front-end for a
Red Pitaya oscilloscope/generator.

**Trigger controller** (`src/application/trigger/mod.rs`). The operator
picks a channel (CH1, CH2, EXT), an edge (positive, negative) and a firing
mode (auto, normal, single). Once both axes are picked, the controller
resolves them to one of six hardware trigger sources. It announces the
source on its event stream and arms the instrument with it. A periodic
tick fires `Auto` or `Normal` according to the mode; in single mode it
fires nothing. Choosing a mode shows the single-shot button exactly in
single mode. On redraw, outside auto mode, the controller strokes a
vertical delay marker and a horizontal trigger-level marker.

- `Trigger.Widget` is a class. Its fields `channel`, `edge` and `mode`
  are updated in place. Its `effects` field is the ordered trace of what
  it did to its collaborators: stream emissions, `enable` calls on the
  instrument, and `set_visible` calls on the single-shot button.
- `Trigger.Step` is the same update as a function on the observable state.
  `Trigger.Run` folds it over a sequence of messages handled in arrival
  order.
- `Trigger.Widget.Draw` issues its commands on a `Cairo.Context`, which
  logs them. `Cairo.Render` gives the log its meaning: the list of lines
  stroked on the canvas.

**Generator panel** (`src/application/generator/widget.rs`). It holds two
output widgets of one kind, one per physical output. Their messages carry
no channel. The panel relabels each one with the output tag (`OUT1` or
`OUT2`) before passing it up. It forwards every redraw to the first child
and then to the second, each between a `save` and a `restore` of the
drawing context.

- `Generator.Relabel` is the mapping, and `Generator.Strip` is its
  inverse. Payload types (amplitude, frequency, …) are type parameters.
- `Generator.Widget` keeps the messages it passes up in `stream`. Its
  `trace` records the save, restore and child-send steps of its draws, in
  order.

Two behaviours of the code are kept as written, although a reader might
expect otherwise:
- The trigger overlay issues no `save`/`restore` of its own. The colour
  and line width it sets stay set on the context (mod.rs:164-183).
- Picking the same channel or edge again re-emits and re-arms the same
  source. It is not suppressed.

## Model

| member | source | states |
|---|---|---|
| Trigger.GetSource | src/application/trigger/mod.rs:136-162 | a source is resolved exactly when both channel and edge are picked, and the resolved source listens on the picked channel and fires on the picked edge |
| TriggerProperties.GetSourceInjective | src/application/trigger/mod.rs:136-162 | two defined (channel, edge) pairs resolve to the same source only if they are the same pair |
| TriggerProperties.GetSourceCovers | src/application/trigger/mod.rs:136-162 | each of the six sources is reached from its own channel and edge, so the resolver is a bijection from the 3×2 pairs onto the sources |
| Trigger.Widget.constructor | src/application/trigger/mod.rs:41-49 | a new controller is in normal mode with no channel and no edge picked, and has done nothing yet |
| Trigger.Widget.Update | src/application/trigger/mod.rs:55-90 | handling a message changes the fields and the effect trace exactly as `Trigger.Step` says; on `Redraw` it appends the overlay commands to the message's context |
| Trigger.Widget.Draw | src/application/trigger/mod.rs:164-183 | the context's log grows by the overlay commands for the current mode and nothing else |
| TriggerProperties.TickEffect | src/application/trigger/mod.rs:57-63 | a tick emits exactly `Auto` in auto mode, exactly `Normal` in normal mode and nothing in single mode; selection, arming and button visibility are unchanged |
| TriggerProperties.ModeEffect | src/application/trigger/mod.rs:64-72 | choosing mode m sets the mode to m and sets the single-shot button visible iff m is `Single`; channel and edge are unchanged, and nothing is emitted or armed |
| TriggerProperties.ChannelEffect | src/application/trigger/mod.rs:73-79 | picking channel c sets it and keeps edge and mode; if an edge is picked, it emits `Source(s)` and then arms s, where s is the source for c and that edge; otherwise it has no effect at all |
| TriggerProperties.EdgeEffect | src/application/trigger/mod.rs:80-86 | the same as for a channel: picking an edge sets it, and it emits and then arms the resolved source iff a channel is already picked |
| TriggerProperties.InertSignals | src/application/trigger/mod.rs:55-90 | `Auto`, `Normal`, `Single`, `Source` and `Redraw` leave the selection and the effect trace unchanged |
| TriggerProperties.ReselectChannel | src/application/trigger/mod.rs:73-79 | picking the same channel twice leaves the selection as it was after once; when an edge is picked the second pick emits `Source(s)` and arms s again for the same source s, and otherwise it leaves the whole effect trace unchanged |
| TriggerProperties.RunKeepsHistory | src/application/trigger/mod.rs:55-90 | over any run of messages, the effect trace only grows, and a picked channel or edge is never unset |
| TriggerProperties.StepKeepsArmed | src/application/trigger/mod.rs:55-90 | every message keeps the instrument armed exactly when the selection resolves, with the source it resolves to last |
| TriggerProperties.RunKeepsArmed | src/application/trigger/mod.rs:55-90 | any run of messages keeps that arming invariant |
| TriggerProperties.ArmedAfterAnyRun | src/application/trigger/mod.rs:41-90 | from creation on, the instrument has been armed iff both axes are picked, and the last source it was armed with is the one the selection resolves to |
| TriggerProperties.RunEmitsInert | src/application/trigger/mod.rs:55-90 | from a state whose emissions so far are all `Auto`, `Normal` or `Source`, any run of messages emits only `Auto`, `Normal` and `Source`, each a signal that leaves the state unchanged when it comes back to `update` |
| TriggerProperties.EmitsInertFromCreation | src/application/trigger/mod.rs:41-90 | from creation, after any run of messages, everything the controller has emitted on its stream is `Auto`, `Normal` or `Source`, each of which leaves its state unchanged |
| TriggerProperties.TicksFire | src/application/trigger/mod.rs:57-63 | n ticks emit exactly n `Auto` signals in auto mode, n `Normal` signals in normal mode and none in single mode; they change nothing else |
| TriggerProperties.ChannelThenEdge | src/application/trigger/mod.rs:73-86 | from creation, picking CH1 resolves nothing and emits nothing; picking the positive edge next emits `Source(CH1_PE)` and arms `CH1_PE`, once |
| TriggerProperties.OverlayPaints | src/application/trigger/mod.rs:164-183 | in auto mode draw paints nothing; in normal and single mode it paints, in the trigger colour, first any path already pending on the context (the code never starts a new path) at width `width/1000`, then a vertical line at the DELAY offset spanning the vertical scale with width `width/1000`, then a horizontal line at the TRIG offset spanning the horizontal scale with width `height/1000`; outside auto mode no path is left pending |
| TriggerProperties.DrawAddsOverlay | src/application/trigger/mod.rs:164-183 | on a context with no pending path, a draw adds exactly the overlay's lines (none in auto mode, two otherwise) after what the context showed |
| Generator.Relabel | src/application/generator/widget.rs:42-61 | each child parameter message maps to the same-named panel message tagged with the child's output, and stripping the tag gives back that output and that message; the child's `Redraw` is not mapped |
| Generator.Strip | src/application/generator/widget.rs:42-61 | every panel message except `Redraw` carries an output tag and a child message, and the tag is the message's own |
| GeneratorProperties.RelabelInjective | src/application/generator/widget.rs:42-61 | distinct (output, child message) pairs map to distinct panel messages |
| GeneratorProperties.StripThenRelabel | src/application/generator/widget.rs:42-61 | every tagged panel message is the relabeling of the child message its tag and payload name |
| GeneratorProperties.NoCrossTalk | src/application/generator/widget.rs:42-61 | everything mapped from the first child is tagged `OUT1`, everything mapped from the second is tagged `OUT2`, and the two never coincide |
| GeneratorProperties.RelabelTable | src/application/generator/widget.rs:42-61 | Amplitude, DutyCycle, Frequency, Offset, Form, Start and Stop each become the same-named panel message with the child's tag and the payload unchanged |
| Generator.Widget.Forward | src/application/generator/widget.rs:37-62 | a child message is passed up the panel's stream as its relabeling, or not at all if it is a `Redraw`; it causes no drawing |
| Generator.Widget.Update | src/application/generator/widget.rs:26-31 | `Redraw` performs one bracketed draw; every other message leaves the panel unchanged |
| Generator.Widget.Draw | src/application/generator/widget.rs:68-75 | the trace grows by save, redraw to OUT1, restore, save, redraw to OUT2, restore |
| GeneratorProperties.BracketedBalanced | src/application/generator/widget.rs:69-74 | within one draw, the save depth never drops below its start, each child redraw happens exactly one bracket deep, and the depth ends where it started |
| GeneratorProperties.DrawKeepsDepth | src/application/generator/widget.rs:68-75 | after any history, a draw leaves the drawing context's save depth unchanged |
| GeneratorProperties.DrawDelivers | src/application/generator/widget.rs:68-75 | a draw delivers exactly one redraw to the OUT1 child and then exactly one to the OUT2 child, each with the same context and geometry |

## Left out

- The periodic timer (`relm::interval`, 1000 ms, mod.rs:52) is not modelled as a scheduler. Ticks are explicit `InternalTick` messages.
- Widget layout, the relm event-stream machinery and the `#[widget]` macro are left out. A stream is an append-only trace, and messages are handled one at a time in arrival order (`Trigger.Run`). The re-delivery of a controller's own emissions to its `update` is not modelled. `TriggerProperties.RunEmitsInert` and `InertSignals` show that such a re-delivery would change nothing.
- The radio groups' displayed defaults (CH1, positive edge) are left out. Whether they fire an initial change depends on the radio-group widget, which is not part of this model, so the model starts with both axes unset.
- The single-shot button's click maps to `Single`, which `update` ignores. Its initial visibility is set by the toolkit. The model records only the `set_visible` calls the controller makes.
- The instrument library (`redpitaya_scpi`) is left out. `enable` is a trace entry. The source type has only the six channel/edge sources this controller can select.
- Floating point is not modelled. Coordinates and line widths are `real`, so `width / 1000.0` is exact division with no f64 rounding.
- The trigger colour is an abstract palette entry. `set_color` is styling.
- The application model (`application::Model`) is not part of this model. `scales.get_width()`, `get_height()`, the scale ranges and `offset(name)` are given values of `Display.Geometry`. Drawing outside auto mode requires the "DELAY" and "TRIG" offsets to be present.
- The panel's own model, the generator handle (widget.rs:22-24), is not kept by `Generator.Widget`. The panel only clones it into both children (widget.rs:40,53), and it is used only inside the children, which are not part of this model.
- The output child widget (`generator::output`) is not part of this model. This covers its internals, its handling of the shared generator handle, and whatever it draws when it receives `Redraw`.
- Generator.Widget.Draw: the panel's `save`/`restore` are steps in its own trace, not commands on a `Cairo.Context` object.
- The hand-written `Clone` for the generator panel (widget.rs:78-87) is left out.
- `src/widget/palette.rs` is left out: it is presentation only (show/hide, a CSS class, a button label).
