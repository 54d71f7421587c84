/** The shared display-geometry snapshot (`application::Model`) that the
    overlay renderers borrow for the duration of one draw call. Only the
    parts the core reads are kept: the scale ranges, the canvas width and
    height as the scales report them, and the named offsets. */
module Display {

  datatype Geometry = Geometry(
    width: real,                 // `scales.get_width()`
    height: real,                // `scales.get_height()`
    h: (real, real),             // horizontal scale range `scales.h`
    v: (real, real),             // vertical scale range `scales.v`
    offsets: map<string, real>)  // what `offset(name)` looks up

  const DELAY := "DELAY"
  const TRIG := "TRIG"

  /** The geometry supplies both offsets the trigger overlay reads. */
  predicate HasTriggerOffsets(g: Geometry) {
    DELAY in g.offsets && TRIG in g.offsets
  }

  /** `model.offset(name)`: defined for the names the geometry supplies. */
  function Offset(g: Geometry, name: string): real
    requires name in g.offsets
  {
    g.offsets[name]
  }
}
