/** The messages of the child output widget (`generator::output::Signal`)
    that the composer maps or sends. The child widget itself, and any
    message of it that the composer neither maps nor sends, are not part of
    this model. Payload types are left abstract. */
module Output {
  import opened Display
  import Cairo

  datatype Signal<A, D, F, O, W> =
    | Amplitude(amplitude: A)
    | DutyCycle(dutyCycle: D)
    | Frequency(frequency: F)
    | Offset(offset: O)
    | Form(form: W)
    | Start
    | Stop
    | Redraw(context: Cairo.Context, model: Geometry)
}
