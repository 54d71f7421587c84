/** What the generator panel promises: relabeling is a lossless, per-output
    tagging, and a draw reaches both children in order, each inside a
    balanced save/restore bracket. */
module GeneratorProperties {
  import opened Options
  import opened Display
  import Cairo
  import Output
  import opened Generator

  // ----- relabeling -----

  /** Stripping the tag recovers the child message and its output, so two
      mapped messages are equal only if they come from the same output and
      the same child message. */
  lemma RelabelInjective<A, D, F, O, W>(t1: Tag, s1: Output.Signal<A, D, F, O, W>,
                                        t2: Tag, s2: Output.Signal<A, D, F, O, W>)
    requires Relabel(t1, s1).Some? && Relabel(t1, s1) == Relabel(t2, s2)
    ensures t1 == t2 && s1 == s2
  {
    assert Strip(Relabel(t1, s1).value) == Some((t1, s1));
    assert Strip(Relabel(t2, s2).value) == Some((t2, s2));
  }

  /** Every tagged panel message is the relabeling of exactly the child
      message its tag and payload name: relabeling is onto. */
  lemma StripThenRelabel<A, D, F, O, W>(p: Signal<A, D, F, O, W>)
    requires !p.Redraw?
    ensures Relabel(Strip(p).value.0, Strip(p).value.1) == Some(p)
  {
  }

  /** No cross-talk: nothing the first output's child emits can be taken
      for something the second's emits. */
  lemma NoCrossTalk<A, D, F, O, W>(s1: Output.Signal<A, D, F, O, W>, s2: Output.Signal<A, D, F, O, W>)
    requires !s1.Redraw? && !s2.Redraw?
    ensures Relabel(OUT1, s1).value.source == OUT1
    ensures Relabel(OUT2, s2).value.source == OUT2
    ensures Relabel(OUT1, s1) != Relabel(OUT2, s2)
  {
  }

  /** What each child message becomes, payload unchanged. */
  lemma RelabelTable<A, D, F, O, W>(tag: Tag, a: A, d: D, f: F, o: O, w: W)
    ensures Relabel(tag, Output.Signal<A, D, F, O, W>.Amplitude(a)) == Some(Signal.Amplitude(tag, a))
    ensures Relabel(tag, Output.Signal<A, D, F, O, W>.DutyCycle(d)) == Some(Signal.DutyCycle(tag, d))
    ensures Relabel(tag, Output.Signal<A, D, F, O, W>.Frequency(f)) == Some(Signal.Frequency(tag, f))
    ensures Relabel(tag, Output.Signal<A, D, F, O, W>.Offset(o)) == Some(Signal.Offset(tag, o))
    ensures Relabel(tag, Output.Signal<A, D, F, O, W>.Form(w)) == Some(Signal.Form(tag, w))
    ensures Relabel(tag, Output.Signal<A, D, F, O, W>.Start) == Some(Signal.Start(tag))
    ensures Relabel(tag, Output.Signal<A, D, F, O, W>.Stop) == Some(Signal.Stop(tag))
  {
  }

  // ----- drawing -----

  /** How many `save`s are still open after a trace. */
  function Depth<A, D, F, O, W>(t: seq<Step<A, D, F, O, W>>): int
    decreases |t|
  {
    if t == [] then 0
    else
      var last := t[|t| - 1];
      Depth(t[..|t| - 1]) + (match last case Save => 1 case Restore => -1 case Emit(_, _) => 0)
  }

  lemma {:induction false} DepthAppend<A, D, F, O, W>(a: seq<Step<A, D, F, O, W>>, b: seq<Step<A, D, F, O, W>>)
    ensures Depth(a + b) == Depth(a) + Depth(b)
    decreases |b|
  {
    if b == [] {
      assert a + b == a;
    } else {
      assert (a + b)[..|a + b| - 1] == a + b[..|b| - 1];
      assert (a + b)[|a + b| - 1] == b[|b| - 1];
      DepthAppend(a, b[..|b| - 1]);
    }
  }

  /** The children a trace sent messages to, with the messages, in order. */
  function Delivered<A, D, F, O, W>(t: seq<Step<A, D, F, O, W>>): seq<(Tag, Output.Signal<A, D, F, O, W>)>
    decreases |t|
  {
    if t == [] then []
    else
      var last := t[|t| - 1];
      Delivered(t[..|t| - 1]) + (if last.Emit? then [(last.target, last.signal)] else [])
  }

  lemma {:induction false} DeliveredAppend<A, D, F, O, W>(a: seq<Step<A, D, F, O, W>>, b: seq<Step<A, D, F, O, W>>)
    ensures Delivered(a + b) == Delivered(a) + Delivered(b)
    decreases |b|
  {
    if b == [] {
      assert a + b == a;
    } else {
      assert (a + b)[..|a + b| - 1] == a + b[..|b| - 1];
      assert (a + b)[|a + b| - 1] == b[|b| - 1];
      DeliveredAppend(a, b[..|b| - 1]);
    }
  }

  /** One draw: the save depth never drops below where it started, every
      child redraw happens exactly one bracket deep, and the depth is back
      where it started at the end. */
  lemma BracketedBalanced<A, D, F, O, W>(context: Cairo.Context, model: Geometry)
    ensures var b := Bracketed<A, D, F, O, W>(context, model);
            && Depth(b) == 0
            && (forall i :: 0 <= i <= |b| ==> Depth(b[..i]) >= 0)
            && (forall i :: 0 <= i < |b| && b[i].Emit? ==> Depth(b[..i]) == 1)
  {
    var b := Bracketed<A, D, F, O, W>(context, model);
    assert b[..0] == [];
    assert b[..1][..0] == [];
    assert b[..2][..1] == b[..1];
    assert b[..3][..2] == b[..2];
    assert b[..4][..3] == b[..3];
    assert b[..5][..4] == b[..4];
    assert b[..6][..5] == b[..5];
    assert b[..6] == b;
    assert Depth(b[..1]) == 1;
    assert Depth(b[..2]) == 1;
    assert Depth(b[..3]) == 0;
    assert Depth(b[..4]) == 1;
    assert Depth(b[..5]) == 1;
    assert Depth(b[..6]) == 0;
  }

  /** Drawing after any history leaves the save depth where it was. */
  lemma DrawKeepsDepth<A, D, F, O, W>(t: seq<Step<A, D, F, O, W>>, context: Cairo.Context, model: Geometry)
    ensures Depth(t + Bracketed(context, model)) == Depth(t)
  {
    DepthAppend(t, Bracketed(context, model));
    BracketedBalanced<A, D, F, O, W>(context, model);
  }

  /** Drawing after any history delivers exactly one redraw, carrying the
      same context and geometry, to the first output's child and then
      exactly one to the second's. */
  lemma DrawDelivers<A, D, F, O, W>(t: seq<Step<A, D, F, O, W>>, context: Cairo.Context, model: Geometry)
    ensures Delivered(t + Bracketed(context, model)) ==
              Delivered(t) + [(OUT1, Output.Redraw(context, model)), (OUT2, Output.Redraw(context, model))]
  {
    var b := Bracketed<A, D, F, O, W>(context, model);
    DeliveredAppend(t, b);
    assert b[..1][..0] == [];
    assert b[..2][..1] == b[..1];
    assert b[..3][..2] == b[..2];
    assert b[..4][..3] == b[..3];
    assert b[..5][..4] == b[..4];
    assert b[..6][..5] == b[..5];
    assert b[..6] == b;
    assert Delivered(b[..1]) == [];
    assert Delivered(b[..2]) == [(OUT1, Output.Redraw(context, model))];
    assert Delivered(b[..3]) == Delivered(b[..2]);
    assert Delivered(b[..4]) == Delivered(b[..2]);
    assert Delivered(b[..5]) == [(OUT1, Output.Redraw(context, model)), (OUT2, Output.Redraw(context, model))];
  }
}
