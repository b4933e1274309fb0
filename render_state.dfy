/** The render-state rule shared by every "show layer" operation of the
    pages: `xrSession.updateRenderState({ layers: [chosen,
    layers[layers.length - 1]] })`. A WebXR session composites
    `renderState.layers` in array order, the first entry at the bottom, so
    the chosen layer is drawn beneath the previous stack's last entry (in
    practice the renderer's projection layer, which keeps its place on top). */
module RenderState {

  /** The new layer stack: the chosen layer at the bottom, then the previous
      stack's last entry above it; every other entry of the previous stack is
      dropped. */
  function ShowUnderLast<L>(chosen: L, stack: seq<L>): (r: seq<L>)
    requires |stack| > 0
    ensures |r| == 2 && r[0] == chosen && r[1] == stack[|stack| - 1]
  {
    [chosen, stack[|stack| - 1]]
  }

  /** Several show operations, applied in order. */
  function ShowAll<L>(chosen: seq<L>, stack: seq<L>): (r: seq<L>)
    requires |stack| > 0
    ensures |r| > 0
    decreases |chosen|
  {
    if chosen == [] then stack else ShowAll(chosen[1..], ShowUnderLast(chosen[0], stack))
  }

  /** After any non-empty run of show operations the stack holds the last
      chosen layer, beneath the entry that was last before the run: that
      entry (in practice the renderer's projection layer) survives every
      switch as the top of the stack, and of the chosen layers only the
      latest stays in it. */
  lemma {:induction false} ShowAllKeepsBase<L>(chosen: seq<L>, stack: seq<L>)
    requires |stack| > 0 && |chosen| > 0
    ensures ShowAll(chosen, stack) == [chosen[|chosen| - 1], stack[|stack| - 1]]
  {
    var next := ShowUnderLast(chosen[0], stack);
    if |chosen| == 1 {
      assert chosen[1..] == [];
    } else {
      ShowAllKeepsBase(chosen[1..], next);
      assert chosen[1..][|chosen[1..]| - 1] == chosen[|chosen| - 1];
    }
  }

  /** A show operation on a stack it produced itself keeps the same base,
      so showing twice in a row is the same as showing only the second. */
  lemma ShowUnderLastForgetsPrevious<L>(first: L, second: L, stack: seq<L>)
    requires |stack| > 0
    ensures ShowUnderLast(second, ShowUnderLast(first, stack)) == ShowUnderLast(second, stack)
  {
  }
}
