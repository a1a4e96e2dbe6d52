/**
 * `LayerMaskExtensions.Contains`: whether a game object's layer is one of the layers of a
 * 32-bit layer mask. C#'s `1 << n` on `int` shifts by the low five bits of `n`, that is by
 * `n` modulo 32, which is written out here.
 */
module LayerMaskExtensions {

  /** The shift `1 << layer` makes: the layer modulo 32. */
  function ShiftOf(layer: int): bv5 {
    (layer % 32) as bv5
  }

  /** The single-bit mask of a layer: `1 << layer`. */
  function LayerBit(layer: int): bv32 {
    (1 as bv32) << ShiftOf(layer)
  }

  /** `Contains`: the mask has the layer's bit set. */
  function Contains(mask: bv32, layer: int): (r: bool)
    ensures r <==> mask & LayerBit(layer) == LayerBit(layer)
  {
    mask & LayerBit(layer) != 0
  }

  /** The empty mask contains no layer. */
  lemma EmptyMaskContainsNothing(layer: int)
    ensures !Contains(0, layer)
  {
  }

  /** The mask of one layer contains exactly that layer (and the layers equal to it modulo 32,
      which the shift cannot tell apart). */
  lemma SingleLayerMask(l: int, layer: int)
    ensures Contains(LayerBit(l), layer) <==> ShiftOf(l) == ShiftOf(layer)
  {
  }

  /** A mask that has every bit of another contains every layer the other contains. */
  lemma ContainsMonotone(sub: bv32, mask: bv32, layer: int)
    requires sub & mask == sub
    ensures Contains(sub, layer) ==> Contains(mask, layer)
  {
  }
}
