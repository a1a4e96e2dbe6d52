/** Sprites, as the renderers and tiles refer to them. */
module Sprites {
  /** A sprite asset. */
  type SpriteId = nat
}
