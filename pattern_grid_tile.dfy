/**
 * `PatternGridTile`: a tile that repeats a rectangular pattern of sprites over the tile map.
 * The sprite of a cell is picked by its coordinates modulo the pattern size; the sprites are
 * stored row by row, top row first, as the editor's grid slicing produces them.
 */
module PatternGridTiles {
  import opened Wrappers
  import opened Sprites
  import opened Arithmetic

  /** `Tile.ColliderType`. */
  datatype ColliderType = NoCollider | SpriteCollider | GridCollider

  /** `TileFlags` (only the one the tile sets is needed). */
  datatype TileFlags = NoFlags | LockTransform

  /** The parts of `TileData` the tile fills in; the transform is kept as "is the identity". */
  datatype TileData = TileData(colliderType: ColliderType, flags: TileFlags,
                               transformIsIdentity: bool, sprite: Option<SpriteId>)

  /** The absolute value. */
  function Abs(b: int): int {
    if b >= 0 then b else -b
  }

  /** C#'s `%` on `int`: the remainder of the division truncated toward zero. It takes the
      sign of the dividend, is smaller than the divisor in size, whatever the divisor's sign,
      and differs from the dividend by a multiple of the divisor. */
  function Rem(a: int, b: int): (r: int)
    requires b != 0
    ensures a >= 0 ==> 0 <= r < Abs(b)
    ensures a < 0 ==> -Abs(b) < r <= 0
    ensures (a - r) % Abs(b) == 0
  {
    var m := Abs(b);
    var r := if a >= 0 then a % m else -((-a) % m);
    assert (a - r) % m == 0 by {
      RemCongruent(a, m);
    }
    r
  }

  /** The truncated remainder differs from the dividend by a multiple of the divisor. */
  lemma RemCongruent(a: int, m: int)
    requires m >= 1
    ensures a >= 0 ==> (a - a % m) % m == 0
    ensures a < 0 ==> (a + (-a) % m) % m == 0
  {
    if a >= 0 {
      var q := a / m;
      assert a - a % m == q * m + 0;
      ModUnique(a - a % m, m, q, 0);
    } else {
      var q := (-a) / m;
      assert -a == q * m + (-a) % m;
      assert a + (-a) % m == (-q) * m + 0;
      ModUnique(a + (-a) % m, m, -q, 0);
    }
  }

  /**
   * `Mod`: a remainder that is never negative. For a positive modulus it lies in
   * [0, modulo), differs from the value by a multiple of the modulus, and is the
   * mathematical (Euclidean) remainder.
   */
  function Mod(value: int, modulo: int): (r: int)
    requires modulo != 0
    ensures modulo > 0 ==> 0 <= r < modulo && (value - r) % modulo == 0 && r == value % modulo
  {
    var r := Rem(value, modulo);
    var result := if r < 0 then r + modulo else r;
    assert modulo > 0 ==> result == value % modulo && (value - result) % modulo == 0 by {
      if modulo > 0 {
        var q := (value - r) / modulo;
        assert value - r == q * modulo + 0;
        if r < 0 {
          assert value == (q - 1) * modulo + (r + modulo);
          ModUnique(value, modulo, q - 1, r + modulo);
          assert value - (r + modulo) == (q - 1) * modulo + 0;
          ModUnique(value - (r + modulo), modulo, q - 1, 0);
        } else {
          assert value == q * modulo + r;
          ModUnique(value, modulo, q, r);
        }
      }
    }
    result
  }

  /**
   * The index of the sprite of cell (px, py): the column is the x coordinate modulo the width,
   * the row counts from the top, so the y coordinate modulo the height is flipped. It always
   * lies inside the pattern.
   */
  function TileIndex(px: int, py: int, offsetX: int, offsetY: int, w: int, h: int): (index: int)
    requires w >= 1 && h >= 1
    ensures 0 <= index < w * h
  {
    var x := Mod(px - offsetX, w);
    var y := Mod(py - offsetY, h);
    var unityRow := h - 1 - y;
    RowMajorInRange(x, unityRow, w, h);
    x + unityRow * w
  }

  /** The pattern repeats: cells a pattern width apart, or a pattern height apart, share a
      sprite. */
  lemma TileIndexPeriodic(px: int, py: int, offsetX: int, offsetY: int, w: int, h: int)
    requires w >= 1 && h >= 1
    ensures TileIndex(px + w, py, offsetX, offsetY, w, h) == TileIndex(px, py, offsetX, offsetY, w, h)
    ensures TileIndex(px, py + h, offsetX, offsetY, w, h) == TileIndex(px, py, offsetX, offsetY, w, h)
  {
    assert (px + w - offsetX) % w == (px - offsetX) % w by {
      ModShift(px - offsetX, w);
    }
    assert (py + h - offsetY) % h == (py - offsetY) % h by {
      ModShift(py - offsetY, h);
    }
  }

  /** Within one repetition of the pattern, starting at the offsets, the cell in column x and
      row y (counted upward) takes sprite x of row h-1-y counted from the top: every sprite of
      the pattern is shown once per repetition. */
  lemma TileIndexInPattern(x: int, y: int, offsetX: int, offsetY: int, w: int, h: int)
    requires w >= 1 && h >= 1 && 0 <= x < w && 0 <= y < h
    ensures TileIndex(offsetX + x, offsetY + y, offsetX, offsetY, w, h) == x + (h - 1 - y) * w
  {
    assert offsetX + x - offsetX == x;
    assert offsetY + y - offsetY == y;
    ModUnique(x, w, 0, x);
    ModUnique(y, h, 0, y);
    assert Mod(x, w) == x && Mod(y, h) == y;
  }

  /** `PatternGridTile`. */
  class PatternGridTile {
    var patternWidth: int
    var patternHeight: int
    var sprites: array?<Option<SpriteId>>
    var offsetX: int
    var offsetY: int
    var colliderType: ColliderType

    /** The defaults: a 3 by 3 pattern, no sprite array, no offset, no collider. */
    constructor ()
      ensures patternWidth == 3 && patternHeight == 3 && sprites == null
      ensures offsetX == 0 && offsetY == 0 && colliderType == NoCollider
    {
      patternWidth, patternHeight := 3, 3;
      sprites := null;
      offsetX, offsetY := 0, 0;
      colliderType := NoCollider;
    }

    /** `HasValidSpriteArray`: both sizes at least 1, and an array of exactly w * h sprites. */
    predicate HasValidSpriteArray()
      reads this
    {
      patternWidth >= 1 && patternHeight >= 1 && sprites != null &&
      sprites.Length == patternWidth * patternHeight
    }

    /**
     * `GetTileData`: the collider type, the transform lock and the identity transform are set
     * for every cell; the sprite is missing when the array is not valid, and otherwise is the
     * pattern's sprite for the cell, read inside the array.
     */
    function GetTileData(px: int, py: int): (data: TileData)
      reads this, sprites
      ensures data.colliderType == colliderType && data.flags == LockTransform && data.transformIsIdentity
      ensures !HasValidSpriteArray() ==> data.sprite.None?
      ensures HasValidSpriteArray() ==>
        data.sprite == sprites[TileIndex(px, py, offsetX, offsetY, patternWidth, patternHeight)]
    {
      if !HasValidSpriteArray() then TileData(colliderType, LockTransform, true, None)
      else TileData(colliderType, LockTransform, true,
                    sprites[TileIndex(px, py, offsetX, offsetY, patternWidth, patternHeight)])
    }

    /** The cells a pattern width or height apart look the same. */
    lemma GetTileDataPeriodic(px: int, py: int)
      ensures GetTileData(px + patternWidth, py) == GetTileData(px, py)
      ensures GetTileData(px, py + patternHeight) == GetTileData(px, py)
    {
      if HasValidSpriteArray() {
        TileIndexPeriodic(px, py, offsetX, offsetY, patternWidth, patternHeight);
      }
    }

    /**
     * `OnValidate`: both sizes are raised to at least 1. An array of the wrong size (or none)
     * is replaced by a new one of w * h entries that keeps the old entries that fit and
     * leaves the new ones empty; an array of the right size is kept. A tile that was already
     * valid is left as it was, so a second call changes nothing.
     */
    method OnValidate()
      modifies this
      ensures patternWidth == if old(patternWidth) < 1 then 1 else old(patternWidth)
      ensures patternHeight == if old(patternHeight) < 1 then 1 else old(patternHeight)
      ensures HasValidSpriteArray()
      ensures old(sprites) != null && old(sprites).Length == patternWidth * patternHeight ==>
        sprites == old(sprites)
      ensures old(sprites) == null || old(sprites).Length != patternWidth * patternHeight ==>
        fresh(sprites) &&
        (forall i :: 0 <= i < sprites.Length ==>
          sprites[i] == if old(sprites) != null && i < old(sprites).Length then old(sprites)[i] else None)
      ensures old(HasValidSpriteArray()) ==>
        patternWidth == old(patternWidth) && patternHeight == old(patternHeight) && sprites == old(sprites)
      ensures offsetX == old(offsetX) && offsetY == old(offsetY) && colliderType == old(colliderType)
    {
      if patternWidth < 1 {
        patternWidth := 1;
      }
      if patternHeight < 1 {
        patternHeight := 1;
      }
      var targetLength := patternWidth * patternHeight;
      if sprites == null || sprites.Length != targetLength {
        var newSprites := Resized(sprites, targetLength);
        sprites := newSprites;
      }
    }
  }

  /** `new Sprite[length]` followed by `Array.Copy` of the entries that fit. */
  method Resized(source: array?<Option<SpriteId>>, length: nat) returns (a: array<Option<SpriteId>>)
    ensures fresh(a) && a.Length == length
    ensures forall i :: 0 <= i < length ==>
      a[i] == if source != null && i < source.Length then source[i] else None
  {
    a := new Option<SpriteId>[length](_ => None);
    if source != null {
      var copyLength := if source.Length < length then source.Length else length;
      var i := 0;
      while i < copyLength
        invariant 0 <= i <= copyLength
        invariant forall k :: 0 <= k < i ==> a[k] == source[k]
        invariant forall k :: i <= k < length ==> a[k] == None
      {
        a[i] := source[i];
        i := i + 1;
      }
    }
  }
}
