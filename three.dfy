/**
 * The part of a Three.js `MeshStandardMaterial` that the PBR facade reads and
 * writes. Texture objects are represented by an identity only.
 */
module Three {
  import opened Options

  /** The identity of a Three.js `Texture` object. */
  type TextureId = nat

  /** `THREE.FrontSide`, `THREE.BackSide` and `THREE.DoubleSide`. */
  datatype Side = FrontSide | BackSide | DoubleSide

  datatype Vector2 = Vector2(x: real, y: real)

  class MeshStandardMaterial {
    var visible: bool
    var side: Side
    var normalScale: Vector2
    /** Three.js `map`, the base-colour texture (`map` is a Dafny keyword). */
    var colorMap: Option<TextureId>
    var metalnessMap: Option<TextureId>

    constructor (visible: bool, side: Side, normalScale: Vector2,
                 colorMap: Option<TextureId>, metalnessMap: Option<TextureId>)
      ensures this.visible == visible && this.side == side && this.normalScale == normalScale
      ensures this.colorMap == colorMap && this.metalnessMap == metalnessMap
    {
      this.visible := visible;
      this.side := side;
      this.normalScale := normalScale;
      this.colorMap := colorMap;
      this.metalnessMap := metalnessMap;
    }
  }
}
