/** The glTF 2.0 source objects that the foreground facades mirror. */
module Gltf {
  import opened Options
  import opened Protocol

  /** A glTF `textureInfo`: the index of a texture and its texture-coordinate set. */
  datatype GltfTextureInfo = GltfTextureInfo(index: nat, texCoord: Option<nat>)

  /**
   * A glTF `pbrMetallicRoughness` block, with the `visible`, `doubleSide` and
   * `normalScale` fields this code base reads from it. Every field may be
   * missing from the source document.
   */
  datatype GltfPbr = GltfPbr(
    baseColorFactor: Option<Rgba>,
    baseColorTexture: Option<GltfTextureInfo>,
    metallicRoughnessTexture: Option<GltfTextureInfo>,
    visible: Option<bool>,
    doubleSide: Option<bool>,
    normalScale: Option<real>)

  /** A glTF `material`; only its PBR block is read by the facade. */
  datatype GltfMaterial = GltfMaterial(pbrMetallicRoughness: Option<GltfPbr>)
}
