/**
 * The foreground material facade: a glTF material, its correlated Three.js
 * materials, and the PBR facade created for it when the source has a PBR block.
 */
module FacadeMaterial {
  import opened Options
  import opened Protocol
  import opened Three
  import opened Gltf
  import FacadePbr

  /** The wire key under which the PBR block is nested. */
  const PbrKey: string := "pbrMetallicRoughness"

  /**
   * A material element. Being a datatype value, its PBR child reference is
   * fixed once the material is built.
   */
  datatype Material = Material(
    sourceObject: GltfMaterial,
    correlatedMaterials: set<MeshStandardMaterial>,
    pbrMetallicRoughness: Option<FacadePbr.PbrMetallicRoughness>)
  {
    /**
     * The wire record: the element's base record `base` (its `super.toJSON()`),
     * with the PBR child's record nested under `pbrMetallicRoughness` when
     * there is a child. `pbrBase` is the child's own base record.
     */
    function ToJson(base: JsonObject, pbrBase: JsonObject,
                    serializeTexture: FacadePbr.TextureInfo -> Json): (r: JsonObject)
      ensures pbrMetallicRoughness.Some? ==>
        PbrKey in r && r[PbrKey] == JObject(pbrMetallicRoughness.value.ToJson(pbrBase, serializeTexture))
      ensures pbrMetallicRoughness.None? ==> r == base
      ensures r.Keys == if pbrMetallicRoughness.Some? then base.Keys + {PbrKey} else base.Keys
      ensures forall k :: k in base && k != PbrKey ==> r[k] == base[k]
    {
      Put(base, PbrKey,
        if pbrMetallicRoughness.Some?
        then Some(JObject(pbrMetallicRoughness.value.ToJson(pbrBase, serializeTexture)))
        else None)
    }
  }

  /**
   * The constructor: the PBR child exists iff the source has a PBR block, and
   * it mirrors that block over the material's own correlated set.
   */
  method NewMaterial(material: GltfMaterial, correlatedMaterials: set<MeshStandardMaterial>)
    returns (m: Material)
    ensures m.sourceObject == material && m.correlatedMaterials == correlatedMaterials
    ensures m.pbrMetallicRoughness.Some? <==> material.pbrMetallicRoughness.Some?
    ensures m.pbrMetallicRoughness.Some? ==>
      && m.pbrMetallicRoughness.value.sourceObject == material.pbrMetallicRoughness.value
      && m.pbrMetallicRoughness.value.materials == correlatedMaterials
  {
    var pbr: Option<FacadePbr.PbrMetallicRoughness> := None;
    if material.pbrMetallicRoughness.Some? {
      var child := new FacadePbr.PbrMetallicRoughness(material.pbrMetallicRoughness.value, correlatedMaterials);
      pbr := Some(child);
    }
    m := Material(material, correlatedMaterials, pbr);
  }

  /**
   * The nested PBR record is the one the background proxy reads back, with
   * the child's scalars (absent where its source lacks them), its base
   * colour factor and no metallic-roughness texture.
   */
  lemma NestedPbrReadsBack(m: Material, base: JsonObject, pbrBase: JsonObject,
                           serializeTexture: FacadePbr.TextureInfo -> Json)
    requires m.pbrMetallicRoughness.Some?
    requires OptionalPbrKeys !! pbrBase.Keys
    requires m.pbrMetallicRoughness.value.baseColorTexture.Some? ==>
      serializeTexture(m.pbrMetallicRoughness.value.baseColorTexture.value) != JNull
    ensures var r := m.ToJson(base, pbrBase, serializeTexture);
      && PbrKey in r && r[PbrKey].JObject?
      && var p := m.pbrMetallicRoughness.value;
         ReadSerializedPbr(r[PbrKey].fields) == Some(SerializedPbr(
           p.Visible(), p.NormalScale(), p.DoubleSide(), p.BaseColorFactor(),
           if p.baseColorTexture.Some? then Some(serializeTexture(p.baseColorTexture.value)) else None,
           None))
  {
  }
}
