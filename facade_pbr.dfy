/**
 * The foreground PBR facade: one glTF `pbrMetallicRoughness` block mirrored
 * onto the set of Three.js materials that were created from it.
 */
module FacadePbr {
  import opened Options
  import opened Protocol
  import opened Three
  import opened Gltf

  /**
   * The foreground texture-info element: the glTF texture reference and the
   * set of Three.js textures correlated with it.
   */
  datatype TextureInfo = TextureInfo(sourceObject: GltfTextureInfo, textures: set<TextureId>)

  /** The non-null `map` textures of a set of materials. */
  ghost function ColorMaps(materials: set<MeshStandardMaterial>): set<TextureId>
    reads materials
  {
    set m | m in materials && m.colorMap.Some? :: m.colorMap.value
  }

  /** The non-null `metalnessMap` textures of a set of materials. */
  ghost function MetalnessMaps(materials: set<MeshStandardMaterial>): set<TextureId>
    reads materials
  {
    set m | m in materials && m.metalnessMap.Some? :: m.metalnessMap.value
  }

  /** The collected `map` textures are non-empty iff some material has a `map`. */
  lemma ColorMapsEmpty(materials: set<MeshStandardMaterial>)
    ensures ColorMaps(materials) == {} <==> forall m :: m in materials ==> m.colorMap.None?
  {
    if m :| m in materials && m.colorMap.Some? {
      assert m.colorMap.value in ColorMaps(materials);
    }
  }

  /** The collected `metalnessMap` textures are non-empty iff some material has one. */
  lemma MetalnessMapsEmpty(materials: set<MeshStandardMaterial>)
    ensures MetalnessMaps(materials) == {} <==> forall m :: m in materials ==> m.metalnessMap.None?
  {
    if m :| m in materials && m.metalnessMap.Some? {
      assert m.metalnessMap.value in MetalnessMaps(materials);
    }
  }

  /**
   * The constructor's scan of the correlated materials: the `map` textures
   * are collected when the source has a base colour texture, the
   * `metalnessMap` textures when it has a metallic-roughness texture.
   */
  method CollectTextureSets(source: GltfPbr, materials: set<MeshStandardMaterial>)
    returns (baseColorTextures: set<TextureId>, metallicRoughnessTextures: set<TextureId>)
    ensures baseColorTextures == if source.baseColorTexture.Some? then ColorMaps(materials) else {}
    ensures metallicRoughnessTextures ==
      if source.metallicRoughnessTexture.Some? then MetalnessMaps(materials) else {}
  {
    baseColorTextures, metallicRoughnessTextures := {}, {};
    var pending := materials;
    while pending != {}
      invariant pending <= materials
      invariant baseColorTextures ==
        if source.baseColorTexture.Some? then ColorMaps(materials - pending) else {}
      invariant metallicRoughnessTextures ==
        if source.metallicRoughnessTexture.Some? then MetalnessMaps(materials - pending) else {}
      decreases pending
    {
      var material :| material in pending;
      if source.baseColorTexture.Some? && material.colorMap.Some? {
        baseColorTextures := baseColorTextures + {material.colorMap.value};
      }
      if source.metallicRoughnessTexture.Some? && material.metalnessMap.Some? {
        metallicRoughnessTextures := metallicRoughnessTextures + {material.metalnessMap.value};
      }
      pending := pending - {material};
    }
  }

  class PbrMetallicRoughness {
    /** The glTF block this element mirrors. */
    const sourceObject: GltfPbr
    /** The correlated Three.js materials. */
    const materials: set<MeshStandardMaterial>
    const baseColorTexture: Option<TextureInfo>
    const metallicRoughnessTexture: Option<TextureInfo>

    constructor (pbrMetallicRoughness: GltfPbr, correlatedMaterials: set<MeshStandardMaterial>)
      ensures sourceObject == pbrMetallicRoughness && materials == correlatedMaterials
      ensures baseColorTexture.Some? <==>
        pbrMetallicRoughness.baseColorTexture.Some?
        && exists m :: m in correlatedMaterials && m.colorMap.Some?
      ensures baseColorTexture.Some? ==>
        baseColorTexture.value
        == TextureInfo(pbrMetallicRoughness.baseColorTexture.value, ColorMaps(correlatedMaterials))
      ensures metallicRoughnessTexture.Some? <==>
        pbrMetallicRoughness.metallicRoughnessTexture.Some?
        && exists m :: m in correlatedMaterials && m.metalnessMap.Some?
      ensures metallicRoughnessTexture.Some? ==>
        metallicRoughnessTexture.value
        == TextureInfo(pbrMetallicRoughness.metallicRoughnessTexture.value,
                       MetalnessMaps(correlatedMaterials))
    {
      var baseColorTextures, metallicRoughnessTextures :=
        CollectTextureSets(pbrMetallicRoughness, correlatedMaterials);
      ColorMapsEmpty(correlatedMaterials);
      MetalnessMapsEmpty(correlatedMaterials);
      sourceObject := pbrMetallicRoughness;
      materials := correlatedMaterials;
      baseColorTexture :=
        if |baseColorTextures| > 0
        then Some(TextureInfo(pbrMetallicRoughness.baseColorTexture.value, baseColorTextures))
        else None;
      metallicRoughnessTexture :=
        if |metallicRoughnessTextures| > 0
        then Some(TextureInfo(pbrMetallicRoughness.metallicRoughnessTexture.value,
                              metallicRoughnessTextures))
        else None;
    }

    /** The source's base colour factor, or the neutral colour when it has none. */
    function BaseColorFactor(): (c: Rgba)
      ensures sourceObject.baseColorFactor.Some? ==> c == sourceObject.baseColorFactor.value
      ensures sourceObject.baseColorFactor.None? ==> c == DefaultBaseColorFactor
    {
      if sourceObject.baseColorFactor.Some? then sourceObject.baseColorFactor.value
      else DefaultBaseColorFactor
    }

    // The getters read the source object, which no setter writes.
    function Visible(): Option<bool> { sourceObject.visible }

    function DoubleSide(): Option<bool> { sourceObject.doubleSide }

    function NormalScale(): Option<real> { sourceObject.normalScale }

    /** Direct mutation of this element is refused for every property and value. */
    method Mutate(property: string, value: MutationValue) returns (outcome: Outcome)
      ensures outcome.Rejected?
      ensures outcome.reason == "Cannot mutate " + property + " on PBRMetallicRoughness"
    {
      outcome := Rejected("Cannot mutate " + property + " on PBRMetallicRoughness");
    }

    /** Writes `visible` to every correlated material and nothing else. */
    method SetVisible(value: bool)
      modifies materials
      ensures forall m :: m in materials ==> m.visible == value
      ensures forall m :: m in materials ==>
        && m.side == old(m.side) && m.normalScale == old(m.normalScale)
        && m.colorMap == old(m.colorMap) && m.metalnessMap == old(m.metalnessMap)
    {
      var pending := materials;
      while pending != {}
        invariant pending <= materials
        invariant forall m :: m in materials - pending ==> m.visible == value
        invariant forall m :: m in materials ==>
          && m.side == old(m.side) && m.normalScale == old(m.normalScale)
          && m.colorMap == old(m.colorMap) && m.metalnessMap == old(m.metalnessMap)
        decreases pending
      {
        var material :| material in pending;
        material.visible := value;
        pending := pending - {material};
      }
    }

    /** Makes every correlated material double-sided, or front-sided when `isDouble` is false. */
    method SetDoubleSide(isDouble: bool)
      modifies materials
      ensures forall m :: m in materials ==> m.side == if isDouble then Side.DoubleSide else Side.FrontSide
      ensures forall m :: m in materials ==>
        && m.visible == old(m.visible) && m.normalScale == old(m.normalScale)
        && m.colorMap == old(m.colorMap) && m.metalnessMap == old(m.metalnessMap)
    {
      var pending := materials;
      while pending != {}
        invariant pending <= materials
        invariant forall m :: m in materials - pending ==>
          m.side == if isDouble then Side.DoubleSide else Side.FrontSide
        invariant forall m :: m in materials ==>
          && m.visible == old(m.visible) && m.normalScale == old(m.normalScale)
          && m.colorMap == old(m.colorMap) && m.metalnessMap == old(m.metalnessMap)
        decreases pending
      {
        var material :| material in pending;
        material.side := if isDouble then Side.DoubleSide else Side.FrontSide;
        pending := pending - {material};
      }
    }

    /** Gives every correlated material the normal scale `(value, value)`. */
    method SetNormalScale(value: real)
      modifies materials
      ensures forall m :: m in materials ==> m.normalScale == Vector2(value, value)
      ensures forall m :: m in materials ==>
        && m.visible == old(m.visible) && m.side == old(m.side)
        && m.colorMap == old(m.colorMap) && m.metalnessMap == old(m.metalnessMap)
    {
      var pending := materials;
      while pending != {}
        invariant pending <= materials
        invariant forall m :: m in materials - pending ==> m.normalScale == Vector2(value, value)
        invariant forall m :: m in materials ==>
          && m.visible == old(m.visible) && m.side == old(m.side)
          && m.colorMap == old(m.colorMap) && m.metalnessMap == old(m.metalnessMap)
        decreases pending
      {
        var material :| material in pending;
        material.normalScale := Vector2(value, value);
        pending := pending - {material};
      }
    }

    /**
     * The wire record: the element's base record `base` (its `super.toJSON()`)
     * with the base colour texture, the base colour factor (always, even the
     * neutral one), and whichever of `visible`, `normalScale` and `doubleSide`
     * the source holds. `serializeTexture` is the texture-info element's own
     * `toJSON()`.
     */
    function ToJson(base: JsonObject, serializeTexture: TextureInfo -> Json): (r: JsonObject)
      ensures SetsOrKeeps(r, base, "baseColorTexture",
        if baseColorTexture.Some? then Some(serializeTexture(baseColorTexture.value)) else None)
      ensures SetsOrKeeps(r, base, "baseColorFactor", Some(RgbaToJson(BaseColorFactor())))
      ensures SetsOrKeeps(r, base, "visible",
        if sourceObject.visible.Some? then Some(JBool(sourceObject.visible.value)) else None)
      ensures SetsOrKeeps(r, base, "normalScale",
        if sourceObject.normalScale.Some? then Some(JNumber(sourceObject.normalScale.value)) else None)
      ensures SetsOrKeeps(r, base, "doubleSide",
        if sourceObject.doubleSide.Some? then Some(JBool(sourceObject.doubleSide.value)) else None)
      ensures forall key :: key in base && key !in WrittenKeys ==> key in r && r[key] == base[key]
      ensures r.Keys <= base.Keys + WrittenKeys
    {
      var withTexture := Put(base, "baseColorTexture",
        if baseColorTexture.Some? then Some(serializeTexture(baseColorTexture.value)) else None);
      // BaseColorFactor() is never null, so the factor is always written.
      var withFactor := Put(withTexture, "baseColorFactor", Some(RgbaToJson(BaseColorFactor())));
      var withVisible := Put(withFactor, "visible",
        if Visible().Some? then Some(JBool(Visible().value)) else None);
      var withNormalScale := Put(withVisible, "normalScale",
        if NormalScale().Some? then Some(JNumber(NormalScale().value)) else None);
      Put(withNormalScale, "doubleSide",
        if DoubleSide().Some? then Some(JBool(DoubleSide().value)) else None)
    }
  }

  /** The keys `ToJson` may write over the base record. */
  const WrittenKeys: set<string> :=
    {"baseColorTexture", "baseColorFactor", "visible", "normalScale", "doubleSide"}

  /**
   * What the foreground serializes is what the background proxy reads: the
   * record reads back with the source's three scalars (absent where the
   * source lacks them), the getter's base colour factor, the serialized base
   * colour texture, and without any metallic-roughness texture.
   */
  lemma ToJsonReadsBack(p: PbrMetallicRoughness, base: JsonObject, serializeTexture: TextureInfo -> Json)
    requires OptionalPbrKeys !! base.Keys
    requires p.baseColorTexture.Some? ==> serializeTexture(p.baseColorTexture.value) != JNull
    ensures ReadSerializedPbr(p.ToJson(base, serializeTexture)) == Some(SerializedPbr(
      p.Visible(), p.NormalScale(), p.DoubleSide(), p.BaseColorFactor(),
      if p.baseColorTexture.Some? then Some(serializeTexture(p.baseColorTexture.value)) else None,
      None))
  {
  }

  /** A set is not seen through the getter, which keeps reading the source. */
  method SetVisibleThenRead(p: PbrMetallicRoughness, value: bool) returns (read: Option<bool>)
    modifies p.materials
    ensures forall m :: m in p.materials ==> m.visible == value
    ensures read == p.sourceObject.visible
    ensures p.sourceObject.visible != Some(value) ==> read != Some(value)
  {
    p.SetVisible(value);
    read := p.Visible();
  }

  /** As `SetVisibleThenRead`, for `doubleSide`. */
  method SetDoubleSideThenRead(p: PbrMetallicRoughness, isDouble: bool) returns (read: Option<bool>)
    modifies p.materials
    ensures forall m :: m in p.materials ==> m.side == if isDouble then Side.DoubleSide else Side.FrontSide
    ensures read == p.sourceObject.doubleSide
    ensures p.sourceObject.doubleSide != Some(isDouble) ==> read != Some(isDouble)
  {
    p.SetDoubleSide(isDouble);
    read := p.DoubleSide();
  }

  /** As `SetVisibleThenRead`, for `normalScale`. */
  method SetNormalScaleThenRead(p: PbrMetallicRoughness, value: real) returns (read: Option<real>)
    modifies p.materials
    ensures forall m :: m in p.materials ==> m.normalScale == Vector2(value, value)
    ensures read == p.sourceObject.normalScale
    ensures p.sourceObject.normalScale != Some(value) ==> read != Some(value)
  {
    p.SetNormalScale(value);
    read := p.NormalScale();
  }
}
