# 3DOM material mirroring: one material and its PBR block

This project models how 3DOM mirrors one glTF material and its
`pbrMetallicRoughness` block across the two contexts of a `<model-viewer>`
scene:

- **Foreground facade** (`FacadePbr`, `FacadeMaterial`). The facade holds the
  glTF source object and the *correlated set* of Three.js
  `MeshStandardMaterial`s built from it. Its constructor scans that set to
  collect the textures behind `baseColorTexture` and
  `metallicRoughnessTexture`. The `visible`, `doubleSide` and `normalScale`
  setters fan a value out to every material in the set. The getters read the
  glTF source object; `baseColorFactor` falls back to `[1, 1, 1, 1]`.
  `toJSON` builds the wire record field by field, and `mutate` rejects every
  request. A `Material` creates its PBR child only when the source material
  has a PBR block. The child shares the material's correlated set, and the
  material nests the child's record in its own `toJSON`.
- **Background proxy** (`ApiPbr`). The proxy caches `visible`, `normalScale`,
  `doubleSide` and `baseColorFactor` from the serialized record. It builds a
  texture-info proxy for each texture reference the record carries. Each
  `setX` sends one mutation through the model kernel and updates its cache
  only after that mutation resolves.
- **Wire types** (`Protocol`, `Gltf`, `Three`). These are JSON values, RGBA
  tuples, mutation payloads, how a promise settles, the typed serialized PBR
  record, the glTF source records, and the part of a Three.js material the
  facade touches.

The two sides are connected by `FacadePbr.ToJsonReadsBack` and
`FacadeMaterial.NestedPbrReadsBack`. The record the foreground serializes
reads back, as the background proxy's constructor input, with the
foreground's scalars and its base colour factor. A glTF block may lack
`visible`, `normalScale` or `doubleSide`. The facade then leaves that key
out, and the proxy caches `undefined` although the field's declared type is
`boolean` or `number`. The model keeps such a scalar as absent (`None`) on
the wire and in the proxy's cache.

Modelling choices:

- The Three.js material is a class with mutable fields, so the setters are
  methods with loops over `set<MeshStandardMaterial>`.
- The background proxy is a class whose setters modify it and the kernel.
- The material facade is a datatype, so its PBR reference cannot change
  after it is built.
- A wire record is a `map<string, Json>`.
- `super.toJSON()` (the element base class) is passed in as a `base` record.
- The texture-info element's `toJSON()` is passed in as a function.
- The kernel's answer to a mutation is left undetermined (`Resolved` or
  `Rejected`). The model's kernel records each request and its outcome in a
  ghost trace, so each setter's contract states the exact request it sent.

Behaviours of the code that the model keeps as they are:

- The facade setters never write to the glTF source object, which is a
  `const` here. A getter therefore does not reflect a preceding set, and
  `toJSON` keeps emitting the source's values rather than the ones last set.
- The facade's `toJSON` always emits `baseColorFactor`. An eliding
  serializer would omit the neutral `[1, 1, 1, 1]`; this one always writes
  it.
- The facade's `toJSON` never emits `metallicRoughnessTexture`. A
  background proxy built from that record therefore has no
  metallic-roughness texture proxy, even when the foreground has one
  (`ToJsonReadsBack`).
- The facade's `mutate` rejects every property, `baseColorFactor` included,
  although the background proxy offers `setBaseColorFactor`.
- The background setters do not check the material-properties capability
  themselves. A capability denial can only reach them as a rejection from
  the kernel.

## Model

| member | source | states |
|---|---|---|
| `Protocol.RgbaJsonRoundTrip` | packages/3dom/src/facade/three-js/pbr-metallic-roughness.ts:141-143 | a JSON value reads back as colour `c` exactly when it is the four-number encoding of `c` (both directions) |
| `Protocol.ReadSerializedPbr` | packages/3dom/src/api/pbr-metallic-roughness.ts:60-80 | a record reads as a serialized PBR block iff its colour is present and each scalar is either missing/null or of its declared type; each read field encodes back to the record's field, an absent scalar standing for a missing one; a texture reference is present iff the record holds a non-null one |
| `FacadePbr.CollectTextureSets` | packages/3dom/src/facade/three-js/pbr-metallic-roughness.ts:50-65 | the scan over the correlated set yields exactly the non-null `map`s when the source has a base colour texture (else nothing), and exactly the non-null `metalnessMap`s when it has a metallic-roughness texture (else nothing) |
| `FacadePbr.ColorMapsEmpty` | packages/3dom/src/facade/three-js/pbr-metallic-roughness.ts:67-70 | the collected `map` set is empty iff no correlated material has a `map` |
| `FacadePbr.MetalnessMapsEmpty` | packages/3dom/src/facade/three-js/pbr-metallic-roughness.ts:72-75 | the collected `metalnessMap` set is empty iff no correlated material has a `metalnessMap` |
| `FacadePbr.PbrMetallicRoughness.constructor` | packages/3dom/src/facade/three-js/pbr-metallic-roughness.ts:45-76 | `baseColorTexture` is non-null iff the source has one and some correlated material has a `map`, and then holds the source reference and exactly those `map`s; likewise `metallicRoughnessTexture` with `metalnessMap` |
| `FacadePbr.PbrMetallicRoughness.BaseColorFactor` | packages/3dom/src/facade/three-js/pbr-metallic-roughness.ts:79-82 | the source's factor when it has one, otherwise `[1, 1, 1, 1]`; never null |
| `FacadePbr.PbrMetallicRoughness.Mutate` | packages/3dom/src/facade/three-js/pbr-metallic-roughness.ts:92-100 | rejects every property and value with `Cannot mutate <property> on PBRMetallicRoughness`, and changes no state |
| `FacadePbr.PbrMetallicRoughness.SetVisible` | packages/3dom/src/facade/three-js/pbr-metallic-roughness.ts:102-106 | every correlated material ends with `visible == value`; no other material field changes, and no other object |
| `FacadePbr.PbrMetallicRoughness.SetDoubleSide` | packages/3dom/src/facade/three-js/pbr-metallic-roughness.ts:112-116 | every correlated material ends with side `DoubleSide` if `isDouble`, else `FrontSide`; no other material field changes, and no other object |
| `FacadePbr.PbrMetallicRoughness.SetNormalScale` | packages/3dom/src/facade/three-js/pbr-metallic-roughness.ts:122-126 | every correlated material ends with normal scale `(value, value)`; no other material field changes, and no other object |
| `FacadePbr.PbrMetallicRoughness.ToJson` | packages/3dom/src/facade/three-js/pbr-metallic-roughness.ts:133-157 | the record always holds `baseColorFactor` (the getter's colour); holds the serialized `baseColorTexture` iff that texture is non-null; copies `visible`, `normalScale`, `doubleSide` when the source has them; never writes `metallicRoughnessTexture`; every other key of the base record is kept unchanged and no other key is added |
| `FacadePbr.ToJsonReadsBack` | packages/3dom/src/facade/three-js/pbr-metallic-roughness.ts:133-157 | for every source block, the facade's record reads back as a serialized block with the source's scalars (absent where the source lacks them), the getter's colour, the serialized base colour texture and no metallic-roughness texture |
| `FacadePbr.SetVisibleThenRead` | packages/3dom/src/facade/three-js/pbr-metallic-roughness.ts:102-110 | after setting `visible` to `value`, every correlated material has it, while the getter still returns the source's `visible`, which differs from `value` whenever the source's did |
| `FacadePbr.SetDoubleSideThenRead` | packages/3dom/src/facade/three-js/pbr-metallic-roughness.ts:112-120 | after setting `doubleSide`, every correlated material has the matching side, while the getter still returns the source's `doubleSide` |
| `FacadePbr.SetNormalScaleThenRead` | packages/3dom/src/facade/three-js/pbr-metallic-roughness.ts:122-130 | after setting `normalScale`, every correlated material has `(value, value)`, while the getter still returns the source's `normalScale` |
| `FacadeMaterial.NewMaterial` | packages/3dom/src/facade/three-js/material.ts:35-46 | the PBR child exists iff the source material has a PBR block, mirrors that block, and is built over the material's own correlated set |
| `FacadeMaterial.Material.ToJson` | packages/3dom/src/facade/three-js/material.ts:52-59 | `pbrMetallicRoughness` is set to the child's record iff there is a child; otherwise the base record is returned as is; every other base key is kept and no other key is added |
| `FacadeMaterial.NestedPbrReadsBack` | packages/3dom/src/facade/three-js/material.ts:52-59 | the record nested under `pbrMetallicRoughness` reads back as the child's serialized block (its scalars, absent where its source lacks them; its colour; no metallic-roughness texture) |
| `ApiPbr.PbrMetallicRoughness.constructor` | packages/3dom/src/api/pbr-metallic-roughness.ts:60-81 | the cached `visible`, `normalScale`, `doubleSide` (each possibly absent) and `baseColorFactor` equal the record's; a texture-info proxy is deserialized for each texture reference iff the record holds it |
| `ApiPbr.PbrMetallicRoughness.SetVisible` | packages/3dom/src/api/pbr-metallic-roughness.ts:83-91 | issues exactly one `visible` mutation; the cache becomes `value` iff it resolves, stays as it was if rejected; no other cached value changes |
| `ApiPbr.PbrMetallicRoughness.SetDoubleSide` | packages/3dom/src/api/pbr-metallic-roughness.ts:93-101 | issues exactly one `doubleSide` mutation; the cache becomes `value` iff it resolves; no other cached value changes |
| `ApiPbr.PbrMetallicRoughness.SetNormalScale` | packages/3dom/src/api/pbr-metallic-roughness.ts:103-111 | issues exactly one `normalScale` mutation; the cache becomes `value` iff it resolves; no other cached value changes |
| `ApiPbr.PbrMetallicRoughness.SetBaseColorFactor` | packages/3dom/src/api/pbr-metallic-roughness.ts:114-138 | issues exactly one `baseColorFactor` mutation; the cache becomes `color` iff it resolves (a capability denial is a rejection); no other cached value changes |
| `ApiPbr.SetNormalScaleTwice` | packages/3dom/src/api/pbr-metallic-roughness.ts:103-111 | two awaited writes send their requests in order, the second only if the first resolved, and leave the last acknowledged value cached |

## Left out

- `packages/model-viewer/src/three-components/ARRenderer.ts`: WebXR session plumbing (XR requests, frame scheduling, pose and hit-test math, DOM queries) is not part of this model.
- The model kernel (`ModelKernel.mutate` and `deserialize`), the element base classes, `TextureInfo` and `ModelGraft` are not part of this model. Mutation outcomes are left undetermined, `deserialize` is an opaque constructor, and `super.toJSON()` and `TextureInfo.toJSON()` are parameters.
- Promises and event-loop scheduling: each setter returns how its promise settles. Interleaved, un-awaited writes are not modelled.
- The `console.log` calls in the background setters have no effect on state and are left out.
- `Object.freeze` and symbol-keyed private fields: ordinary fields are used. Fields the code never reassigns after construction are `const`.
- Floating point: colour channels and normal scales are `real`s that are only copied.
- Three.js internals: a material is reduced to `visible`, `side`, `normalScale`, `map` (named `colorMap`, as `map` is a Dafny keyword) and `metalnessMap`. A texture is reduced to an identity.
- The empty `instanceof RGBA` branch of the facade's `mutate` does nothing and is not modelled separately.
- Key order of the JSON records is not modelled: a record is a map.
- `FacadePbr.PbrMetallicRoughness.Visible`, `DoubleSide` and `NormalScale`: the facade getters return the source object's field and carry no contract of their own. Their behaviour after a set is stated by `SetVisibleThenRead`, `SetDoubleSideThenRead` and `SetNormalScaleThenRead`, and they feed `ToJson`.
- The background getters return their cached field and are modelled as reading functions; they appear only in the setters' contracts.
