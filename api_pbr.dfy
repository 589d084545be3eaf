/**
 * The background PBR proxy: the last acknowledged values of a PBR block,
 * written only through the model kernel's mutation channel.
 */
module ApiPbr {
  import opened Options
  import opened Protocol

  /** A mutation request: the element, the property name and the new value. */
  datatype Mutation = Mutation(target: PbrMetallicRoughness, property: string, value: MutationValue)

  /** A request paired with how the foreground answered it. */
  datatype Exchange = Exchange(request: Mutation, outcome: Outcome)

  /** What `kernel.deserialize('texture-info', …)` builds from a serialized texture reference. */
  datatype TextureInfoProxy = TextureInfoProxy(kind: string, serialized: Json)

  /**
   * The background end of the mutation channel. The foreground's answer to a
   * request (acknowledgement, or rejection for a missing capability, an
   * unknown element or an unreachable context) is not determined here.
   */
  class ModelKernel {
    /** Every request issued so far, in order, with its outcome (a trace kept by the model). */
    ghost var exchanges: seq<Exchange>

    constructor ()
      ensures exchanges == []
    {
      exchanges := [];
    }

    function Deserialize(kind: string, serialized: Json): TextureInfoProxy
    {
      TextureInfoProxy(kind, serialized)
    }

    method Mutate(target: PbrMetallicRoughness, property: string, value: MutationValue)
      returns (outcome: Outcome)
      modifies this
      ensures exchanges == old(exchanges) + [Exchange(Mutation(target, property, value), outcome)]
    {
      outcome := *;
      exchanges := exchanges + [Exchange(Mutation(target, property, value), outcome)];
    }
  }

  class PbrMetallicRoughness {
    const kernel: ModelKernel
    var baseColorFactor: Rgba
    // An absent scalar is the `undefined` cached from a record that lacks it.
    var visible: Option<bool>
    var normalScale: Option<real>
    var doubleSide: Option<bool>
    const baseColorTexture: Option<TextureInfoProxy>
    const metallicRoughnessTexture: Option<TextureInfoProxy>

    /**
     * Caches the serialized record's scalars and colour; a texture proxy is
     * built exactly for each texture reference the record holds.
     */
    constructor (kernel: ModelKernel, serialized: SerializedPbr)
      ensures this.kernel == kernel
      ensures Visible() == serialized.visible && NormalScale() == serialized.normalScale
      ensures DoubleSide() == serialized.doubleSide && BaseColorFactor() == serialized.baseColorFactor
      ensures baseColorTexture.Some? <==> serialized.baseColorTexture.Some?
      ensures baseColorTexture.Some? ==>
        baseColorTexture.value == kernel.Deserialize("texture-info", serialized.baseColorTexture.value)
      ensures metallicRoughnessTexture.Some? <==> serialized.metallicRoughnessTexture.Some?
      ensures metallicRoughnessTexture.Some? ==>
        metallicRoughnessTexture.value
        == kernel.Deserialize("texture-info", serialized.metallicRoughnessTexture.value)
    {
      this.kernel := kernel;
      visible := serialized.visible;
      normalScale := serialized.normalScale;
      doubleSide := serialized.doubleSide;
      baseColorFactor := serialized.baseColorFactor;
      baseColorTexture :=
        if serialized.baseColorTexture.Some?
        then Some(kernel.Deserialize("texture-info", serialized.baseColorTexture.value))
        else None;
      metallicRoughnessTexture :=
        if serialized.metallicRoughnessTexture.Some?
        then Some(kernel.Deserialize("texture-info", serialized.metallicRoughnessTexture.value))
        else None;
    }

    function Visible(): Option<bool> reads this { visible }

    function DoubleSide(): Option<bool> reads this { doubleSide }

    function NormalScale(): Option<real> reads this { normalScale }

    function BaseColorFactor(): Rgba reads this { baseColorFactor }

    /**
     * Issues one `visible` mutation; the cache takes `value` only once the
     * mutation resolves, and no other cached value changes.
     */
    method SetVisible(value: bool) returns (outcome: Outcome)
      modifies this, kernel
      ensures kernel.exchanges
        == old(kernel.exchanges) + [Exchange(Mutation(this, "visible", BoolValue(value)), outcome)]
      ensures Visible() == if outcome.Resolved? then Some(value) else old(Visible())
      ensures DoubleSide() == old(DoubleSide()) && NormalScale() == old(NormalScale())
      ensures BaseColorFactor() == old(BaseColorFactor())
    {
      outcome := kernel.Mutate(this, "visible", BoolValue(value));
      if outcome.Resolved? {
        visible := Some(value);
      }
    }

    /** As `SetVisible`, for `doubleSide`. */
    method SetDoubleSide(value: bool) returns (outcome: Outcome)
      modifies this, kernel
      ensures kernel.exchanges
        == old(kernel.exchanges) + [Exchange(Mutation(this, "doubleSide", BoolValue(value)), outcome)]
      ensures DoubleSide() == if outcome.Resolved? then Some(value) else old(DoubleSide())
      ensures Visible() == old(Visible()) && NormalScale() == old(NormalScale())
      ensures BaseColorFactor() == old(BaseColorFactor())
    {
      outcome := kernel.Mutate(this, "doubleSide", BoolValue(value));
      if outcome.Resolved? {
        doubleSide := Some(value);
      }
    }

    /** As `SetVisible`, for `normalScale`. */
    method SetNormalScale(value: real) returns (outcome: Outcome)
      modifies this, kernel
      ensures kernel.exchanges
        == old(kernel.exchanges) + [Exchange(Mutation(this, "normalScale", NumberValue(value)), outcome)]
      ensures NormalScale() == if outcome.Resolved? then Some(value) else old(NormalScale())
      ensures Visible() == old(Visible()) && DoubleSide() == old(DoubleSide())
      ensures BaseColorFactor() == old(BaseColorFactor())
    {
      outcome := kernel.Mutate(this, "normalScale", NumberValue(value));
      if outcome.Resolved? {
        normalScale := Some(value);
      }
    }

    /**
     * As `SetVisible`, for `baseColorFactor`. The material-properties
     * capability it needs is checked on the far side of the kernel; a denial
     * is one of the rejections, and leaves the cache as it was.
     */
    method SetBaseColorFactor(color: Rgba) returns (outcome: Outcome)
      modifies this, kernel
      ensures kernel.exchanges
        == old(kernel.exchanges) + [Exchange(Mutation(this, "baseColorFactor", ColorValue(color)), outcome)]
      ensures BaseColorFactor() == if outcome.Resolved? then color else old(BaseColorFactor())
      ensures Visible() == old(Visible()) && DoubleSide() == old(DoubleSide())
      ensures NormalScale() == old(NormalScale())
    {
      outcome := kernel.Mutate(this, "baseColorFactor", ColorValue(color));
      if outcome.Resolved? {
        baseColorFactor := color;
      }
    }
  }

  /**
   * `await p.setNormalScale(first); await p.setNormalScale(second);`: the
   * second request is issued only if the first resolves (a rejection ends
   * the sequence), and the cache holds the last acknowledged value.
   */
  method SetNormalScaleTwice(p: PbrMetallicRoughness, first: real, second: real)
    returns (firstOutcome: Outcome, secondOutcome: Option<Outcome>)
    modifies p, p.kernel
    ensures secondOutcome.Some? <==> firstOutcome.Resolved?
    ensures p.kernel.exchanges == old(p.kernel.exchanges)
      + [Exchange(Mutation(p, "normalScale", NumberValue(first)), firstOutcome)]
      + (if secondOutcome.Some?
         then [Exchange(Mutation(p, "normalScale", NumberValue(second)), secondOutcome.value)]
         else [])
    ensures p.NormalScale() ==
      if secondOutcome == Some(Resolved) then Some(second)
      else if firstOutcome.Resolved? then Some(first)
      else old(p.NormalScale())
  {
    firstOutcome := p.SetNormalScale(first);
    secondOutcome := None;
    if firstOutcome.Resolved? {
      var outcome := p.SetNormalScale(second);
      secondOutcome := Some(outcome);
    }
  }
}
