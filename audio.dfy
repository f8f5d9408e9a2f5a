/**
 * An audio layer's volume setters (src/features/videos/audio/index.ts). The
 * attributes of every layer live in the composition; an audio layer writes its
 * own entry there.
 */
module AudioFeature {
  import opened Wrappers
  import opened JsValues
  import LayerValidation

  /** The composition's per-layer attribute maps, keyed by layer id. */
  class Composition {
    var attributes: map<string, map<string, Value>>

    constructor(attributes: map<string, map<string, Value>>)
      ensures this.attributes == attributes
    {
      this.attributes := attributes;
    }
  }

  /** The attribute store after layer `id` has `key` set to `value`; a layer without attributes starts from none. */
  function WriteAttribute(store: map<string, map<string, Value>>, id: string, key: string, value: Value)
    : (r: map<string, map<string, Value>>)
    ensures id in r && Get(r[id], key) == value
    ensures forall other :: other != id ==> (other in r <==> other in store) && (other in store ==> r[other] == store[other])
    ensures forall k :: k != key ==> Get(r[id], k) == (if id in store then Get(store[id], k) else Undefined)
  {
    store[id := (if id in store then store[id] else map[])[key := value]]
  }

  /** The volume that is stored for a requested one: clamped to [0, 1]. */
  function ClampVolume(volume: real): (r: real)
    ensures 0.0 <= r <= 1.0
    ensures 0.0 <= volume <= 1.0 ==> r == volume
    ensures volume > 1.0 ==> r == 1.0
    ensures volume < 0.0 ==> r == 0.0
  {
    if volume > 1.0 then 1.0 else if volume < 0.0 then 0.0 else volume
  }

  /**
   * What `setVolume` does with its argument: a missing volume fails the presence
   * check (the failure is caught and logged, and nothing is written); any number
   * is clamped and stored.
   */
  function SetVolumeOutcome(volume: Option<real>): (r: Result<real, LayerValidation.ValidationError>)
    ensures r.Failure? <==> volume.None?
    ensures r.Failure? ==> r.error == LayerValidation.Required(LayerValidation.Field("volume"))
    ensures r.Success? ==> 0.0 <= r.value <= 1.0
    ensures r.Success? && 0.0 <= volume.value <= 1.0 ==> r.value == volume.value
  {
    match volume
    case None => Failure(LayerValidation.Required(LayerValidation.Field("volume")))
    case Some(v) => Success(ClampVolume(v))
  }

  class Audio {
    const id: string
    const composition: Composition

    constructor(composition: Composition, id: string)
      ensures this.composition == composition && this.id == id
    {
      this.composition := composition;
      this.id := id;
    }

    /** `Media._updateAttribute`: write one attribute of this layer, return the layer. */
    method UpdateAttribute(key: string, value: Value) returns (self: Audio)
      modifies composition
      ensures self == this
      ensures composition.attributes == WriteAttribute(old(composition.attributes), id, key, value)
    {
      composition.attributes := WriteAttribute(composition.attributes, id, key, value);
      self := this;
    }

    /**
     * `setVolume`: returns the layer after storing the clamped volume, or
     * nothing (void) when the presence check failed, in which case the store is
     * untouched.
     */
    method SetVolume(volume: Option<real>) returns (r: Option<Audio>)
      modifies composition
      ensures r.Some? <==> SetVolumeOutcome(volume).Success?
      ensures r.Some? ==> r.value == this
      ensures SetVolumeOutcome(volume).Success? ==>
        composition.attributes ==
          WriteAttribute(old(composition.attributes), id, "volume", Num(SetVolumeOutcome(volume).value))
      ensures SetVolumeOutcome(volume).Failure? ==> composition.attributes == old(composition.attributes)
    {
      var presence := LayerValidation.ValidatePresenceOf(LayerValidation.Field("volume"), if volume.Some? then Num(volume.value) else Undefined);
      if presence.Some? {
        // the thrown validation error is caught and logged; nothing is written
        r := None;
        return;
      }
      var newVolume := volume.value;
      if volume.value > 1.0 {
        newVolume := 1.0;
      } else if volume.value < 0.0 {
        newVolume := 0.0;
      }
      var self := UpdateAttribute("volume", Num(newVolume));
      r := Some(self);
    }

    /** `setMuted`: stores volume 0 whatever it was before. */
    method SetMuted() returns (self: Audio)
      modifies composition
      ensures self == this
      ensures composition.attributes == WriteAttribute(old(composition.attributes), id, "volume", Num(0.0))
    {
      self := UpdateAttribute("volume", Num(0.0));
    }
  }
}
