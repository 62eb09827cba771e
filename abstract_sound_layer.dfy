/**
 * `AbstractSoundLayer`: the `_mute` and `_pause` flags every layer has, and
 * the base `MuteLayer`/`PauseLayer` that only set them.  Both layer kinds
 * hold these flags and call the base setters first.
 */
module AbstractSoundLayers {

  datatype LayerFlags = LayerFlags(mute: bool, pause: bool)

  /** A new layer: neither muted nor paused. */
  function NewLayerFlags(): (f: LayerFlags)
    ensures !f.mute && !f.pause
  {
    LayerFlags(false, false)
  }

  /** The base `MuteLayer`: the mute flag becomes `mute`, the pause flag stays. */
  function WithMute(f: LayerFlags, mute: bool): (r: LayerFlags)
    ensures r.mute == mute && r.pause == f.pause
  {
    f.(mute := mute)
  }

  /** The base `PauseLayer`: the pause flag becomes `pause`, the mute flag stays. */
  function WithPause(f: LayerFlags, pause: bool): (r: LayerFlags)
    ensures r.pause == pause && r.mute == f.mute
  {
    f.(pause := pause)
  }
}
