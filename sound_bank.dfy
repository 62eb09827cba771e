/**
 * `SoundBank`: the serialized list of `SoundObject`s and the dictionary
 * `Initialize` builds from it, keyed by audio ID.  When two entries share an
 * ID the earlier one is kept.  Clips are loaded through `load`, which stands
 * for `Resources.Load<AudioClip>`: `None` when no clip has that resource name.
 */
module SoundBanks {
  import opened Wrappers
  import opened SoundData
  import opened SoundObjects

  /** What `GetSoundClip` gives for an entry: nothing for an unknown ID, else the loaded clip of its resource name. */
  function ClipFor(entry: Option<SoundObject>, load: string -> Option<AudioClip>): Option<AudioClip>
  {
    if entry.Some? then load(ResourceName(entry.value.audioFile)) else None
  }

  /** The audio IDs occurring in `sounds`. */
  ghost function AudioIds(sounds: seq<SoundObject>): set<string>
  {
    set i | 0 <= i < |sounds| :: sounds[i].audioID
  }

  /** The dictionary after `Initialize` has gone through `sounds`: an entry is added only for a new ID. */
  function FirstWins(sounds: seq<SoundObject>): (index: map<string, SoundObject>)
    ensures index.Keys == AudioIds(sounds)
  {
    if sounds == [] then map[]
    else
      var earlier := FirstWins(sounds[..|sounds| - 1]);
      var last := sounds[|sounds| - 1];
      assert AudioIds(sounds) == AudioIds(sounds[..|sounds| - 1]) + {last.audioID} by {
        assert forall i :: 0 <= i < |sounds| - 1 ==> sounds[..|sounds| - 1][i] == sounds[i];
      }
      if last.audioID in earlier then earlier else earlier[last.audioID := last]
  }

  /** Every ID maps to the first entry carrying it. */
  lemma {:induction false} FirstWinsKeepsFirst(sounds: seq<SoundObject>, i: nat)
    requires i < |sounds|
    requires forall j :: 0 <= j < i ==> sounds[j].audioID != sounds[i].audioID
    ensures FirstWins(sounds)[sounds[i].audioID] == sounds[i]
    decreases |sounds|
  {
    var init := sounds[..|sounds| - 1];
    var last := sounds[|sounds| - 1];
    if i < |sounds| - 1 {
      FirstWinsKeepsFirst(init, i);
      assert sounds[i].audioID in FirstWins(init);
    } else {
      assert last.audioID !in AudioIds(init) by {
        forall j | 0 <= j < |init|
          ensures init[j].audioID != last.audioID
        {
          assert init[j] == sounds[j];
        }
      }
    }
  }

  class SoundBank {
    /** `_sounds`: the serialized entries, never changed by code. */
    const sounds: seq<SoundObject>
    /** `_bank`: audio ID to entry. */
    var bank: map<string, SoundObject>

    /** Every entry's cached resource name is empty or right. */
    ghost predicate Valid()
      reads this, set i | 0 <= i < |sounds| :: sounds[i]
    {
      forall i :: 0 <= i < |sounds| ==> sounds[i].Valid()
    }

    /** A bank as loaded from its asset: the list as serialized, the dictionary still empty. */
    constructor (sounds: seq<SoundObject>)
      ensures this.sounds == sounds && bank == map[]
    {
      this.sounds := sounds;
      bank := map[];
    }

    /** `Initialize`: clear the dictionary, then add each entry whose ID is not there yet. */
    method Initialize()
      modifies this
      ensures bank == FirstWins(sounds)
    {
      bank := map[];
      for i := 0 to |sounds|
        invariant bank == FirstWins(sounds[..i])
      {
        assert sounds[..i + 1][..i] == sounds[..i];
        if sounds[i].audioID !in bank {
          bank := bank[sounds[i].audioID := sounds[i]];
        }
      }
      assert sounds[..|sounds|] == sounds;
    }

    /** `GetSoundObject`: the entry for `soundId`, or `None` (C# `null`). */
    function GetSoundObject(soundId: string): (r: Option<SoundObject>)
      reads this
    {
      if soundId in bank then Some(bank[soundId]) else None
    }

    /**
     * `GetSoundClip`: nothing for an unknown ID, otherwise whatever loading
     * the entry's resource name gives; that computes the entry's cached name.
     */
    method GetSoundClip(soundId: string, load: string -> Option<AudioClip>) returns (clip: Option<AudioClip>)
      requires soundId in bank ==> bank[soundId].Valid()
      modifies if soundId in bank then {bank[soundId]} else {}
      ensures bank == old(bank)
      ensures soundId in bank ==> bank[soundId].Valid()
      ensures clip == ClipFor(GetSoundObject(soundId), load)
    {
      var soundObject := GetSoundObject(soundId);
      if soundObject.Some? {
        var name := soundObject.value.GetAudioFileName();
        return load(name);
      }
      return None;
    }
  }

  /** The position of the first entry carrying `id`. */
  ghost function FirstWith(sounds: seq<SoundObject>, id: string): (i: nat)
    requires id in AudioIds(sounds)
    ensures i < |sounds| && sounds[i].audioID == id
    ensures forall j :: 0 <= j < i ==> sounds[j].audioID != id
  {
    if sounds[0].audioID == id then 0
    else
      assert id in AudioIds(sounds[1..]) by {
        var k :| 0 <= k < |sounds| && sounds[k].audioID == id;
        assert sounds[1..][k - 1] == sounds[k];
      }
      1 + FirstWith(sounds[1..], id)
  }

  /** After `Initialize`, an ID is found exactly when some entry carries it, and then it is the first such entry. */
  lemma GetSoundObjectFindsFirst(b: SoundBank, id: string)
    requires b.bank == FirstWins(b.sounds)
    ensures b.GetSoundObject(id).Some? <==> id in AudioIds(b.sounds)
    ensures b.GetSoundObject(id).Some? ==> b.GetSoundObject(id).value == b.sounds[FirstWith(b.sounds, id)]
  {
    if id in b.bank {
      FirstWinsKeepsFirst(b.sounds, FirstWith(b.sounds, id));
    }
  }
}
