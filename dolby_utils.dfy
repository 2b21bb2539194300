/** DolbyUtils, the controller object. It owns the current effect handle, seen together with
    the effect state it reaches, and the callback registration flag. The ghost `trace`
    records its outbound calls. Each method that changes state is proved to leave exactly
    the snapshot its function in ControllerSpec describes; the getters change nothing and,
    having no `modifies` clause, cannot run the lost-control check. */
module Controller {
  import opened Wrappers
  import A = DolbyAtmos
  import S = ControllerSpec
  import CompositeParams
  import ProfileNames
  import AudioEvents

  class DolbyUtils {
    var engine: A.Engine
    var callbacksRegistered: bool
    ghost var trace: seq<S.Call>

    ghost function Snap(): S.Snapshot
      reads this
    {
      S.Snapshot(engine, callbacksRegistered, trace)
    }

    ghost predicate Valid()
      reads this
    {
      S.Inv(Snap())
    }

    /** Creates the first handle; `effect` is the effect state that handle finds. */
    constructor (effect: A.Engine)
      requires A.Complete(effect.params)
      ensures Valid()
      ensures engine == effect.(handle := 0) && !callbacksRegistered
      ensures trace == [S.CreateEffect(0, S.EFFECT_PRIORITY, S.GLOBAL_SESSION)]
    {
      engine := effect.(handle := 0);
      callbacksRegistered := false;
      trace := [S.CreateEffect(0, S.EFFECT_PRIORITY, S.GLOBAL_SESSION)];
      S.ReplaySnoc([], S.CreateEffect(0, S.EFFECT_PRIORITY, S.GLOBAL_SESSION));
    }

    /** One write through the current handle. */
    method Issue(c: A.Command)
      requires Valid()
      modifies this
      ensures Valid() && Snap() == S.Issue(old(Snap()), c)
    {
      ghost var s0 := Snap();
      engine := A.Apply(engine, c);
      trace := trace + [S.Atmos(c)];
      assert Snap() == S.Issue(s0, c);
    }

    method CheckEffect()
      requires Valid()
      modifies this
      ensures Valid() && Snap() == S.CheckEffect(old(Snap()))
    {
      ghost var s0 := Snap();
      if !engine.hasControl {
        trace := trace + [S.ReleaseEffect(engine.handle)];
        engine := A.Recreate(engine);
        trace := trace + [S.CreateEffect(engine.handle, S.EFFECT_PRIORITY, S.GLOBAL_SESSION)];
      }
      assert Snap() == S.CheckEffect(s0);
    }

    method SetCurrentProfile(stored: Option<A.int32>)
      requires Valid()
      modifies this
      ensures Valid() && Snap() == S.SetCurrentProfile(old(Snap()), stored)
    {
      var on := GetDsOn();
      if !on {
        return;
      }
      var profile := S.ProfileIndex(stored);
      SetProfile(profile);
    }

    method RegisterCallbacks(register: bool)
      requires Valid()
      modifies this
      ensures Valid() && Snap() == S.RegisterCallbacks(old(Snap()), register)
    {
      ghost var s0 := Snap();
      if register && !callbacksRegistered {
        trace := trace + [S.RegisterPlaybackCallback];
        trace := trace + [S.RegisterAudioDeviceCallback];
        callbacksRegistered := true;
      } else if !register && callbacksRegistered {
        trace := trace + [S.UnregisterPlaybackCallback];
        trace := trace + [S.UnregisterAudioDeviceCallback];
        callbacksRegistered := false;
      }
      assert Snap() == S.RegisterCallbacks(s0, register);
    }

    method OnBootCompleted(stored: Option<A.int32>, onSpeaker: bool)
      requires Valid()
      modifies this
      ensures Valid() && Snap() == S.OnBootCompleted(old(Snap()), stored, onSpeaker)
    {
      var dsOn := GetDsOn();
      Issue(A.SetEnabled(dsOn));
      RegisterCallbacks(dsOn);
      if dsOn {
        SetCurrentProfile(stored);
      }
      var spkVirtEnabled := GetSpeakerVirtualizerEnabled();
      if onSpeaker && spkVirtEnabled {
        SetSpeakerVirtualizerEnabled(false);
        SetSpeakerVirtualizerEnabled(true);
      }
    }

    /** The playback callback: re-applies the profile when some player is started. */
    method OnPlaybackConfigChanged(configs: seq<AudioEvents.PlaybackConfiguration>, stored: Option<A.int32>)
      requires Valid()
      modifies this
      ensures Valid() && Snap() == S.OnPlaybackConfigChanged(old(Snap()), configs, stored)
    {
      var isPlaying := AudioEvents.IsPlaying(configs);
      if isPlaying {
        SetCurrentProfile(stored);
      }
    }

    method OnAudioDevicesAdded(stored: Option<A.int32>)
      requires Valid()
      modifies this
      ensures Valid() && Snap() == S.OnAudioDevicesAdded(old(Snap()), stored)
    {
      SetCurrentProfile(stored);
    }

    method OnAudioDevicesRemoved(stored: Option<A.int32>)
      requires Valid()
      modifies this
      ensures Valid() && Snap() == S.OnAudioDevicesRemoved(old(Snap()), stored)
    {
      SetCurrentProfile(stored);
    }

    method SetDsOn(on: bool, stored: Option<A.int32>)
      requires Valid()
      modifies this
      ensures Valid() && Snap() == S.SetDsOn(old(Snap()), on, stored)
    {
      CheckEffect();
      Issue(A.SetDsOn(on));
      RegisterCallbacks(on);
      if on {
        SetCurrentProfile(stored);
      }
    }

    method GetDsOn() returns (on: bool)
      ensures on == engine.dsOn
    {
      on := engine.dsOn;
    }

    method SetProfile(index: A.int32)
      requires Valid()
      modifies this
      ensures Valid() && Snap() == S.SetProfile(old(Snap()), index)
    {
      CheckEffect();
      Issue(A.SetProfile(index));
    }

    method GetProfile() returns (profile: A.int32)
      ensures profile == engine.profile
    {
      profile := engine.profile;
    }

    /** `values` and `entries` are the resource arrays of profile values and names; the
       entries array must reach the position where the profile's value is found. */
    method GetProfileName(values: seq<string>, entries: seq<string>) returns (name: Option<string>)
      requires ProfileNames.IndexOf(values, ProfileNames.DecimalString(engine.profile)) < |entries|
      ensures name == None <==> ProfileNames.DecimalString(engine.profile) !in values
      ensures name == ProfileNames.ProfileName(engine.profile, values, entries)
    {
      var profile := ProfileNames.DecimalString(engine.profile);
      var profileIndex := ProfileNames.IndexOf(values, profile);
      name := if profileIndex == -1 then None else Some(entries[profileIndex]);
    }

    method ResetProfileSpecificSettings(after: A.Params)
      requires Valid() && A.Complete(after)
      modifies this
      ensures Valid() && Snap() == S.ResetProfileSpecificSettings(old(Snap()), after)
    {
      CheckEffect();
      trace := trace + [S.ResetProfileSettings];
      engine := engine.(params := after);
    }

    method SetHeadphoneVirtualizerEnabled(enable: bool)
      requires Valid()
      modifies this
      ensures Valid() && Snap() == S.SetBoolParam(old(Snap()), A.HeadphoneVirtualizer, enable)
    {
      CheckEffect();
      Issue(A.SetDapParameterBool(A.HeadphoneVirtualizer, enable));
    }

    method GetHeadphoneVirtualizerEnabled() returns (enabled: bool)
      requires Valid()
      ensures enabled == A.BoolOf(engine, A.HeadphoneVirtualizer)
    {
      enabled := engine.params.bools[A.HeadphoneVirtualizer];
    }

    method SetSpeakerVirtualizerEnabled(enable: bool)
      requires Valid()
      modifies this
      ensures Valid() && Snap() == S.SetBoolParam(old(Snap()), A.SpeakerVirtualizer, enable)
    {
      CheckEffect();
      Issue(A.SetDapParameterBool(A.SpeakerVirtualizer, enable));
    }

    method GetSpeakerVirtualizerEnabled() returns (enabled: bool)
      requires Valid()
      ensures enabled == A.BoolOf(engine, A.SpeakerVirtualizer)
    {
      enabled := engine.params.bools[A.SpeakerVirtualizer];
    }

    method SetStereoWideningAmount(amount: A.int32)
      requires Valid()
      modifies this
      ensures Valid() && Snap() == S.SetIntParam(old(Snap()), A.StereoWideningAmount, amount)
    {
      CheckEffect();
      Issue(A.SetDapParameterInt(A.StereoWideningAmount, amount));
    }

    method GetStereoWideningAmount() returns (amount: A.int32)
      requires Valid()
      ensures amount == A.IntOf(engine, A.StereoWideningAmount)
    {
      amount := engine.params.ints[A.StereoWideningAmount];
    }

    method SetDialogueEnhancerAmount(amount: A.int32)
      requires Valid()
      modifies this
      ensures Valid() && Snap() == S.SetDialogueEnhancerAmount(old(Snap()), amount)
    {
      CheckEffect();
      var k := CompositeParams.EncodeDialogueEnhancer(amount);
      Issue(A.SetDapParameterBool(A.DialogueEnhancerEnable, k.enable));
      Issue(A.SetDapParameterInt(A.DialogueEnhancerAmount, k.amount));
    }

    /** The stored amount is read only when the enable flag is on. */
    method GetDialogueEnhancerAmount() returns (amount: A.int32)
      requires Valid()
      ensures amount == S.DialogueEnhancerAmountOf(engine)
      ensures !A.BoolOf(engine, A.DialogueEnhancerEnable) ==> amount == 0
    {
      var enabled := engine.params.bools[A.DialogueEnhancerEnable];
      amount := if enabled then engine.params.ints[A.DialogueEnhancerAmount] else 0;
    }

    method SetBassEnhancerEnabled(enable: bool)
      requires Valid()
      modifies this
      ensures Valid() && Snap() == S.SetBoolParam(old(Snap()), A.BassEnhancerEnable, enable)
    {
      CheckEffect();
      Issue(A.SetDapParameterBool(A.BassEnhancerEnable, enable));
    }

    method GetBassEnhancerEnabled() returns (enabled: bool)
      requires Valid()
      ensures enabled == A.BoolOf(engine, A.BassEnhancerEnable)
    {
      enabled := engine.params.bools[A.BassEnhancerEnable];
    }

    method SetVolumeLevelerEnabled(enable: bool)
      requires Valid()
      modifies this
      ensures Valid() && Snap() == S.SetVolumeLevelerEnabled(old(Snap()), enable)
    {
      CheckEffect();
      var k := CompositeParams.EncodeVolumeLeveler(enable);
      Issue(A.SetDapParameterBool(A.VolumeLevelerEnable, k.enable));
      Issue(A.SetDapParameterInt(A.VolumeLevelerAmount, k.amount));
    }

    method GetVolumeLevelerEnabled() returns (enabled: bool)
      requires Valid()
      ensures enabled == S.VolumeLevelerEnabledOf(engine)
      ensures enabled ==> A.IntOf(engine, A.VolumeLevelerAmount) == CompositeParams.VOLUME_LEVELER_AMOUNT
    {
      var enable := engine.params.bools[A.VolumeLevelerEnable];
      var amount := engine.params.ints[A.VolumeLevelerAmount];
      enabled := enable && amount == CompositeParams.VOLUME_LEVELER_AMOUNT;
    }
  }
}
