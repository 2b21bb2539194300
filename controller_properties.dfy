/** What the controller promises, stated over the snapshot functions of ControllerSpec.
    The methods of Controller.DolbyUtils are proved equal to those functions, so every
    property here holds of the object too. */
module ControllerProperties {
  import opened Wrappers
  import A = DolbyAtmos
  import opened ControllerSpec
  import CompositeParams
  import AudioEvents

  /** None of `calls` subscribes or unsubscribes a callback. */
  predicate SubscribesNothing(calls: seq<Call>) {
    forall i :: 0 <= i < |calls| ==> !IsSubscription(calls[i])
  }

  /** A write to the speaker virtualizer. */
  predicate WritesSpeakerVirtualizer(c: Call) {
    c.Atmos? && c.command.SetDapParameterBool? && c.command.param == A.SpeakerVirtualizer
  }

  /** The registration flag agrees with the Dolby master switch. */
  predicate Synced(s: Snapshot) {
    s.registered == s.engine.dsOn
  }

  /** The flag ends equal to the request; callbacks are subscribed only on a change to
      true and unsubscribed only on a change to false; a repeated request adds nothing;
      the audio manager never sees a double registration or unregistration. */
  lemma RegisterCallbacksOnChange(s: Snapshot, register: bool)
    requires Inv(s)
    ensures var r := RegisterCallbacks(s, register);
      && r.registered == register
      && r.engine == s.engine
      && r.trace == s.trace + (if register && !s.registered then [RegisterPlaybackCallback, RegisterAudioDeviceCallback]
                               else if !register && s.registered then [UnregisterPlaybackCallback, UnregisterAudioDeviceCallback]
                               else [])
      && RegisterCallbacks(r, register) == r
      && Replay(r.trace) == Some(Subscriptions(register, register))
  {
  }

  /** A handle with control is kept; otherwise it is released once and replaced by the next
      handle, which holds control. The effect state and the flag are untouched, and a
      second check right after does nothing. */
  lemma CheckEffectRecovers(s: Snapshot)
    ensures var r := CheckEffect(s);
      && r.engine.hasControl && A.SameEffect(r.engine, s.engine) && r.registered == s.registered
      && (s.engine.hasControl ==> r == s)
      && (!s.engine.hasControl ==>
            r.engine.handle == s.engine.handle + 1 &&
            r.trace == s.trace + [ReleaseEffect(s.engine.handle),
                                  CreateEffect(s.engine.handle + 1, EFFECT_PRIORITY, GLOBAL_SESSION)])
      && CheckEffect(r) == r
  {
  }

  /** Over the whole history no handle is released twice, and the handle in use has not
      been released. */
  lemma ReleasedAtMostOnce(s: Snapshot, i: nat, j: nat)
    requires Inv(s)
    requires i < |s.trace| && j < |s.trace| && s.trace[i].ReleaseEffect? && s.trace[j].ReleaseEffect?
    requires s.trace[i].handle == s.trace[j].handle
    ensures i == j && s.trace[i].handle != s.engine.handle
  {
  }

  /** With the master switch off nothing happens; with it on, exactly one profile write
      follows the lost-control check, selecting the stored profile or profile 0. */
  lemma SetCurrentProfileGated(s: Snapshot, stored: Option<A.int32>)
    ensures !s.engine.dsOn ==> SetCurrentProfile(s, stored) == s
    ensures s.engine.dsOn ==>
      var r := SetCurrentProfile(s, stored);
      && r.trace == CheckEffect(s).trace + [Atmos(A.SetProfile(ProfileIndex(stored)))]
      && r.engine.profile == ProfileIndex(stored)
      && (stored == None ==> r.engine.profile == DEFAULT_PROFILE)
      && r.engine.dsOn && r.engine.params == s.engine.params && r.registered == s.registered
  {
  }

  /** The flag and the master switch both end equal to the request; switching on
      re-applies the stored profile as the last call. */
  lemma SetDsOnSyncs(s: Snapshot, on: bool, stored: Option<A.int32>)
    ensures var r := SetDsOn(s, on, stored);
      && r.registered == on && r.engine.dsOn == on && Synced(r)
      && r.engine.params == s.engine.params
      && (on ==> r.engine.profile == ProfileIndex(stored) &&
                 r.trace[|r.trace| - 1] == Atmos(A.SetProfile(ProfileIndex(stored))))
      && (!on ==> r.engine.profile == s.engine.profile)
  {
  }

  /** Repeating the same request subscribes and unsubscribes nothing. */
  lemma SetDsOnRepeatedSubscribesNothing(s: Snapshot, on: bool, stored: Option<A.int32>)
    ensures var r1 := SetDsOn(s, on, stored);
      var r2 := SetDsOn(r1, on, stored);
      r1.trace <= r2.trace && SubscribesNothing(r2.trace[|r1.trace|..])
  {
    var r1 := SetDsOn(s, on, stored);
    SetDsOnSyncs(s, on, stored);
    var c := CheckEffect(r1);
    assert c == r1;
    var switched := RegisterCallbacks(Issue(c, A.SetDsOn(on)), on);
    assert switched.trace == r1.trace + [Atmos(A.SetDsOn(on))];
    var r2 := SetDsOn(r1, on, stored);
    if on {
      assert switched.engine.dsOn && switched.engine.hasControl;
      assert r2.trace == switched.trace + [Atmos(A.SetProfile(ProfileIndex(stored)))];
      assert r2.trace[|r1.trace|..] == [Atmos(A.SetDsOn(on)), Atmos(A.SetProfile(ProfileIndex(stored)))];
    } else {
      assert r2.trace[|r1.trace|..] == [Atmos(A.SetDsOn(on))];
    }
  }

  /** Once switched off, neither a playback change nor a device change touches anything. */
  lemma SwitchedOffIgnoresEvents(
    s: Snapshot, configs: seq<AudioEvents.PlaybackConfiguration>, stored: Option<A.int32>)
    ensures var off := SetDsOn(s, false, stored);
      && !off.registered
      && OnPlaybackConfigChanged(off, configs, stored) == off
      && OnAudioDevicesAdded(off, stored) == off
      && OnAudioDevicesRemoved(off, stored) == off
  {
    SetDsOnSyncs(s, false, stored);
  }

  /** A playback change re-applies the profile exactly when some player is started. */
  lemma PlaybackReappliesWhenStarted(
    s: Snapshot, configs: seq<AudioEvents.PlaybackConfiguration>, stored: Option<A.int32>)
    ensures (exists i :: 0 <= i < |configs| && configs[i].playerState == AudioEvents.Started) ==>
      OnPlaybackConfigChanged(s, configs, stored) == SetCurrentProfile(s, stored)
    ensures (forall i :: 0 <= i < |configs| ==> configs[i].playerState != AudioEvents.Started) ==>
      OnPlaybackConfigChanged(s, configs, stored) == s
  {
  }

  /** Adding or removing a device always re-applies the profile. */
  lemma DeviceChangesReapply(s: Snapshot, stored: Option<A.int32>)
    ensures OnAudioDevicesAdded(s, stored) == SetCurrentProfile(s, stored)
    ensures OnAudioDevicesRemoved(s, stored) == SetCurrentProfile(s, stored)
    ensures s.engine.dsOn ==> OnAudioDevicesAdded(s, stored).engine.profile == ProfileIndex(stored)
    ensures s.engine.dsOn ==> OnAudioDevicesRemoved(s, stored).engine.profile == ProfileIndex(stored)
  {
  }

  /** `setProfile` stores the index, whatever the handle's control was; the master
      switch, the parameters and the flag stay as they were, and the only calls are the
      lost-control check's and one profile write. */
  lemma SetProfileStores(s: Snapshot, index: A.int32)
    ensures var r := SetProfile(s, index);
      && r.engine.profile == index
      && r.engine.dsOn == s.engine.dsOn && r.engine.enabled == s.engine.enabled
      && r.engine.params == s.engine.params && r.registered == s.registered
      && r.trace == CheckEffect(s).trace + [Atmos(A.SetProfile(index))]
      && (s.engine.hasControl ==> r.trace == s.trace + [Atmos(A.SetProfile(index))])
      && (!s.engine.hasControl ==>
            r.trace == s.trace + [ReleaseEffect(s.engine.handle),
                                  CreateEffect(s.engine.handle + 1, EFFECT_PRIORITY, GLOBAL_SESSION),
                                  Atmos(A.SetProfile(index))])
  {
  }

  /** A boolean setter stores its value, whatever the handle's control was, and changes no
      other parameter. */
  lemma BoolSetterStores(s: Snapshot, p: A.DsParam, b: bool)
    requires Inv(s)
    ensures var r := SetBoolParam(s, p, b);
      && A.Complete(r.engine.params)
      && A.BoolOf(r.engine, p) == b
      && (forall q :: q != p ==> A.BoolOf(r.engine, q) == A.BoolOf(s.engine, q))
      && r.engine.params.ints == s.engine.params.ints
      && r.engine.dsOn == s.engine.dsOn && r.engine.profile == s.engine.profile
      && r.engine.enabled == s.engine.enabled && r.registered == s.registered
  {
    A.ApplyStores(CheckEffect(s).engine, A.SetDapParameterBool(p, b));
  }

  /** An integer setter stores its value and changes no other parameter. */
  lemma IntSetterStores(s: Snapshot, p: A.DsParam, v: A.int32)
    requires Inv(s)
    ensures var r := SetIntParam(s, p, v);
      && A.Complete(r.engine.params)
      && A.IntOf(r.engine, p) == v
      && (forall q :: q != p ==> A.IntOf(r.engine, q) == A.IntOf(s.engine, q))
      && r.engine.params.bools == s.engine.params.bools
      && r.engine.dsOn == s.engine.dsOn && r.engine.profile == s.engine.profile
      && r.engine.enabled == s.engine.enabled && r.registered == s.registered
  {
    A.ApplyStores(CheckEffect(s).engine, A.SetDapParameterInt(p, v));
  }

  /** A lost-control check followed by one boolean and one integer write: both read back as
      written and nothing else changes. */
  lemma PairSetterStores(s: Snapshot, p: A.DsParam, b: bool, q: A.DsParam, v: A.int32)
    requires Inv(s)
    ensures var r := Issue(Issue(CheckEffect(s), A.SetDapParameterBool(p, b)), A.SetDapParameterInt(q, v));
      && A.Complete(r.engine.params)
      && A.BoolOf(r.engine, p) == b && A.IntOf(r.engine, q) == v
      && (forall d :: d != p ==> A.BoolOf(r.engine, d) == A.BoolOf(s.engine, d))
      && (forall d :: d != q ==> A.IntOf(r.engine, d) == A.IntOf(s.engine, d))
      && r.engine.dsOn == s.engine.dsOn && r.engine.profile == s.engine.profile
      && r.engine.enabled == s.engine.enabled && r.registered == s.registered
  {
    var c := CheckEffect(s);
    var e1 := A.Apply(c.engine, A.SetDapParameterBool(p, b));
    A.ApplyStores(c.engine, A.SetDapParameterBool(p, b));
    A.ApplyStores(e1, A.SetDapParameterInt(q, v));
  }

  /** Dialogue enhancer: the flag is written as amount > 0 and the amount as given; reading
      back gives the amount when it is not negative and 0 otherwise. Nothing else changes. */
  lemma DialogueEnhancerSetThenGet(s: Snapshot, amount: A.int32)
    requires Inv(s)
    ensures var r := SetDialogueEnhancerAmount(s, amount);
      && A.Complete(r.engine.params)
      && A.BoolOf(r.engine, A.DialogueEnhancerEnable) == (amount > 0)
      && A.IntOf(r.engine, A.DialogueEnhancerAmount) == amount
      && DialogueEnhancerAmountOf(r.engine) == (if amount > 0 then amount else 0)
      && (DialogueEnhancerAmountOf(r.engine) == amount <==> amount >= 0)
      && (forall q :: q != A.DialogueEnhancerEnable ==> A.BoolOf(r.engine, q) == A.BoolOf(s.engine, q))
      && (forall q :: q != A.DialogueEnhancerAmount ==> A.IntOf(r.engine, q) == A.IntOf(s.engine, q))
      && r.engine.dsOn == s.engine.dsOn && r.engine.profile == s.engine.profile
      && r.engine.enabled == s.engine.enabled && r.registered == s.registered
  {
    PairSetterStores(s, A.DialogueEnhancerEnable, amount > 0, A.DialogueEnhancerAmount, amount);
    CompositeParams.DialogueEnhancerRoundTrip(amount);
  }

  /** Volume leveler: the flag and the amount 2, or off and 0; reading back gives the
      boolean that was set. Nothing else changes. */
  lemma VolumeLevelerSetThenGet(s: Snapshot, on: bool)
    requires Inv(s)
    ensures var r := SetVolumeLevelerEnabled(s, on);
      && A.Complete(r.engine.params)
      && A.BoolOf(r.engine, A.VolumeLevelerEnable) == on
      && A.IntOf(r.engine, A.VolumeLevelerAmount) == (if on then CompositeParams.VOLUME_LEVELER_AMOUNT else 0)
      && VolumeLevelerEnabledOf(r.engine) == on
      && (forall q :: q != A.VolumeLevelerEnable ==> A.BoolOf(r.engine, q) == A.BoolOf(s.engine, q))
      && (forall q :: q != A.VolumeLevelerAmount ==> A.IntOf(r.engine, q) == A.IntOf(s.engine, q))
      && r.engine.dsOn == s.engine.dsOn && r.engine.profile == s.engine.profile
      && r.engine.enabled == s.engine.enabled && r.registered == s.registered
  {
    var k := CompositeParams.EncodeVolumeLeveler(on);
    PairSetterStores(s, A.VolumeLevelerEnable, on, A.VolumeLevelerAmount, k.amount);
    CompositeParams.VolumeLevelerRoundTrip(on);
  }

  /** None of the calls from position `k` on writes the speaker virtualizer. */
  predicate SpeakerVirtualizerUntouched(t: seq<Call>, k: nat) {
    forall i :: k <= i < |t| ==> !WritesSpeakerVirtualizer(t[i])
  }

  /** The start of boot: the effect's enable switch is written and the callbacks follow the
      master switch. Nothing else changes, and the speaker virtualizer is not written. */
  lemma BootSwitchesEffect(s: Snapshot)
    ensures var dsOn := s.engine.dsOn;
      var switched := RegisterCallbacks(Issue(s, A.SetEnabled(dsOn)), dsOn);
      && switched.registered == dsOn && switched.engine.dsOn == dsOn
      && switched.engine.params == s.engine.params && switched.engine.profile == s.engine.profile
      && (s.engine.hasControl ==> switched.engine.enabled == dsOn)
      && s.trace <= switched.trace && SpeakerVirtualizerUntouched(switched.trace, |s.trace|)
  {
    var dsOn := s.engine.dsOn;
    var issued := Issue(s, A.SetEnabled(dsOn));
    assert issued.trace == s.trace + [Atmos(A.SetEnabled(dsOn))];
    var switched := RegisterCallbacks(issued, dsOn);
    assert switched.trace == issued.trace || |switched.trace| == |issued.trace| + 2;
  }

  /** First half of boot: the flag follows the master switch, the profile is re-applied
      when it is on, the effect's enable switch follows it when the handle still holds
      control, and no parameter is written. */
  lemma RestoreAtBootSyncs(s: Snapshot, stored: Option<A.int32>)
    ensures var r := RestoreAtBoot(s, stored);
      && r.registered == s.engine.dsOn && r.engine.dsOn == s.engine.dsOn && Synced(r)
      && r.engine.params == s.engine.params
      && (s.engine.dsOn ==> r.engine.profile == ProfileIndex(stored))
      && (s.engine.hasControl ==> r.engine.enabled == s.engine.dsOn)
      && s.trace <= r.trace && SpeakerVirtualizerUntouched(r.trace, |s.trace|)
  {
    BootSwitchesEffect(s);
    var switched := RegisterCallbacks(Issue(s, A.SetEnabled(s.engine.dsOn)), s.engine.dsOn);
    if s.engine.dsOn {
      SetProfileStores(switched, ProfileIndex(stored));
    }
  }

  /** Second half of boot: the speaker virtualizer ends as it was read, and is not written
      at all unless the route is the speaker and it reads as on. */
  lemma SpeakerVirtualizerKept(s: Snapshot, onSpeaker: bool)
    requires Inv(s)
    ensures A.BoolOf(ReenableSpeakerVirtualizer(s, onSpeaker).engine, A.SpeakerVirtualizer)
         == A.BoolOf(s.engine, A.SpeakerVirtualizer)
    ensures ReenableSpeakerVirtualizer(s, onSpeaker).registered == s.registered
    ensures ReenableSpeakerVirtualizer(s, onSpeaker).engine.dsOn == s.engine.dsOn
    ensures ReenableSpeakerVirtualizer(s, onSpeaker).engine.profile == s.engine.profile
    ensures ReenableSpeakerVirtualizer(s, onSpeaker).engine.enabled == s.engine.enabled
    ensures !(onSpeaker && A.BoolOf(s.engine, A.SpeakerVirtualizer)) ==> ReenableSpeakerVirtualizer(s, onSpeaker) == s
  {
    if onSpeaker && A.BoolOf(s.engine, A.SpeakerVirtualizer) {
      var off := SetBoolParam(s, A.SpeakerVirtualizer, false);
      BoolSetterStores(s, A.SpeakerVirtualizer, false);
      BoolSetterStores(off, A.SpeakerVirtualizer, true);
    }
  }

  /** Second half of boot, on the speaker with the virtualizer reading as on: the last two
      calls write it off and then on, and no other call writes it. */
  lemma SpeakerVirtualizerRewritten(s: Snapshot, onSpeaker: bool)
    requires Inv(s)
    requires onSpeaker && A.BoolOf(s.engine, A.SpeakerVirtualizer)
    ensures var t := ReenableSpeakerVirtualizer(s, onSpeaker).trace;
      |t| >= |s.trace| + 2 && s.trace <= t &&
      t[|t| - 2..] == [Atmos(A.SetDapParameterBool(A.SpeakerVirtualizer, false)),
                       Atmos(A.SetDapParameterBool(A.SpeakerVirtualizer, true))] &&
      SpeakerVirtualizerUntouched(t[..|t| - 2], |s.trace|)
  {
    var c := CheckEffect(s);
    var off := Issue(c, A.SetDapParameterBool(A.SpeakerVirtualizer, false));
    assert off.engine.hasControl && CheckEffect(off) == off;
    var t := c.trace + [Atmos(A.SetDapParameterBool(A.SpeakerVirtualizer, false)),
                        Atmos(A.SetDapParameterBool(A.SpeakerVirtualizer, true))];
    assert ReenableSpeakerVirtualizer(s, onSpeaker).trace == t;
    assert t[|t| - 2..] == [Atmos(A.SetDapParameterBool(A.SpeakerVirtualizer, false)),
                            Atmos(A.SetDapParameterBool(A.SpeakerVirtualizer, true))];
    assert t[..|t| - 2] == c.trace;
  }

  /** Boot writes the speaker virtualizer exactly twice, off and then on, when the route is
      the speaker and it reads as on; otherwise boot never writes it. */
  lemma BootRewritesSpeakerVirtualizerOnce(s: Snapshot, stored: Option<A.int32>, onSpeaker: bool)
    requires Inv(s)
    ensures var t := OnBootCompleted(s, stored, onSpeaker).trace;
      && s.trace <= t
      && (onSpeaker && A.BoolOf(s.engine, A.SpeakerVirtualizer) ==>
            |t| >= |s.trace| + 2 &&
            t[|t| - 2..] == [Atmos(A.SetDapParameterBool(A.SpeakerVirtualizer, false)),
                             Atmos(A.SetDapParameterBool(A.SpeakerVirtualizer, true))] &&
            SpeakerVirtualizerUntouched(t[..|t| - 2], |s.trace|))
      && (!(onSpeaker && A.BoolOf(s.engine, A.SpeakerVirtualizer)) ==>
            SpeakerVirtualizerUntouched(t, |s.trace|))
  {
    RestoreAtBootSyncs(s, stored);
    var restored := RestoreAtBoot(s, stored);
    var t := OnBootCompleted(s, stored, onSpeaker).trace;
    assert A.BoolOf(restored.engine, A.SpeakerVirtualizer) == A.BoolOf(s.engine, A.SpeakerVirtualizer);
    if onSpeaker && A.BoolOf(s.engine, A.SpeakerVirtualizer) {
      RewrittenAfter(s.trace, restored, onSpeaker, t);
    } else {
      KeptAfter(s.trace, restored, onSpeaker, t);
    }
  }

  /** No rewrite after a stretch of calls from `start` that does not write the speaker
      virtualizer: still no call from `start` on writes it. */
  lemma KeptAfter(start: seq<Call>, restored: Snapshot, onSpeaker: bool, t: seq<Call>)
    requires Inv(restored) && !(onSpeaker && A.BoolOf(restored.engine, A.SpeakerVirtualizer))
    requires start <= restored.trace && SpeakerVirtualizerUntouched(restored.trace, |start|)
    requires t == ReenableSpeakerVirtualizer(restored, onSpeaker).trace
    ensures start <= t && SpeakerVirtualizerUntouched(t, |start|)
  {
  }

  /** The rewrite after a stretch of calls from `start` that does not write the speaker
      virtualizer: the last two calls write it off and on, and no other call from `start`
      on writes it. */
  lemma RewrittenAfter(start: seq<Call>, restored: Snapshot, onSpeaker: bool, t: seq<Call>)
    requires Inv(restored) && onSpeaker && A.BoolOf(restored.engine, A.SpeakerVirtualizer)
    requires start <= restored.trace && SpeakerVirtualizerUntouched(restored.trace, |start|)
    requires t == ReenableSpeakerVirtualizer(restored, onSpeaker).trace
    ensures start <= t && |t| >= |start| + 2
    ensures t[|t| - 2..] == [Atmos(A.SetDapParameterBool(A.SpeakerVirtualizer, false)),
                             Atmos(A.SetDapParameterBool(A.SpeakerVirtualizer, true))]
    ensures SpeakerVirtualizerUntouched(t[..|t| - 2], |start|)
  {
    SpeakerVirtualizerRewritten(restored, onSpeaker);
    assert restored.trace <= t[..|t| - 2];
    UntouchedExtends(start, restored.trace, t[..|t| - 2]);
  }

  /** Two stretches of calls without a speaker virtualizer write make one. */
  lemma UntouchedExtends(a: seq<Call>, b: seq<Call>, c: seq<Call>)
    requires a <= b <= c
    requires SpeakerVirtualizerUntouched(b, |a|) && SpeakerVirtualizerUntouched(c, |b|)
    ensures SpeakerVirtualizerUntouched(c, |a|)
  {
    forall i | |a| <= i < |c|
      ensures !WritesSpeakerVirtualizer(c[i])
    {
      if i < |b| {
        assert c[i] == b[i];
      }
    }
  }


  /** Boot as a whole. */
  lemma BootCompleted(s: Snapshot, stored: Option<A.int32>, onSpeaker: bool)
    requires Inv(s)
    ensures var r := OnBootCompleted(s, stored, onSpeaker);
      && r.registered == s.engine.dsOn && r.engine.dsOn == s.engine.dsOn && Synced(r)
      && (s.engine.dsOn ==> r.engine.profile == ProfileIndex(stored))
      && (s.engine.hasControl ==> r.engine.enabled == s.engine.dsOn)
      && A.BoolOf(r.engine, A.SpeakerVirtualizer) == A.BoolOf(s.engine, A.SpeakerVirtualizer)
  {
    RestoreAtBootSyncs(s, stored);
    SpeakerVirtualizerKept(RestoreAtBoot(s, stored), onSpeaker);
  }

  /** The flag agrees with the master switch after switching it and after boot, and every
      other operation keeps that agreement. */
  lemma SyncedKept(
    s: Snapshot, stored: Option<A.int32>, p: A.DsParam, b: bool, v: A.int32,
    configs: seq<AudioEvents.PlaybackConfiguration>, after: A.Params)
    requires Synced(s) && A.Complete(after)
    ensures Synced(CheckEffect(s))
    ensures Synced(SetProfile(s, v)) && Synced(SetCurrentProfile(s, stored))
    ensures Synced(SetBoolParam(s, p, b)) && Synced(SetIntParam(s, p, v))
    ensures Synced(SetDialogueEnhancerAmount(s, v)) && Synced(SetVolumeLevelerEnabled(s, b))
    ensures Synced(ResetProfileSpecificSettings(s, after))
    ensures Synced(OnPlaybackConfigChanged(s, configs, stored))
    ensures Synced(OnAudioDevicesAdded(s, stored)) && Synced(OnAudioDevicesRemoved(s, stored))
  {
  }
}
