# DolbyUtils controller model

A Dafny model of `DolbyUtils`, the controller that sits between the Dolby settings screen,
the audio framework and the vendor Dolby effect (`DolbyAtmos`). The controller:

- keeps one effect handle and replaces it when the handle has lost control of the effect;
- switches the Dolby master switch ("DS") on and off, and subscribes to the playback and
  audio-device callbacks when it switches DS on or finds it on at boot, and unsubscribes
  them when it switches DS off (a new controller starts unsubscribed, whatever DS is);
- re-applies the stored profile when a player starts, when a device is added or removed,
  when DS is switched on, and at boot, but never while DS is off;
- stores two settings as pairs of engine parameters: the dialogue enhancer (flag + amount)
  and the volume leveler (flag + the fixed amount 2);
- looks up a profile's display name in two resource arrays, one of profile values and one
  of display names;
- at boot, on the built-in speaker, writes a speaker virtualizer that reads as on off and
  then on again.

## Structure

| file | module | what it holds |
|---|---|---|
| wrappers.dfy | Wrappers | `Option` (Java's `null`, an absent preference) |
| dolby_atmos.dfy | DolbyAtmos | the engine model: parameter keys, engine state, write commands |
| composite_params.dfy | CompositeParams | encode/decode of the dialogue enhancer and volume leveler pairs |
| profile_names.dfy | ProfileNames | `Integer.toString`, `List.indexOf`, the profile-name lookup |
| audio_events.dfy | AudioEvents | player states and the "some player is started" test |
| controller_spec.dfy | ControllerSpec | the controller as functions over snapshots, and its invariant |
| controller_properties.dfy | ControllerProperties | what the controller promises, as lemmas |
| dolby_utils.dfy | Controller | class `DolbyUtils`: fields, and one method per Java method |

The class `Controller.DolbyUtils` has the fields `engine` (the handle in use with the effect
state it reaches), `callbacksRegistered`, and a ghost `trace` of outbound calls
(callback (un)registration, handle creation and release, every write to the engine). Every
method that changes state ensures `Snap() == S.F(old(Snap()), ...)` for its function `F` in
`ControllerSpec`, and keeps `Valid()`. The properties are lemmas about those functions in
`ControllerProperties`, so they hold of the object as well. The getters have no `modifies`
clause: they cannot write anything, so they cannot run the lost-control check either.

**Engine model.** `DolbyAtmos` is not part of this model. It is assumed to store what it is
given:
- a write through a handle that holds control is stored exactly as given;
- a write through a handle that has lost control is dropped;
- reads return the stored value;
- a handle that replaces one that lost control is created on the global session
  (priority 100, session 0), sees the same effect state and holds control;
- the first handle, created with the controller, finds an effect state and a control
  status that are inputs of the constructor, so it may already lack control.

**Invariant.** `ControllerSpec.Inv` holds in every reachable state:
- every parameter has a stored value;
- replaying the trace, no callback is ever registered while registered or unregistered while
  not registered, and the audio manager holds both callbacks exactly when the flag is set;
- handles are released in creation order, each at most once, and the handle in use has not
  been released.

**Two points where the code's behaviour is narrower than the summary above suggests.**
- The boot path calls `setEnabled` on the current handle without the lost-control check
  (lines 89-90). `RestoreAtBootSyncs` therefore promises that the enable switch follows DS
  only when the handle still held control.
- "Callbacks are registered exactly when DS is on" is not true of a new controller: the flag
  starts false whatever the engine says. It holds after `setDsOn` and after boot, and every
  other operation keeps it (`SyncedKept`).
- The model follows the code in both.

## Model

| member | source | states |
|---|---|---|
| Controller.DolbyUtils.constructor | dolby/src/co/aospa/dolby/xiaomi/DolbyUtils.java:71-76 | the first handle (number 0, priority 100, session 0) is created; no callbacks are registered; the invariant holds |
| Controller.DolbyUtils.Issue | dolby/src/co/aospa/dolby/xiaomi/DolbyUtils.java:90 | the new state is one write through the current handle, stored when it holds control and dropped otherwise, with no lost-control check of its own (boot's bare `setEnabled`; every setter calls it after the check); the invariant is kept |
| Controller.DolbyUtils.CheckEffect | dolby/src/co/aospa/dolby/xiaomi/DolbyUtils.java:109-115 | the new state is `ControllerSpec.CheckEffect` of the old one: the handle is kept if it has control, otherwise it is released and replaced |
| Controller.DolbyUtils.SetCurrentProfile | dolby/src/co/aospa/dolby/xiaomi/DolbyUtils.java:117-126 | the new state is `ControllerSpec.SetCurrentProfile`: nothing while DS is off, else `setProfile` of the stored index |
| Controller.DolbyUtils.RegisterCallbacks | dolby/src/co/aospa/dolby/xiaomi/DolbyUtils.java:128-139 | the new state is `ControllerSpec.RegisterCallbacks`: both callbacks (un)subscribed only when the flag changes |
| Controller.DolbyUtils.OnBootCompleted | dolby/src/co/aospa/dolby/xiaomi/DolbyUtils.java:85-107 | the new state is `ControllerSpec.OnBootCompleted` of the old one, route given as `onSpeaker` |
| Controller.DolbyUtils.OnPlaybackConfigChanged | dolby/src/co/aospa/dolby/xiaomi/DolbyUtils.java:47-56 | the new state is `ControllerSpec.OnPlaybackConfigChanged`: re-apply only when some player is started |
| Controller.DolbyUtils.OnAudioDevicesAdded | dolby/src/co/aospa/dolby/xiaomi/DolbyUtils.java:60-63 | the new state is the profile re-application of `setCurrentProfile` |
| Controller.DolbyUtils.OnAudioDevicesRemoved | dolby/src/co/aospa/dolby/xiaomi/DolbyUtils.java:65-68 | the new state is the profile re-application of `setCurrentProfile` |
| Controller.DolbyUtils.SetDsOn | dolby/src/co/aospa/dolby/xiaomi/DolbyUtils.java:141-148 | the new state is `ControllerSpec.SetDsOn`: check, write DS, follow with the callbacks, re-apply when on |
| Controller.DolbyUtils.GetDsOn | dolby/src/co/aospa/dolby/xiaomi/DolbyUtils.java:150-154 | returns the engine's DS flag and changes nothing (no control check) |
| Controller.DolbyUtils.SetProfile | dolby/src/co/aospa/dolby/xiaomi/DolbyUtils.java:156-160 | the new state is the control check followed by one profile write |
| Controller.DolbyUtils.GetProfile | dolby/src/co/aospa/dolby/xiaomi/DolbyUtils.java:162-166 | returns the engine's profile and changes nothing |
| Controller.DolbyUtils.GetProfileName | dolby/src/co/aospa/dolby/xiaomi/DolbyUtils.java:168-176 | absent exactly when the profile's decimal string is not among the values; otherwise the entry at its first position (the entries array must reach that position) |
| Controller.DolbyUtils.ResetProfileSpecificSettings | dolby/src/co/aospa/dolby/xiaomi/DolbyUtils.java:178-181 | the new state is the control check followed by the engine's reset, with the restored values given |
| Controller.DolbyUtils.SetHeadphoneVirtualizerEnabled | dolby/src/co/aospa/dolby/xiaomi/DolbyUtils.java:183-187 | the new state is the control check followed by one boolean write of the headphone virtualizer |
| Controller.DolbyUtils.GetHeadphoneVirtualizerEnabled | dolby/src/co/aospa/dolby/xiaomi/DolbyUtils.java:189-193 | returns the stored headphone virtualizer flag and changes nothing |
| Controller.DolbyUtils.SetSpeakerVirtualizerEnabled | dolby/src/co/aospa/dolby/xiaomi/DolbyUtils.java:195-199 | the new state is the control check followed by one boolean write of the speaker virtualizer |
| Controller.DolbyUtils.GetSpeakerVirtualizerEnabled | dolby/src/co/aospa/dolby/xiaomi/DolbyUtils.java:201-205 | returns the stored speaker virtualizer flag and changes nothing |
| Controller.DolbyUtils.SetStereoWideningAmount | dolby/src/co/aospa/dolby/xiaomi/DolbyUtils.java:207-211 | the new state is the control check followed by one integer write of the stereo widening amount |
| Controller.DolbyUtils.GetStereoWideningAmount | dolby/src/co/aospa/dolby/xiaomi/DolbyUtils.java:213-217 | returns the stored stereo widening amount and changes nothing |
| Controller.DolbyUtils.SetDialogueEnhancerAmount | dolby/src/co/aospa/dolby/xiaomi/DolbyUtils.java:219-224 | the new state is the control check followed by the flag write (amount > 0) and the amount write |
| Controller.DolbyUtils.GetDialogueEnhancerAmount | dolby/src/co/aospa/dolby/xiaomi/DolbyUtils.java:226-233 | returns 0 when the stored flag is off, otherwise the stored amount; changes nothing |
| Controller.DolbyUtils.SetBassEnhancerEnabled | dolby/src/co/aospa/dolby/xiaomi/DolbyUtils.java:235-239 | the new state is the control check followed by one boolean write of the bass enhancer |
| Controller.DolbyUtils.GetBassEnhancerEnabled | dolby/src/co/aospa/dolby/xiaomi/DolbyUtils.java:241-245 | returns the stored bass enhancer flag and changes nothing |
| Controller.DolbyUtils.SetVolumeLevelerEnabled | dolby/src/co/aospa/dolby/xiaomi/DolbyUtils.java:247-253 | the new state is the control check followed by the flag write and the amount write (2 or 0) |
| Controller.DolbyUtils.GetVolumeLevelerEnabled | dolby/src/co/aospa/dolby/xiaomi/DolbyUtils.java:255-260 | true exactly when the stored flag is on and the stored amount is 2; changes nothing |
| ControllerSpec.Issue | dolby/src/co/aospa/dolby/xiaomi/DolbyUtils.java:90 | one engine write keeps the invariant |
| ControllerSpec.ProfileIndex | dolby/src/co/aospa/dolby/xiaomi/DolbyUtils.java:122-124 | the stored profile when one is stored, otherwise profile 0 |
| ControllerSpec.CheckEffect | dolby/src/co/aospa/dolby/xiaomi/DolbyUtils.java:109-115 | afterwards the handle holds control, the effect state and the flag are unchanged, and the invariant is kept |
| ControllerSpec.RegisterCallbacks | dolby/src/co/aospa/dolby/xiaomi/DolbyUtils.java:128-139 | the flag ends equal to the request, the engine is untouched, and no callback is registered or unregistered twice |
| ControllerSpec.SetProfile | dolby/src/co/aospa/dolby/xiaomi/DolbyUtils.java:156-160 | keeps the invariant |
| ControllerSpec.SetCurrentProfile | dolby/src/co/aospa/dolby/xiaomi/DolbyUtils.java:117-126 | keeps the invariant |
| ControllerSpec.SetDsOn | dolby/src/co/aospa/dolby/xiaomi/DolbyUtils.java:141-148 | keeps the invariant |
| ControllerSpec.ResetProfileSpecificSettings | dolby/src/co/aospa/dolby/xiaomi/DolbyUtils.java:178-181 | keeps the invariant |
| ControllerSpec.SetBoolParam | dolby/src/co/aospa/dolby/xiaomi/DolbyUtils.java:183-187 | keeps the invariant (the shape of every boolean setter) |
| ControllerSpec.SetIntParam | dolby/src/co/aospa/dolby/xiaomi/DolbyUtils.java:207-211 | keeps the invariant (the shape of the integer setter) |
| ControllerSpec.SetDialogueEnhancerAmount | dolby/src/co/aospa/dolby/xiaomi/DolbyUtils.java:219-224 | keeps the invariant |
| ControllerSpec.SetVolumeLevelerEnabled | dolby/src/co/aospa/dolby/xiaomi/DolbyUtils.java:247-253 | keeps the invariant |
| ControllerSpec.DialogueEnhancerAmountOf | dolby/src/co/aospa/dolby/xiaomi/DolbyUtils.java:226-233 | 0 when the stored flag is off, otherwise the stored amount |
| ControllerSpec.VolumeLevelerEnabledOf | dolby/src/co/aospa/dolby/xiaomi/DolbyUtils.java:255-260 | true exactly when the stored flag is on and the stored amount is 2 |
| ControllerSpec.RestoreAtBoot | dolby/src/co/aospa/dolby/xiaomi/DolbyUtils.java:88-93 | keeps the invariant |
| ControllerSpec.ReenableSpeakerVirtualizer | dolby/src/co/aospa/dolby/xiaomi/DolbyUtils.java:95-106 | keeps the invariant |
| ControllerSpec.OnBootCompleted | dolby/src/co/aospa/dolby/xiaomi/DolbyUtils.java:85-107 | keeps the invariant |
| ControllerSpec.OnPlaybackConfigChanged | dolby/src/co/aospa/dolby/xiaomi/DolbyUtils.java:47-56 | keeps the invariant |
| ControllerSpec.OnAudioDevicesAdded | dolby/src/co/aospa/dolby/xiaomi/DolbyUtils.java:60-63 | keeps the invariant |
| ControllerSpec.OnAudioDevicesRemoved | dolby/src/co/aospa/dolby/xiaomi/DolbyUtils.java:65-68 | keeps the invariant |
| ControllerProperties.RegisterCallbacksOnChange | dolby/src/co/aospa/dolby/xiaomi/DolbyUtils.java:128-139 | the flag equals the request; subscribe only on false to true, unsubscribe only on true to false; a repeated call changes nothing; the audio manager holds both callbacks exactly when the flag is set |
| ControllerProperties.CheckEffectRecovers | dolby/src/co/aospa/dolby/xiaomi/DolbyUtils.java:109-115 | a handle with control is kept unchanged; otherwise the old handle is released once and the next one created with priority 100 on session 0; afterwards control is held, the effect state is unchanged, and a second check does nothing |
| ControllerProperties.ReleasedAtMostOnce | dolby/src/co/aospa/dolby/xiaomi/DolbyUtils.java:109-115 | over the whole history no handle is released twice, and the handle in use was never released |
| ControllerProperties.SetCurrentProfileGated | dolby/src/co/aospa/dolby/xiaomi/DolbyUtils.java:117-126 | with DS off nothing is written and nothing is called; with DS on exactly one `setProfile` of the stored index (0 when none is stored) follows the control check |
| ControllerProperties.SetDsOnSyncs | dolby/src/co/aospa/dolby/xiaomi/DolbyUtils.java:141-148 | the flag and the DS flag both end equal to the request; when switching on, the last call is `setProfile` of the stored index |
| ControllerProperties.SetProfileStores | dolby/src/co/aospa/dolby/xiaomi/DolbyUtils.java:156-166 | `setProfile` then `getProfile` gives the index whatever control the handle had; DS, enable switch, parameters and flag are unchanged; the calls are the lost-control check's and one profile write |
| ControllerProperties.SetDsOnRepeatedSubscribesNothing | dolby/src/co/aospa/dolby/xiaomi/DolbyUtils.java:141-148 | repeating the same `setDsOn` request subscribes and unsubscribes nothing |
| ControllerProperties.SwitchedOffIgnoresEvents | dolby/src/co/aospa/dolby/xiaomi/DolbyUtils.java:47-69 | after `setDsOn(false)` no callback is registered, and neither a playback change nor a device change changes anything |
| ControllerProperties.PlaybackReappliesWhenStarted | dolby/src/co/aospa/dolby/xiaomi/DolbyUtils.java:47-56 | a playback change re-applies the profile when some player is started, and changes nothing otherwise |
| ControllerProperties.DeviceChangesReapply | dolby/src/co/aospa/dolby/xiaomi/DolbyUtils.java:59-69 | adding or removing any device re-applies the profile; with DS on the stored profile is selected |
| ControllerProperties.BoolSetterStores | dolby/src/co/aospa/dolby/xiaomi/DolbyUtils.java:183-205 | a boolean setter reads back as written, whatever control the handle had, and no other parameter, the DS flag, profile, enable switch or flag changes |
| ControllerProperties.IntSetterStores | dolby/src/co/aospa/dolby/xiaomi/DolbyUtils.java:207-217 | the integer setter reads back as written, and no other parameter, the DS flag, profile, enable switch or flag changes |
| ControllerProperties.PairSetterStores | dolby/src/co/aospa/dolby/xiaomi/DolbyUtils.java:219-224 | a lost-control check followed by a flag write and an amount write: both read back as written and nothing else changes |
| ControllerProperties.DialogueEnhancerSetThenGet | dolby/src/co/aospa/dolby/xiaomi/DolbyUtils.java:219-233 | the flag is written as amount > 0 and the amount as given; reading back gives the amount when it is not negative and 0 when it is; no other parameter, the DS flag, profile, enable switch or flag changes |
| ControllerProperties.VolumeLevelerSetThenGet | dolby/src/co/aospa/dolby/xiaomi/DolbyUtils.java:247-260 | the flag and 2, or off and 0, are written; reading back gives the boolean that was set; no other parameter, the DS flag, profile, enable switch or flag changes |
| ControllerProperties.BootSwitchesEffect | dolby/src/co/aospa/dolby/xiaomi/DolbyUtils.java:89-91 | boot writes the enable switch (as DS, when the handle holds control) and makes the flag follow DS; DS, profile and parameters are unchanged and the speaker virtualizer is not written |
| ControllerProperties.RestoreAtBootSyncs | dolby/src/co/aospa/dolby/xiaomi/DolbyUtils.java:88-93 | after the first half of boot the flag and DS agree, the profile is the stored one when DS is on, the enable switch equals DS when control was held, and no parameter is written |
| ControllerProperties.SpeakerVirtualizerKept | dolby/src/co/aospa/dolby/xiaomi/DolbyUtils.java:95-106 | the speaker virtualizer ends as it was read, and DS, profile, enable switch and flag are unchanged; unless the route is the speaker and it reads as on, nothing is written |
| ControllerProperties.SpeakerVirtualizerRewritten | dolby/src/co/aospa/dolby/xiaomi/DolbyUtils.java:102-106 | on the speaker with the virtualizer on, the last two calls write it off and then on, and no earlier call of this step writes it |
| ControllerProperties.BootRewritesSpeakerVirtualizerOnce | dolby/src/co/aospa/dolby/xiaomi/DolbyUtils.java:85-107 | on the speaker with the virtualizer on, boot writes it exactly twice, off and then as its last two calls on; otherwise boot never writes it |
| ControllerProperties.BootCompleted | dolby/src/co/aospa/dolby/xiaomi/DolbyUtils.java:85-107 | after boot the flag and DS agree, the stored profile is applied when DS is on, and the speaker virtualizer keeps its value |
| ControllerProperties.SyncedKept | dolby/src/co/aospa/dolby/xiaomi/DolbyUtils.java:109-260 | every operation other than `setDsOn` and boot keeps "callbacks registered exactly when DS is on" |
| CompositeParams.DecodeDialogueEnhancer | dolby/src/co/aospa/dolby/xiaomi/DolbyUtils.java:226-233 | flag off reads 0; flag on reads the stored amount; so a nonzero result means the flag is on |
| CompositeParams.DecodeVolumeLeveler | dolby/src/co/aospa/dolby/xiaomi/DolbyUtils.java:255-260 | reads true exactly for the encoding of true (flag on, amount 2) |
| CompositeParams.EncodeDialogueEnhancer | dolby/src/co/aospa/dolby/xiaomi/DolbyUtils.java:222-223 | the flag is on exactly for a positive amount; the amount is stored as given |
| CompositeParams.EncodeVolumeLeveler | dolby/src/co/aospa/dolby/xiaomi/DolbyUtils.java:250-252 | the flag is the boolean; the amount is 2 when on and 0 when off |
| CompositeParams.DialogueEnhancerRoundTrip | dolby/src/co/aospa/dolby/xiaomi/DolbyUtils.java:219-233 | decode after encode gives the amount when positive and 0 otherwise; it gives the amount back exactly when the amount is not negative |
| CompositeParams.VolumeLevelerRoundTrip | dolby/src/co/aospa/dolby/xiaomi/DolbyUtils.java:247-260 | decode after encode gives the boolean back; the two encodings differ |
| CompositeParams.VolumeLevelerStrayAmountReadsOff | dolby/src/co/aospa/dolby/xiaomi/DolbyUtils.java:33-33 | flag on with any amount other than 2 reads as off |
| AudioEvents.IsPlaying | dolby/src/co/aospa/dolby/xiaomi/DolbyUtils.java:50-51 | true exactly when some configuration's player state is started |
| ProfileNames.Digits | dolby/src/co/aospa/dolby/xiaomi/DolbyUtils.java:169-169 | the decimal digits of a natural number: at least one digit, only digits, no leading zero |
| ProfileNames.DecimalString | dolby/src/co/aospa/dolby/xiaomi/DolbyUtils.java:169-169 | a leading minus sign exactly for negative profile numbers |
| ProfileNames.DigitsRoundTrip | dolby/src/co/aospa/dolby/xiaomi/DolbyUtils.java:169-169 | reading the digits back gives the number |
| ProfileNames.DecimalStringRoundTrip | dolby/src/co/aospa/dolby/xiaomi/DolbyUtils.java:169-169 | reading the decimal string back gives the profile number |
| ProfileNames.DecimalStringInjective | dolby/src/co/aospa/dolby/xiaomi/DolbyUtils.java:169-172 | two different profile numbers never have the same decimal string, so never match the same value entry |
| ProfileNames.IndexOf | dolby/src/co/aospa/dolby/xiaomi/DolbyUtils.java:172-172 | -1 exactly when the string is absent; otherwise a position holding it with no earlier one |
| ProfileNames.ProfileName | dolby/src/co/aospa/dolby/xiaomi/DolbyUtils.java:168-176 | absent exactly when the profile's decimal string is not among the values; otherwise the entry at its first position, which the entries array reaches |

## Left out

- The singleton and its synchronized `getInstance`, and callback dispatch on the handler thread: concurrency and lifecycle. The model is one object on which calls happen one at a time.
- Logging (`dlog`, `Log.i`, `Log.w`): no effect on state.
- `Integer.parseInt` of the stored preference: methods take the already parsed profile (`Option<int32>`, `None` for an absent preference, which means profile 0). A non-numeric preference, which would throw, is not modelled.
- `getDevicesForAttributes(...).get(0)` at boot: the route is the input `onSpeaker` (first media device is the built-in speaker). An empty device list, which would throw, is not modelled.
- The `AudioManager`, `Context`, `SharedPreferences` and resources: callback (un)registration is a trace event, and the preference, route and resource arrays are inputs.
- The device arrays passed to the device callbacks: the code ignores them, so the model has no parameter for them.
- `DolbyAtmos` itself: replaced by the engine model above. What `resetProfileSpecificSettings` restores is the engine's own choice, given to the model as the input `after`.
- Loss of control happens outside the controller: there is no operation for it. Every lemma and method allows any starting value of `hasControl`.
- The framework calls the callbacks only while they are registered; the model allows a callback in any state (`SwitchedOffIgnoresEvents` shows that this changes nothing once DS is off).
- Controller.DolbyUtils.GetProfileName: requires the entries array to reach the position where the profile's value is found; when it does not, the source throws an index exception, which is not modelled. An absent profile needs nothing of the entries array.
- ProfileNames.ProfileName: the same requirement, for the same reason.
