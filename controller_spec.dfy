/** The controller as a state machine over snapshots. A snapshot holds the engine the
    controller reaches, its callback registration flag and the calls it has made so far.
    There is one function per operation of DolbyUtils, composed the way the Java methods
    call each other. */
module ControllerSpec {
  import opened Wrappers
  import A = DolbyAtmos
  import CompositeParams
  import AudioEvents

  /** Priority and audio session with which every handle is created. */
  const EFFECT_PRIORITY: int := 100
  const GLOBAL_SESSION: int := 0

  /** The profile used when no profile preference is stored. */
  const DEFAULT_PROFILE: A.int32 := 0

  /** Outbound calls: to the audio manager, and to the effect handle. */
  datatype Call =
    | RegisterPlaybackCallback
    | RegisterAudioDeviceCallback
    | UnregisterPlaybackCallback
    | UnregisterAudioDeviceCallback
    | CreateEffect(handle: nat, priority: int, session: int)
    | ReleaseEffect(handle: nat)
    | Atmos(command: A.Command)
    | ResetProfileSettings

  predicate IsSubscription(c: Call) {
    || c.RegisterPlaybackCallback? || c.RegisterAudioDeviceCallback?
    || c.UnregisterPlaybackCallback? || c.UnregisterAudioDeviceCallback?
  }

  datatype Snapshot = Snapshot(engine: A.Engine, registered: bool, trace: seq<Call>)

  /** Which of the two callbacks the audio manager currently holds. */
  datatype Subscriptions = Subscriptions(playback: bool, device: bool)

  /** The audio manager's view after one more call; None once a callback was registered
      while already registered, or unregistered while not registered. */
  function Track(o: Option<Subscriptions>, c: Call): Option<Subscriptions> {
    match o
    case None => None
    case Some(sub) =>
      match c
      case RegisterPlaybackCallback => if sub.playback then None else Some(sub.(playback := true))
      case UnregisterPlaybackCallback => if sub.playback then Some(sub.(playback := false)) else None
      case RegisterAudioDeviceCallback => if sub.device then None else Some(sub.(device := true))
      case UnregisterAudioDeviceCallback => if sub.device then Some(sub.(device := false)) else None
      case _ => o
  }

  /** The audio manager's view after a whole trace, starting with nothing registered. */
  function Replay(t: seq<Call>): Option<Subscriptions>
    decreases |t|
  {
    if t == [] then Some(Subscriptions(false, false))
    else Track(Replay(t[..|t| - 1]), t[|t| - 1])
  }

  lemma ReplaySnoc(t: seq<Call>, c: Call)
    ensures Replay(t + [c]) == Track(Replay(t), c)
  {
    assert (t + [c])[..|t|] == t;
  }

  /** Handles are released in the order they were created, each at most once, and the
      handle in use has not been released. */
  predicate ReleasesOrdered(t: seq<Call>, current: nat) {
    && (forall i :: 0 <= i < |t| && t[i].ReleaseEffect? ==> t[i].handle < current)
    && (forall i, j :: 0 <= i < j < |t| && t[i].ReleaseEffect? && t[j].ReleaseEffect? ==>
          t[i].handle < t[j].handle)
  }

  /** The controller's invariant: the engine has a value for every parameter, no callback
      was ever registered or unregistered twice in a row, the audio manager holds both
      callbacks exactly when the flag says so, and no handle is released twice. */
  predicate Inv(s: Snapshot) {
    && A.Complete(s.engine.params)
    && Replay(s.trace) == Some(Subscriptions(s.registered, s.registered))
    && ReleasesOrdered(s.trace, s.engine.handle)
  }

  /** Appending a call that neither (un)subscribes nor releases keeps the invariant. */
  lemma QuietStep(s: Snapshot, e: A.Engine, c: Call)
    requires !IsSubscription(c) && !c.ReleaseEffect? && e.handle == s.engine.handle
    ensures Inv(s) && A.Complete(e.params) ==> Inv(Snapshot(e, s.registered, s.trace + [c]))
  {
    ReplaySnoc(s.trace, c);
  }

  /** The profile to apply: the stored preference, or the default when none is stored. */
  function ProfileIndex(stored: Option<A.int32>): (index: A.int32)
    ensures stored == None ==> index == DEFAULT_PROFILE
    ensures stored.Some? ==> index == stored.value
  {
    match stored
    case None => DEFAULT_PROFILE
    case Some(index) => index
  }

  /** One write through the current handle. */
  function Issue(s: Snapshot, c: A.Command): (r: Snapshot)
    ensures Inv(s) ==> Inv(r)
  {
    var e := A.Apply(s.engine, c);
    QuietStep(s, e, Atmos(c));
    Snapshot(e, s.registered, s.trace + [Atmos(c)])
  }

  /** The handle after a lost-control check: the old handle is released and replaced by a
      new one when it no longer holds control. */
  function CheckEffect(s: Snapshot): (r: Snapshot)
    ensures r.engine.hasControl && A.SameEffect(r.engine, s.engine) && r.registered == s.registered
    ensures Inv(s) ==> Inv(r)
  {
    if s.engine.hasControl then s
    else
      var h := s.engine.handle;
      var e := A.Recreate(s.engine);
      var created := CreateEffect(h + 1, EFFECT_PRIORITY, GLOBAL_SESSION);
      RecreateStep(s, e, created);
      Snapshot(e, s.registered, s.trace + [ReleaseEffect(h)] + [created])
  }

  /** Releasing the handle in use and creating the next one keeps the invariant. */
  lemma RecreateStep(s: Snapshot, e: A.Engine, created: Call)
    requires e == A.Recreate(s.engine) && created.CreateEffect?
    ensures Inv(s) ==> Inv(Snapshot(e, s.registered, s.trace + [ReleaseEffect(s.engine.handle)] + [created]))
  {
    var released := Snapshot(e, s.registered, s.trace + [ReleaseEffect(s.engine.handle)]);
    ReplaySnoc(s.trace, ReleaseEffect(s.engine.handle));
    if Inv(s) {
      assert ReleasesOrdered(released.trace, e.handle);
    }
    QuietStep(released, e, created);
  }

  /** Subscribes both callbacks on a change to true, unsubscribes both on a change to false. */
  function RegisterCallbacks(s: Snapshot, register: bool): (r: Snapshot)
    ensures r.registered == register && r.engine == s.engine
    ensures Inv(s) ==> Inv(r)
  {
    if register && !s.registered then
      ReplaySnoc(s.trace, RegisterPlaybackCallback);
      ReplaySnoc(s.trace + [RegisterPlaybackCallback], RegisterAudioDeviceCallback);
      Snapshot(s.engine, true, s.trace + [RegisterPlaybackCallback] + [RegisterAudioDeviceCallback])
    else if !register && s.registered then
      ReplaySnoc(s.trace, UnregisterPlaybackCallback);
      ReplaySnoc(s.trace + [UnregisterPlaybackCallback], UnregisterAudioDeviceCallback);
      Snapshot(s.engine, false, s.trace + [UnregisterPlaybackCallback] + [UnregisterAudioDeviceCallback])
    else s
  }

  function SetProfile(s: Snapshot, index: A.int32): (r: Snapshot)
    ensures Inv(s) ==> Inv(r)
  {
    Issue(CheckEffect(s), A.SetProfile(index))
  }

  /** Re-applies the stored profile, unless the Dolby master switch is off. */
  function SetCurrentProfile(s: Snapshot, stored: Option<A.int32>): (r: Snapshot)
    ensures Inv(s) ==> Inv(r)
  {
    if !s.engine.dsOn then s else SetProfile(s, ProfileIndex(stored))
  }

  function SetDsOn(s: Snapshot, on: bool, stored: Option<A.int32>): (r: Snapshot)
    ensures Inv(s) ==> Inv(r)
  {
    var switched := RegisterCallbacks(Issue(CheckEffect(s), A.SetDsOn(on)), on);
    if on then SetCurrentProfile(switched, stored) else switched
  }

  /** The engine resets its profile-specific settings; the values it restores are its own
      and are given here as `after`. */
  function ResetProfileSpecificSettings(s: Snapshot, after: A.Params): (r: Snapshot)
    requires A.Complete(after)
    ensures Inv(s) ==> Inv(r)
  {
    var c := CheckEffect(s);
    var e := c.engine.(params := after);
    QuietStep(c, e, ResetProfileSettings);
    Snapshot(e, c.registered, c.trace + [ResetProfileSettings])
  }

  /** A plain boolean setter: lost-control check, then one write. */
  function SetBoolParam(s: Snapshot, p: A.DsParam, b: bool): (r: Snapshot)
    ensures Inv(s) ==> Inv(r)
  {
    Issue(CheckEffect(s), A.SetDapParameterBool(p, b))
  }

  /** A plain integer setter: lost-control check, then one write. */
  function SetIntParam(s: Snapshot, p: A.DsParam, v: A.int32): (r: Snapshot)
    ensures Inv(s) ==> Inv(r)
  {
    Issue(CheckEffect(s), A.SetDapParameterInt(p, v))
  }

  function SetDialogueEnhancerAmount(s: Snapshot, amount: A.int32): (r: Snapshot)
    ensures Inv(s) ==> Inv(r)
  {
    var k := CompositeParams.EncodeDialogueEnhancer(amount);
    var flagged := Issue(CheckEffect(s), A.SetDapParameterBool(A.DialogueEnhancerEnable, k.enable));
    Issue(flagged, A.SetDapParameterInt(A.DialogueEnhancerAmount, k.amount))
  }

  function SetVolumeLevelerEnabled(s: Snapshot, on: bool): (r: Snapshot)
    ensures Inv(s) ==> Inv(r)
  {
    var k := CompositeParams.EncodeVolumeLeveler(on);
    var flagged := Issue(CheckEffect(s), A.SetDapParameterBool(A.VolumeLevelerEnable, k.enable));
    Issue(flagged, A.SetDapParameterInt(A.VolumeLevelerAmount, k.amount))
  }

  /** What the dialogue enhancer getter reports for an engine state. */
  function DialogueEnhancerAmountOf(e: A.Engine): (amount: A.int32)
    requires A.Complete(e.params)
    ensures !A.BoolOf(e, A.DialogueEnhancerEnable) ==> amount == 0
    ensures A.BoolOf(e, A.DialogueEnhancerEnable) ==> amount == A.IntOf(e, A.DialogueEnhancerAmount)
  {
    CompositeParams.DecodeDialogueEnhancer(
      CompositeParams.Knobs(A.BoolOf(e, A.DialogueEnhancerEnable), A.IntOf(e, A.DialogueEnhancerAmount)))
  }

  /** What the volume leveler getter reports for an engine state. */
  function VolumeLevelerEnabledOf(e: A.Engine): (on: bool)
    requires A.Complete(e.params)
    ensures on <==> A.BoolOf(e, A.VolumeLevelerEnable) &&
                    A.IntOf(e, A.VolumeLevelerAmount) == CompositeParams.VOLUME_LEVELER_AMOUNT
  {
    CompositeParams.DecodeVolumeLeveler(
      CompositeParams.Knobs(A.BoolOf(e, A.VolumeLevelerEnable), A.IntOf(e, A.VolumeLevelerAmount)))
  }

  /** First half of boot: the effect is switched on or off as the master switch says,
      callbacks follow it, and the profile is re-applied when it is on. */
  function RestoreAtBoot(s: Snapshot, stored: Option<A.int32>): (r: Snapshot)
    ensures Inv(s) ==> Inv(r)
  {
    var dsOn := s.engine.dsOn;
    var switched := RegisterCallbacks(Issue(s, A.SetEnabled(dsOn)), dsOn);
    if dsOn then SetCurrentProfile(switched, stored) else switched
  }

  /** Second half of boot: on the built-in speaker, a speaker virtualizer that reads as on
      is written off and then on again. */
  function ReenableSpeakerVirtualizer(s: Snapshot, onSpeaker: bool): (r: Snapshot)
    requires Inv(s)
    ensures Inv(r)
  {
    if onSpeaker && A.BoolOf(s.engine, A.SpeakerVirtualizer) then
      SetBoolParam(SetBoolParam(s, A.SpeakerVirtualizer, false), A.SpeakerVirtualizer, true)
    else s
  }

  function OnBootCompleted(s: Snapshot, stored: Option<A.int32>, onSpeaker: bool): (r: Snapshot)
    requires Inv(s)
    ensures Inv(r)
  {
    ReenableSpeakerVirtualizer(RestoreAtBoot(s, stored), onSpeaker)
  }

  function OnPlaybackConfigChanged(
    s: Snapshot, configs: seq<AudioEvents.PlaybackConfiguration>, stored: Option<A.int32>): (r: Snapshot)
    ensures Inv(s) ==> Inv(r)
  {
    if AudioEvents.IsPlaying(configs) then SetCurrentProfile(s, stored) else s
  }

  function OnAudioDevicesAdded(s: Snapshot, stored: Option<A.int32>): (r: Snapshot)
    ensures Inv(s) ==> Inv(r)
  {
    SetCurrentProfile(s, stored)
  }

  function OnAudioDevicesRemoved(s: Snapshot, stored: Option<A.int32>): (r: Snapshot)
    ensures Inv(s) ==> Inv(r)
  {
    SetCurrentProfile(s, stored)
  }
}
