/** The two settings that the controller stores as a pair of engine parameters:
    an enable flag and an amount. */
module CompositeParams {
  import opened DolbyAtmos

  /** One enable flag and one amount, as stored in the engine. */
  datatype Knobs = Knobs(enable: bool, amount: int32)

  /** The amount written together with the volume leveler's enable flag. */
  const VOLUME_LEVELER_AMOUNT: int32 := 2

  /** The dialogue enhancer setter: enabled exactly for a positive amount; the amount is
      stored as given, negative or not. */
  function EncodeDialogueEnhancer(amount: int32): (k: Knobs)
    ensures k.amount == amount
    ensures k.enable <==> amount > 0
  {
    Knobs(amount > 0, amount)
  }

  /** The dialogue enhancer getter: the enable flag is authoritative. */
  function DecodeDialogueEnhancer(k: Knobs): (amount: int32)
    ensures amount != 0 ==> k.enable && amount == k.amount
    ensures !k.enable ==> amount == 0
    ensures k.enable ==> amount == k.amount
  {
    if k.enable then k.amount else 0
  }

  /** The volume leveler setter: the flag and the fixed amount, or off and 0. */
  function EncodeVolumeLeveler(on: bool): (k: Knobs)
    ensures k.enable == on
    ensures on ==> k.amount == VOLUME_LEVELER_AMOUNT
    ensures !on ==> k.amount == 0
  {
    Knobs(on, if on then VOLUME_LEVELER_AMOUNT else 0)
  }

  /** The volume leveler getter: on only when both halves agree. */
  function DecodeVolumeLeveler(k: Knobs): (on: bool)
    ensures on <==> k == EncodeVolumeLeveler(true)
  {
    k.enable && k.amount == VOLUME_LEVELER_AMOUNT
  }

  /** Set then get gives the amount back exactly when it is not negative; a negative
      amount reads back as 0. */
  lemma DialogueEnhancerRoundTrip(amount: int32)
    ensures DecodeDialogueEnhancer(EncodeDialogueEnhancer(amount)) == (if amount > 0 then amount else 0)
    ensures DecodeDialogueEnhancer(EncodeDialogueEnhancer(amount)) == amount <==> amount >= 0
  {
  }

  /** Set then get gives the boolean back, and the two encodings differ. */
  lemma VolumeLevelerRoundTrip(on: bool)
    ensures DecodeVolumeLeveler(EncodeVolumeLeveler(on)) == on
    ensures EncodeVolumeLeveler(true) != EncodeVolumeLeveler(false)
  {
  }

  /** A stale state with the flag on but any other amount reads as off. */
  lemma VolumeLevelerStrayAmountReadsOff(k: Knobs)
    requires k.enable && k.amount != VOLUME_LEVELER_AMOUNT
    ensures !DecodeVolumeLeveler(k)
  {
  }
}
