/** The vendor effect handle `DolbyAtmos` and the effect state behind it.

    The class is not part of this model. It is treated as a parameter store:
    - a handle has a generation number and holds, or has lost, control of the effect;
    - while the handle holds control, every write is stored exactly as given;
    - a write through a handle without control is dropped, as the audio framework
      refuses commands from a handle that has lost control;
    - reads are answered from the stored state, with or without control;
    - a newly created handle on the global session sees the same effect state and
      holds control. */
module DolbyAtmos {

  /** Java's `int`. */
  newtype int32 = x: int | -0x8000_0000 <= x < 0x8000_0000

  /** Keys of the DAP parameters the controller touches. */
  datatype DsParam =
    | HeadphoneVirtualizer
    | SpeakerVirtualizer
    | StereoWideningAmount
    | DialogueEnhancerEnable
    | DialogueEnhancerAmount
    | BassEnhancerEnable
    | VolumeLevelerEnable
    | VolumeLevelerAmount

  /** The DAP parameter values held by the effect, read as booleans or as integers. */
  datatype Params = Params(bools: map<DsParam, bool>, ints: map<DsParam, int32>)

  /** Every key has a stored value of either type. */
  predicate Complete(p: Params) {
    forall d: DsParam :: d in p.bools && d in p.ints
  }

  /** The handle in use and the effect state it reaches.
      `enabled` is the audio effect's own enable switch, `dsOn` the Dolby master switch. */
  datatype Engine = Engine(
    handle: nat,
    hasControl: bool,
    enabled: bool,
    dsOn: bool,
    profile: int32,
    params: Params)

  /** The writes the controller sends through the handle. */
  datatype Command =
    | SetEnabled(enabled: bool)
    | SetDsOn(on: bool)
    | SetProfile(index: int32)
    | SetDapParameterBool(param: DsParam, bval: bool)
    | SetDapParameterInt(param: DsParam, ival: int32)

  /** The engine after `c`: stored as given when the handle holds control, dropped otherwise. */
  function Apply(e: Engine, c: Command): Engine {
    if !e.hasControl then e
    else match c
      case SetEnabled(b) => e.(enabled := b)
      case SetDsOn(b) => e.(dsOn := b)
      case SetProfile(i) => e.(profile := i)
      case SetDapParameterBool(p, b) => e.(params := e.params.(bools := e.params.bools[p := b]))
      case SetDapParameterInt(p, v) => e.(params := e.params.(ints := e.params.ints[p := v]))
  }

  /** `release()` followed by `new DolbyAtmos(...)`: the next handle, which holds control. */
  function Recreate(e: Engine): Engine {
    e.(handle := e.handle + 1, hasControl := true)
  }

  function BoolOf(e: Engine, p: DsParam): bool
    requires Complete(e.params)
  {
    e.params.bools[p]
  }

  function IntOf(e: Engine, p: DsParam): int32
    requires Complete(e.params)
  {
    e.params.ints[p]
  }

  /** What a handle reaches, apart from the handle itself. */
  predicate SameEffect(e: Engine, f: Engine) {
    e.enabled == f.enabled && e.dsOn == f.dsOn && e.profile == f.profile && e.params == f.params
  }

  /** The store assumption: with control, a written parameter reads back as written and
      every other parameter keeps its value; without control nothing changes. */
  lemma ApplyStores(e: Engine, c: Command)
    requires Complete(e.params)
    ensures Complete(Apply(e, c).params)
    ensures Apply(e, c).handle == e.handle && Apply(e, c).hasControl == e.hasControl
    ensures !e.hasControl ==> Apply(e, c) == e
    ensures e.hasControl && c.SetDapParameterBool? ==>
      BoolOf(Apply(e, c), c.param) == c.bval &&
      (forall q :: q != c.param ==> BoolOf(Apply(e, c), q) == BoolOf(e, q)) &&
      Apply(e, c).params.ints == e.params.ints
    ensures e.hasControl && c.SetDapParameterInt? ==>
      IntOf(Apply(e, c), c.param) == c.ival &&
      (forall q :: q != c.param ==> IntOf(Apply(e, c), q) == IntOf(e, q)) &&
      Apply(e, c).params.bools == e.params.bools
  {
  }
}
