/**
 * The speech-output voice catalog of VoiceFeatures.jsx: the default-voice rule run
 * whenever the platform's catalog is (re)loaded, and the lookup behind `changeVoice`.
 */
module Voices {
  import opened Wrappers
  import opened Text

  /** A platform voice descriptor: its display name and the platform's `default` mark. */
  datatype Voice = Voice(name: string, isDefault: bool)

  /** `vs.findIndex(p)`: the index of the first voice satisfying `p`, if any. */
  function FirstIndex(vs: seq<Voice>, p: Voice -> bool): (r: Option<nat>)
    ensures r.Some? ==> r.value < |vs| && p(vs[r.value])
    ensures r.Some? ==> forall j :: 0 <= j < r.value ==> !p(vs[j])
    ensures r.None? <==> forall j :: 0 <= j < |vs| ==> !p(vs[j])
  {
    if vs == [] then None
    else if p(vs[0]) then Some(0)
    else match FirstIndex(vs[1..], p)
      case None => None
      case Some(k) => Some(k + 1)
  }

  /** `vs.find(p)`: the first voice satisfying `p`, if any. */
  function Find(vs: seq<Voice>, p: Voice -> bool): Option<Voice>
  {
    match FirstIndex(vs, p)
    case None => None
    case Some(k) => Some(vs[k])
  }

  /** The name test of the default-voice rule: one of four affinity words occurs in it. */
  predicate Preferred(name: string)
  {
    Includes(name, "female") || Includes(name, "Female")
    || Includes(name, "Samantha") || Includes(name, "Siri")
  }

  predicate PreferredVoice(v: Voice) { Preferred(v.name) }

  predicate MarkedDefault(v: Voice) { v.isDefault }

  /** `vs[k]` is the first voice of `vs` satisfying `p`. */
  predicate IsFirst(vs: seq<Voice>, k: int, p: Voice -> bool)
  {
    0 <= k < |vs| && p(vs[k]) && forall j :: 0 <= j < k ==> !p(vs[j])
  }

  /** No voice of `vs` satisfies `p`. */
  predicate NoneMatch(vs: seq<Voice>, p: Voice -> bool)
  {
    forall j :: 0 <= j < |vs| ==> !p(vs[j])
  }

  /**
   * `loadVoices`: the voice selected after the catalog `vs` arrives. An empty catalog
   * keeps the `current` voice. Otherwise the first voice with a preferred name wins;
   * failing that, the first voice marked default; failing that, the first voice.
   */
  function DefaultVoice(vs: seq<Voice>, current: Option<Voice>): (r: Option<Voice>)
    ensures vs == [] ==> r == current
    ensures vs != [] ==> r.Some? && r.value in vs
    ensures forall k :: IsFirst(vs, k, PreferredVoice) ==> r == Some(vs[k])
    ensures NoneMatch(vs, PreferredVoice) ==>
              forall k :: IsFirst(vs, k, MarkedDefault) ==> r == Some(vs[k])
    ensures vs != [] && NoneMatch(vs, PreferredVoice) && NoneMatch(vs, MarkedDefault) ==>
              r == Some(vs[0])
  {
    if vs == [] then current
    else match Find(vs, PreferredVoice)
      case Some(v) => Some(v)
      case None =>
        match Find(vs, MarkedDefault)
        case Some(v) => Some(v)
        case None => Some(vs[0])
  }

  /**
   * `changeVoice(name)`: the first catalog voice whose name is exactly `name`, or
   * nothing when no voice has that name.
   */
  function Named(vs: seq<Voice>, name: string): (r: Option<Voice>)
    ensures r.None? <==> forall j :: 0 <= j < |vs| ==> vs[j].name != name
    ensures r.Some? ==> r.value.name == name && r.value in vs
    ensures forall k :: IsFirst(vs, k, (v: Voice) => v.name == name) ==> r == Some(vs[k])
  {
    Find(vs, (v: Voice) => v.name == name)
  }
}
