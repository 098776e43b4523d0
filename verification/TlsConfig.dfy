/** TLSConfig of pynng/tls.py: one nng_tls_config per initialized nng library, changed together by
every setter, and refused for a library whose configuration fell behind. */
module TlsConfig {
  import opened Wrappers

  // An nng library, and an `nng_tls_config *`.
  type Lib = nat
  type Cfg = nat

  // The values a library gives to the named constants, in the order of the names.
  datatype Constants = Constants(modes: seq<int>, authModes: seq<int>)

  /** `_translate_constant`: the destination's value for the first name with this source value. */
  function Translate(value: int, src: seq<int>, dst: seq<int>): Option<int>
    decreases |src|
  {
    if src == [] || dst == [] then None
    else if src[0] == value then Some(dst[0])
    else Translate(value, src[1..], dst[1..])
  }

  predicate Injective(values: seq<int>) {
    forall i, j :: 0 <= i < j < |values| ==> values[i] != values[j]
  }

  /** Translation goes by name: it is defined for exactly the source's values, and the value of the
  i-th name becomes the destination's value of that name. */
  lemma {:induction false} TranslateByName(src: seq<int>, dst: seq<int>, value: int)
    requires |src| == |dst|
    ensures Translate(value, src, dst).Some? <==> value in src
    ensures forall i :: 0 <= i < |src| && src[i] == value && Injective(src) ==>
      Translate(value, src, dst) == Some(dst[i])
    decreases |src|
  {
    if src != [] {
      TranslateByName(src[1..], dst[1..], value);
      forall i | 0 <= i < |src| && src[i] == value && Injective(src)
        ensures Translate(value, src, dst) == Some(dst[i])
      {
        if i > 0 {
          assert src[1..][i-1] == value;
        }
      }
    }
  }

  /** Between libraries with distinct constants nothing is lost on the way there and back. */
  lemma TranslateRoundTrip(src: seq<int>, dst: seq<int>, value: int)
    requires |src| == |dst| && Injective(src) && Injective(dst) && value in src
    ensures Translate(value, src, dst).Some?
    ensures Translate(Translate(value, src, dst).value, dst, src) == Some(value)
  {
    var i :| 0 <= i < |src| && src[i] == value;
    TranslateByName(src, dst, value);
    TranslateByName(dst, src, dst[i]);
  }

  // A setter's name and arguments; only the auth mode is a library constant.
  datatype Setting = AuthMode(mode: int) | Other(name: string, args: seq<string>)

  function TranslateSetting(s: Setting, src: Constants, dst: Constants): Option<Setting> {
    match s
    case Other(_, _) => Some(s)
    case AuthMode(mode) =>
      var m := Translate(mode, src.authModes, dst.authModes);
      if m.Some? then Some(AuthMode(m.value)) else None
  }

  /** The settings with their constants translated by name. */
  function TranslateAll(applied: seq<Setting>, src: Constants, dst: Constants): Option<seq<Setting>>
    decreases |applied|
  {
    if applied == [] then Some([])
    else
      var init := TranslateAll(applied[..|applied| - 1], src, dst);
      var last := TranslateSetting(applied[|applied| - 1], src, dst);
      if init.Some? && last.Some? then Some(init.value + [last.value]) else None
  }

  // `_alt_configs` for one library: usable, or unavailable for lack of TLS (no config) or because
  // it fell behind (the config is kept until `__del__`).
  datatype Alt = Alt(lib: Lib, constants: Constants, mode: int, usable: bool, cfg: Option<Cfg>, applied: seq<Setting>)

  /** How one alternative library takes a setter. */
  datatype Taken = Skipped | Applied(s: Setting) | Unknown | Failed

  function Take(alt: Alt, src: Constants, s: Setting, fails: Lib -> bool): Taken {
    if !alt.usable then Skipped
    else
      var t := TranslateSetting(s, src, alt.constants);
      if t.None? then Unknown else if fails(alt.lib) then Failed else Applied(t.value)
  }

  /** The loop of `_apply_everywhere` over the other libraries: it stops at the first exception. */
  function ApplyAlts(alts: seq<Alt>, src: Constants, s: Setting, fails: Lib -> bool): (r: (seq<Alt>, bool))
    ensures |r.0| == |alts|
    decreases |alts|
  {
    if alts == [] then ([], false)
    else
      var (rest, raised) := ApplyAlts(alts[1..], src, s, fails);
      match Take(alts[0], src, s, fails)
      case Skipped => ([alts[0]] + rest, raised)
      case Applied(t) => ([alts[0].(applied := alts[0].applied + [t])] + rest, raised)
      case Unknown => (alts, true)
      case Failed => ([alts[0].(usable := false)] + alts[1..], true)
  }

  /** It raises if and only if some library does not take the setting and was not refused before. */
  lemma {:induction false} RaisesIff(alts: seq<Alt>, src: Constants, s: Setting, fails: Lib -> bool)
    ensures ApplyAlts(alts, src, s, fails).1
      <==> exists i :: 0 <= i < |alts| && alts[i].usable
             && (fails(alts[i].lib) || TranslateSetting(s, src, alts[i].constants).None?)
    decreases |alts|
  {
    if alts != [] {
      RaisesIff(alts[1..], src, s, fails);
      assert forall i :: 1 <= i < |alts| ==> alts[i] == alts[1..][i-1];
      if ApplyAlts(alts[1..], src, s, fails).1 {
        var i :| 0 <= i < |alts[1..]| && alts[1..][i].usable
          && (fails(alts[1..][i].lib) || TranslateSetting(s, src, alts[1..][i].constants).None?);
        assert alts[i+1] == alts[1..][i];
      }
    }
  }

  /** Where the loop of `_apply_everywhere` will end from its `i`-th turn. */
  function Resumed(alts: seq<Alt>, i: nat, raised: bool, src: Constants, s: Setting, fails: Lib -> bool)
    : (seq<Alt>, bool)
    requires i <= |alts|
  {
    if raised then (alts, true)
    else var (rest, r) := ApplyAlts(alts[i..], src, s, fails); (alts[..i] + rest, r)
  }

  lemma ResumedEnds(alts: seq<Alt>, src: Constants, s: Setting, fails: Lib -> bool)
    ensures Resumed(alts, 0, false, src, s, fails) == ApplyAlts(alts, src, s, fails)
    ensures Resumed(alts, |alts|, false, src, s, fails) == (alts, false)
  {
    assert alts[0..] == alts;
    assert [] + ApplyAlts(alts, src, s, fails).0 == ApplyAlts(alts, src, s, fails).0;
    assert alts[..|alts|] + [] == alts;
  }

  lemma ApplyTurn(alts: seq<Alt>, i: nat, src: Constants, s: Setting, fails: Lib -> bool)
    requires i < |alts|
    ensures Resumed(alts, i, false, src, s, fails)
      == match Take(alts[i], src, s, fails)
         case Skipped => Resumed(alts, i + 1, false, src, s, fails)
         case Applied(t) => Resumed(alts[i := alts[i].(applied := alts[i].applied + [t])], i + 1, false, src, s, fails)
         case Unknown => (alts, true)
         case Failed => (alts[i := alts[i].(usable := false)], true)
  {
    assert alts[i..][0] == alts[i] && alts[i..][1..] == alts[i+1..];
    var rest := ApplyAlts(alts[i+1..], src, s, fails).0;
    match Take(alts[i], src, s, fails)
    case Skipped => assert alts[..i] + ([alts[i]] + rest) == alts[..i+1] + rest;
    case Applied(t) =>
      var entry := alts[i].(applied := alts[i].applied + [t]);
      var alts' := alts[i := entry];
      assert alts'[i+1..] == alts[i+1..];
      assert alts[..i] + ([entry] + rest) == alts'[..i+1] + rest;
    case Unknown => assert alts[..i] + alts[i..] == alts;
    case Failed =>
      var entry := alts[i].(usable := false);
      assert alts[..i] + ([entry] + alts[i+1..]) == alts[i := entry];
  }

  /** The alternative has the primary's settings, translated, or `_config_for` refuses it. */
  predicate Agrees(applied: seq<Setting>, src: Constants, alt: Alt) {
    alt.usable ==> TranslateAll(applied, src, alt.constants) == Some(alt.applied)
  }

  predicate AllAgree(applied: seq<Setting>, src: Constants, alts: seq<Alt>) {
    forall i :: 0 <= i < |alts| ==> Agrees(applied, src, alts[i])
  }

  /** The same setting in two libraries: an auth mode is each library's own value of one name, and
  everything else is equal. */
  ghost predicate SameSetting(a: Setting, b: Setting, src: Constants, dst: Constants) {
    match a
    case AuthMode(mode) =>
      b.AuthMode? && exists i | 0 <= i < |src.authModes| && i < |dst.authModes| ::
        src.authModes[i] == mode && dst.authModes[i] == b.mode
    case Other(_, _) => b == a
  }

  /** The alternative has the primary's settings, one by one. */
  ghost predicate SameSettings(applied: seq<Setting>, src: Constants, alt: Alt) {
    |alt.applied| == |applied|
    && forall j :: 0 <= j < |applied| ==> SameSetting(applied[j], alt.applied[j], src, alt.constants)
  }

  predicate Comparable(src: Constants, dst: Constants) {
    |src.authModes| == |dst.authModes| && Injective(src.authModes)
  }

  lemma TranslatesByName(s: Setting, src: Constants, dst: Constants)
    requires Comparable(src, dst)
    ensures var t := TranslateSetting(s, src, dst);
      && (s.Other? ==> t == Some(s))
      && (s.AuthMode? ==> (t.Some? <==> s.mode in src.authModes))
      && (t.Some? ==> SameSetting(s, t.value, src, dst))
    ensures forall b :: SameSetting(s, b, src, dst) ==> TranslateSetting(s, src, dst) == Some(b)
  {
    if s.AuthMode? {
      TranslateByName(src.authModes, dst.authModes, s.mode);
      if s.mode in src.authModes {
        var i :| 0 <= i < |src.authModes| && src.authModes[i] == s.mode;
        assert Translate(s.mode, src.authModes, dst.authModes) == Some(dst.authModes[i]);
      }
    }
  }

  lemma {:induction false} TranslatesAllByName(
    applied: seq<Setting>, theirs: seq<Setting>, src: Constants, dst: Constants)
    requires Comparable(src, dst)
    ensures TranslateAll(applied, src, dst) == Some(theirs)
      <==> |theirs| == |applied| && forall j :: 0 <= j < |applied| ==> SameSetting(applied[j], theirs[j], src, dst)
    decreases |applied|
  {
    if applied != [] && theirs == [] {
      TranslatedLength(applied, src, dst);
    } else if applied != [] {
      var n, k := |applied| - 1, |theirs| - 1;
      TranslatesAllByName(applied[..n], theirs[..k], src, dst);
      TranslatesByName(applied[n], src, dst);
      assert theirs == theirs[..k] + [theirs[k]];
      TranslatedLength(applied[..n], src, dst);
    }
  }

  /** Agreement is what it should be: a usable library has the primary's settings by name. */
  lemma AgreesByName(applied: seq<Setting>, src: Constants, alt: Alt)
    requires Comparable(src, alt.constants) && alt.usable
    ensures Agrees(applied, src, alt) <==> SameSettings(applied, src, alt)
  {
    TranslatesAllByName(applied, alt.applied, src, alt.constants);
  }

  /** Some usable library does not get a setting that the primary got: its own constant has no such
  name, or the loop stopped at a library before it. */
  predicate LeavesBehind(alts: seq<Alt>, src: Constants, s: Setting, fails: Lib -> bool)
    decreases |alts|
  {
    alts != [] &&
    match Take(alts[0], src, s, fails)
    case Skipped => LeavesBehind(alts[1..], src, s, fails)
    case Applied(_) => LeavesBehind(alts[1..], src, s, fails)
    case Unknown => true
    case Failed => exists i :: 1 <= i < |alts| && alts[i].usable
  }

  lemma {:induction false} TranslatedLength(applied: seq<Setting>, src: Constants, dst: Constants)
    ensures TranslateAll(applied, src, dst).Some? ==> |TranslateAll(applied, src, dst).value| == |applied|
    decreases |applied|
  {
    if applied != [] {
      TranslatedLength(applied[..|applied| - 1], src, dst);
    }
  }

  lemma TranslateOneMore(applied: seq<Setting>, s: Setting, src: Constants, dst: Constants)
    ensures TranslateAll(applied + [s], src, dst)
      == var init, last := TranslateAll(applied, src, dst), TranslateSetting(s, src, dst);
         if init.Some? && last.Some? then Some(init.value + [last.value]) else None
  {
    assert (applied + [s])[..|applied|] == applied;
  }

  /** A usable library that agreed and did not get the setting disagrees now. */
  lemma MissedSetting(applied: seq<Setting>, s: Setting, src: Constants, alt: Alt)
    requires alt.usable && Agrees(applied, src, alt)
    ensures !Agrees(applied + [s], src, alt)
  {
    TranslatedLength(applied, src, alt.constants);
    TranslatedLength(applied + [s], src, alt.constants);
  }

  /** After the primary took a setting, the libraries still agree exactly if nobody was left behind. */
  lemma {:induction false} AgreementExact(
    applied: seq<Setting>, s: Setting, src: Constants, alts: seq<Alt>, fails: Lib -> bool)
    requires AllAgree(applied, src, alts)
    ensures AllAgree(applied + [s], src, ApplyAlts(alts, src, s, fails).0) <==> !LeavesBehind(alts, src, s, fails)
    decreases |alts|
  {
    if alts != [] {
      var alts' := ApplyAlts(alts, src, s, fails).0;
      assert Agrees(applied, src, alts[0]);
      forall i | 0 <= i < |alts[1..]| ensures Agrees(applied, src, alts[1..][i]) {
        assert alts[1..][i] == alts[i+1];
      }
      AgreementExact(applied, s, src, alts[1..], fails);
      TranslateOneMore(applied, s, src, alts[0].constants);
      match Take(alts[0], src, s, fails)
      case Unknown => MissedSetting(applied, s, src, alts[0]); assert alts'[0] == alts[0];
      case Failed =>
        forall i | 1 <= i < |alts| ensures Agrees(applied + [s], src, alts'[i]) <==> !alts[i].usable {
          assert alts'[i] == alts[i];
          if alts[i].usable { MissedSetting(applied, s, src, alts[i]); }
        }
      case _ =>
        var rest := ApplyAlts(alts[1..], src, s, fails).0;
        assert alts'[1..] == rest;
        assert forall i :: 0 <= i < |rest| ==> rest[i] == alts'[i+1];
        assert Agrees(applied + [s], src, alts'[0]);
        assert AllAgree(applied + [s], src, alts') <==> AllAgree(applied + [s], src, rest) by {
          if AllAgree(applied + [s], src, alts') {
            forall i | 0 <= i < |rest| ensures Agrees(applied + [s], src, rest[i]) { assert rest[i] == alts'[i+1]; }
          }
          if AllAgree(applied + [s], src, rest) {
            forall i | 0 <= i < |alts'| ensures Agrees(applied + [s], src, alts'[i]) {
              if i > 0 { assert alts'[i] == rest[i-1]; }
            }
          }
        }
    }
  }

  /** With one alternative library and a known auth mode nobody is left behind. */
  lemma OneLibraryKeepsUp(alts: seq<Alt>, src: Constants, s: Setting, fails: Lib -> bool)
    requires |alts| <= 1
    requires forall alt :: alt in alts ==> |alt.constants.authModes| == |src.authModes|
    requires s.AuthMode? ==> s.mode in src.authModes
    ensures !LeavesBehind(alts, src, s, fails)
  {
    if alts != [] && s.AuthMode? {
      TranslateByName(src.authModes, alts[0].constants.authModes, s.mode);
    }
  }

  /** A primary library and others that agree with it, before any setter. */
  function Fresh(lib: Lib, constants: Constants): Alt {
    Alt(lib, constants, 0, true, Some(lib), [])
  }

  /** An auth mode that the primary's library accepts and that no name has: the translation raises
  after the primary took the setter, outside the `try`, and the other library stays usable. */
  lemma UnnamedModeLeavesBehind(src: Constants, mode: int, other: Constants)
    requires mode !in src.authModes && |other.authModes| == |src.authModes|
    ensures var alts := [Fresh(1, other)];
      var (alts', raised) := ApplyAlts(alts, src, AuthMode(mode), _ => false);
      AllAgree([], src, alts) && raised && alts'[0].usable && !AllAgree([AuthMode(mode)], src, alts')
  {
    TranslateByName(src.authModes, other.authModes, mode);
    var alts := [Fresh(1, other)];
    AgreementExact([], AuthMode(mode), src, alts, _ => false);
  }

  /** Three libraries, of which the second fails: the loop stops, and the third stays usable without
  the setting. */
  lemma ThirdLibraryLeftBehind(src: Constants, name: string)
    ensures var alts := [Fresh(1, src), Fresh(2, src)];
      var (alts', raised) := ApplyAlts(alts, src, Other(name, []), lib => lib == 1);
      AllAgree([], src, alts) && raised && alts'[1].usable && !AllAgree([Other(name, [])], src, alts')
  {
    var alts := [Fresh(1, src), Fresh(2, src)];
    AgreementExact([], Other(name, []), src, alts, lib => lib == 1);
  }

  // ---------- any sequence of setters ----------

  // One setter call: does the primary's library refuse it, and which others would?
  datatype Call = Call(setting: Setting, primaryFails: bool, fails: Lib -> bool)

  datatype Replicas = Replicas(applied: seq<Setting>, alts: seq<Alt>)

  function Set(r: Replicas, src: Constants, call: Call): Replicas {
    if call.primaryFails then r
    else Replicas(r.applied + [call.setting], ApplyAlts(r.alts, src, call.setting, call.fails).0)
  }

  function SetAll(r: Replicas, src: Constants, calls: seq<Call>): Replicas
    decreases |calls|
  {
    if calls == [] then r else SetAll(Set(r, src, calls[0]), src, calls[1..])
  }

  lemma {:induction false} AltsKeepShape(alts: seq<Alt>, src: Constants, s: Setting, fails: Lib -> bool)
    ensures var alts' := ApplyAlts(alts, src, s, fails).0;
      forall i :: 0 <= i < |alts| ==>
        && alts'[i].lib == alts[i].lib && alts'[i].constants == alts[i].constants
        && alts'[i].mode == alts[i].mode && alts'[i].cfg == alts[i].cfg
        && (alts'[i].usable ==> alts[i].usable)
    decreases |alts|
  {
    if alts != [] {
      AltsKeepShape(alts[1..], src, s, fails);
      var alts' := ApplyAlts(alts, src, s, fails).0;
      forall i | 0 <= i < |alts|
        ensures alts'[i].lib == alts[i].lib && alts'[i].constants == alts[i].constants
        ensures alts'[i].mode == alts[i].mode && alts'[i].cfg == alts[i].cfg
        ensures alts'[i].usable ==> alts[i].usable
      {
        if i > 0 { assert alts[i] == alts[1..][i-1]; }
      }
    }
  }

  // The settings that the primary's library took, in order.
  function SettingsTaken(calls: seq<Call>): seq<Setting>
    decreases |calls|
  {
    if calls == [] then [] else (if calls[0].primaryFails then [] else [calls[0].setting]) + SettingsTaken(calls[1..])
  }

  lemma {:induction false} PrimaryTakesAll(r: Replicas, src: Constants, calls: seq<Call>)
    ensures SetAll(r, src, calls).applied == r.applied + SettingsTaken(calls)
    ensures |SetAll(r, src, calls).alts| == |r.alts|
    decreases |calls|
  {
    if calls != [] {
      PrimaryTakesAll(Set(r, src, calls[0]), src, calls[1..]);
    }
  }

  /** The same, said of every setting: after any setters with known auth modes that the primary took,
  the other library has the same number of settings, each the same by name, or it is refused. */
  lemma ReplicasAgreeByName(src: Constants, alt: Alt, calls: seq<Call>)
    requires alt.applied == [] && Comparable(src, alt.constants)
    requires forall i :: 0 <= i < |calls| && calls[i].setting.AuthMode? ==> calls[i].setting.mode in src.authModes
    ensures var alts' := SetAll(Replicas([], [alt]), src, calls).alts;
      |alts'| == 1 && (alts'[0].usable ==> SameSettings(SettingsTaken(calls), src, alts'[0]))
  {
    var r := Replicas([], [alt]);
    PrimaryTakesAll(r, src, calls);
    ReplicasAgree(r, src, calls);
    SetAllKeepsShape(r, src, calls);
    var r' := SetAll(r, src, calls);
    assert [] + SettingsTaken(calls) == SettingsTaken(calls);
    assert Agrees(r'.applied, src, r'.alts[0]);
    if r'.alts[0].usable {
      AgreesByName(r'.applied, src, r'.alts[0]);
    }
  }

  lemma {:induction false} SetAllKeepsShape(r: Replicas, src: Constants, calls: seq<Call>)
    ensures var alts' := SetAll(r, src, calls).alts;
      |alts'| == |r.alts| && forall i :: 0 <= i < |alts'| ==> alts'[i].constants == r.alts[i].constants
    decreases |calls|
  {
    if calls != [] {
      if !calls[0].primaryFails {
        AltsKeepShape(r.alts, src, calls[0].setting, calls[0].fails);
      }
      SetAllKeepsShape(Set(r, src, calls[0]), src, calls[1..]);
    }
  }

  /** After any setters with known auth modes, the one other library has the primary's settings with
  the constants translated by name, or it is refused. */
  lemma {:induction false} ReplicasAgree(r: Replicas, src: Constants, calls: seq<Call>)
    requires |r.alts| <= 1 && AllAgree(r.applied, src, r.alts)
    requires forall alt :: alt in r.alts ==> |alt.constants.authModes| == |src.authModes|
    requires forall i :: 0 <= i < |calls| && calls[i].setting.AuthMode? ==> calls[i].setting.mode in src.authModes
    ensures AllAgree(SetAll(r, src, calls).applied, src, SetAll(r, src, calls).alts)
    decreases |calls|
  {
    if calls != [] {
      var c := calls[0];
      if !c.primaryFails {
        OneLibraryKeepsUp(r.alts, src, c.setting, c.fails);
        AgreementExact(r.applied, c.setting, src, r.alts, c.fails);
        AltsKeepShape(r.alts, src, c.setting, c.fails);
      }
      ReplicasAgree(Set(r, src, c), src, calls[1..]);
    }
  }

  // ---------- the object ----------

  // The configurations that nng has allocated and not freed.
  class Nng {
    var live: set<Cfg>

    method Alloc(cfg: Cfg)
      requires cfg !in live
      modifies this
      ensures live == old(live) + {cfg}
    {
      live := live + {cfg};
    }

    method Free(cfg: Cfg)
      requires cfg in live
      modifies this
      ensures live == old(live) - {cfg}
    {
      live := live - {cfg};
    }
  }

  datatype AllocResult = Allocated(cfg: Cfg) | NotSupported | AllocError

  datatype Lookup = Config(cfg: Cfg) | NoConfigYet | Unavailable

  /** The configurations that `alts` own. */
  function OwnedBy(alts: seq<Alt>): set<Cfg> {
    set i | 0 <= i < |alts| && alts[i].cfg.Some? :: alts[i].cfg.value
  }

  predicate DistinctConfigs(alts: seq<Alt>) {
    && (forall i, j :: 0 <= i < j < |alts| && alts[i].cfg.Some? ==> alts[i].cfg != alts[j].cfg)
    && (forall i, j :: 0 <= i < j < |alts| ==> alts[i].lib != alts[j].lib)
    && (forall i :: 0 <= i < |alts| && alts[i].usable ==> alts[i].cfg.Some?)
  }

  /** The entry of a library that was asked for a configuration of `mode`. */
  function AltFor(other: (Lib, Constants), mode: int, result: AllocResult): Alt {
    if result.Allocated? then Alt(other.0, other.1, mode, true, Some(result.cfg), [])
    else Alt(other.0, other.1, mode, false, None, [])
  }

  /** The entry was made for the primary's mode, translated by name. */
  predicate MadeFor(alt: Alt, mode: int, src: Constants, other: (Lib, Constants), result: AllocResult) {
    && Translate(mode, src.modes, other.1.modes) == Some(alt.mode)
    && alt == AltFor(other, alt.mode, result)
  }

  /** An unknown mode, or an error other than NNG_ENOTSUP. */
  predicate AllocRaises(mode: int, src: Constants, dst: Constants, result: AllocResult) {
    Translate(mode, src.modes, dst.modes).None? || result.AllocError?
  }

  class TLSConfig {
    const lib: Lib
    const constants: Constants
    const nng: Nng
    var config: Option<Cfg>
    var applied: seq<Setting>
    var alts: seq<Alt>

    /** Every configuration this object owns is allocated, and owned once. */
    ghost predicate Valid()
      reads this, nng
    {
      && DistinctConfigs(alts)
      && OwnedBy(alts) <= nng.live
      && (config.Some? ==> config.value in nng.live && config.value !in OwnedBy(alts))
    }

    ghost predicate Agree()
      reads this
    {
      AllAgree(applied, constants, alts)
    }

    constructor (lib: Lib, constants: Constants, nng: Nng)
      ensures Valid() && Agree() && this.nng == nng && this.lib == lib && this.constants == constants
      ensures config.None? && alts == [] && applied == []
    {
      this.lib, this.constants, this.nng := lib, constants, nng;
      config, applied, alts := None, [], [];
    }

    /** The allocations of `__init__`: the primary's, and one for every other library that was
    initialized and has TLS.  If one raises, what was allocated stays owned for `__del__`. */
    method Allocate(mode: int, cfg: Cfg, others: seq<(Lib, Constants)>, results: seq<AllocResult>)
      returns (raised: bool)
      requires Valid() && config.None? && alts == [] && applied == [] && cfg !in nng.live
      requires |others| == |results|
      requires forall i :: 0 <= i < |others| ==> others[i].0 != lib
      requires forall i, j :: 0 <= i < j < |others| ==> others[i].0 != others[j].0
      requires forall i :: 0 <= i < |results| && results[i].Allocated? ==>
        results[i].cfg != cfg && results[i].cfg !in nng.live
      requires forall i, j :: 0 <= i < j < |results| && results[i].Allocated? ==> results[i] != results[j]
      modifies this, nng
      ensures Valid() && Agree() && config == Some(cfg)
      ensures nng.live == old(nng.live) + {cfg} + OwnedBy(alts)
      ensures raised <==> exists i | 0 <= i < |others| :: AllocRaises(mode, constants, others[i].1, results[i])
      ensures |alts| <= |others|
      ensures forall i | 0 <= i < |alts| :: MadeFor(alts[i], mode, constants, others[i], results[i])
      ensures !raised ==> |alts| == |others|
    {
      nng.Alloc(cfg);
      config := Some(cfg);
      for i := 0 to |others|
        invariant Valid() && config == Some(cfg) && applied == []
        invariant |alts| == i && forall j | 0 <= j < i :: MadeFor(alts[j], mode, constants, others[j], results[j])
        invariant nng.live == old(nng.live) + {cfg} + OwnedBy(alts)
        invariant forall j | 0 <= j < i :: !AllocRaises(mode, constants, others[j].1, results[j])
      {
        var altMode := Translate(mode, constants.modes, others[i].1.modes);
        if altMode.None? || results[i].AllocError? { return true; }
        AddAlt(others[i], altMode.value, results[i]);
      }
      raised := false;
    }

    /** One more library gets its configuration, if it has TLS. */
    method AddAlt(other: (Lib, Constants), mode: int, result: AllocResult)
      requires Valid() && forall i :: 0 <= i < |alts| ==> alts[i].lib != other.0
      requires result.Allocated? ==> result.cfg !in nng.live
      modifies this`alts, nng
      ensures Valid() && alts == old(alts) + [AltFor(other, mode, result)]
      ensures nng.live == old(nng.live) + (if result.Allocated? then {result.cfg} else {})
      ensures OwnedBy(alts) == old(OwnedBy(alts)) + (if result.Allocated? then {result.cfg} else {})
    {
      OwnedByAppend(alts, AltFor(other, mode, result));
      if result.Allocated? {
        nng.Alloc(result.cfg);
      }
      alts := alts + [AltFor(other, mode, result)];
    }

    /** `_apply_everywhere`. */
    method ApplyEverywhere(s: Setting, primaryFails: bool, fails: Lib -> bool) returns (raised: bool)
      requires Valid() && config.Some?
      modifies this`applied, this`alts
      ensures Valid() && config == old(config)
      ensures Replicas(applied, alts) == Set(old(Replicas(applied, alts)), constants, Call(s, primaryFails, fails))
      ensures applied == if primaryFails then old(applied) else old(applied) + [s]
      ensures raised <==> primaryFails || ApplyAlts(old(alts), constants, s, fails).1
      ensures old(Agree()) ==>
        (Agree() <==> primaryFails || !LeavesBehind(old(alts), constants, s, fails))
    {
      if primaryFails { return true; }
      if AllAgree(applied, constants, alts) {
        AgreementExact(applied, s, constants, alts, fails);
      }
      AltsKeepShape(alts, constants, s, fails);
      SameOwned(alts, ApplyAlts(alts, constants, s, fails).0);
      applied := applied + [s];
      raised := ApplyToAlts(s, fails);
    }

    /** Its loop over the other libraries. */
    method ApplyToAlts(s: Setting, fails: Lib -> bool) returns (raised: bool)
      modifies this`alts
      ensures (alts, raised) == ApplyAlts(old(alts), constants, s, fails)
    {
      ghost var alts0 := alts;
      raised := false;
      var i := 0;
      ResumedEnds(alts, constants, s, fails);
      while i < |alts| && !raised
        invariant 0 <= i <= |alts|
        invariant Resumed(alts, i, raised, constants, s, fails) == ApplyAlts(alts0, constants, s, fails)
        decreases |alts| - i, !raised
      {
        ApplyTurn(alts, i, constants, s, fails);
        match Take(alts[i], constants, s, fails) {
          case Skipped =>
          case Applied(t) => alts := alts[i := alts[i].(applied := alts[i].applied + [t])];
          case Unknown => raised := true;
          case Failed =>
            alts := alts[i := alts[i].(usable := false)];
            raised := true;
        }
        i := i + 1;
      }
      ResumedEnds(alts, constants, s, fails);
    }

    /** `_config_for`. */
    method ConfigFor(target: Option<Lib>) returns (r: Lookup)
      requires Valid() && config.Some?
      ensures target.None? || target.value == lib ==> r == Config(config.value)
      ensures target.Some? && target.value != lib ==>
        && (r.NoConfigYet? <==> forall alt :: alt in alts ==> alt.lib != target.value)
        && (r.Unavailable? <==> exists alt :: alt in alts && alt.lib == target.value && !alt.usable)
        && (r.Config? ==> exists alt | alt in alts ::
              && alt.lib == target.value && alt.usable && alt.cfg == Some(r.cfg)
              && (Agree() && Comparable(constants, alt.constants) ==> SameSettings(applied, constants, alt)))
    {
      if target.None? || target.value == lib { return Config(config.value); }
      for i := 0 to |alts|
        invariant forall j :: 0 <= j < i ==> alts[j].lib != target.value
      {
        if alts[i].lib == target.value {
          assert alts[i] in alts;
          assert Agree() ==> Agrees(applied, constants, alts[i]);
          if alts[i].usable && Comparable(constants, alts[i].constants) {
            AgreesByName(applied, constants, alts[i]);
          }
          return if alts[i].usable then Config(alts[i].cfg.value) else Unavailable;
        }
      }
      r := NoConfigYet;
    }

    /** `__del__`: frees every configuration that the object owns, the diverged ones too, each once. */
    method Del()
      requires Valid()
      modifies this, nng
      ensures Valid() && config.None? && alts == []
      ensures nng.live == old(nng.live) - OwnedBy(old(alts)) - (if old(config).Some? then {old(config).value} else {})
    {
      if config.Some? {
        var cfg := config.value;
        config := None;
        nng.Free(cfg);
      }
      ghost var live0 := nng.live;
      for i := 0 to |alts|
        invariant alts == old(alts) && config.None? && DistinctConfigs(alts)
        invariant OwnedBy(alts) <= live0
        invariant nng.live == live0 - OwnedBy(alts[..i])
      {
        assert alts[..i+1] == alts[..i] + [alts[i]];
        OwnedByAppend(alts[..i], alts[i]);
        if alts[i].cfg.Some? {
          assert alts[i].cfg.value !in OwnedBy(alts[..i]);
          nng.Free(alts[i].cfg.value);
        }
      }
      assert alts[..|alts|] == alts;
      alts := [];
    }
  }

  lemma OwnedByAppend(alts: seq<Alt>, alt: Alt)
    ensures OwnedBy(alts + [alt]) == OwnedBy(alts) + (if alt.cfg.Some? then {alt.cfg.value} else {})
  {
    var all := alts + [alt];
    assert forall i :: 0 <= i < |alts| ==> all[i] == alts[i];
    assert all[|alts|] == alt;
    forall c | c in OwnedBy(alts) ensures c in OwnedBy(all) {
      var i :| 0 <= i < |alts| && alts[i].cfg.Some? && alts[i].cfg.value == c;
      assert all[i].cfg == Some(c);
    }
  }

  lemma SameOwned(alts: seq<Alt>, alts': seq<Alt>)
    requires |alts| == |alts'| && forall i :: 0 <= i < |alts| ==> alts'[i].cfg == alts[i].cfg
    ensures OwnedBy(alts) == OwnedBy(alts')
  {
    forall c ensures c in OwnedBy(alts) <==> c in OwnedBy(alts') {
      if c in OwnedBy(alts) {
        var i :| 0 <= i < |alts| && alts[i].cfg.Some? && alts[i].cfg.value == c;
        assert alts'[i].cfg == Some(c);
      }
      if c in OwnedBy(alts') {
        var i :| 0 <= i < |alts'| && alts'[i].cfg.Some? && alts'[i].cfg.value == c;
        assert alts[i].cfg == Some(c);
      }
    }
  }
}
