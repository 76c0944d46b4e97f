/** The numbers that app stores order releases by, derived from a release version. */
module ReleaseVersion {
  import opened Prelude

  /** A version core and, for a beta, its number. */
  datatype Version = Version(major: nat, minor: nat, patch: nat, beta: Option<nat>)

  datatype Error = Unsupported | NotCollisionFree | BetaOutOfRange | CodeOutOfRange | BuildOutOfRange

  datatype Result<T> = Ok(value: T) | Err(error: Error)

  /** The app version is the version core. */
  datatype Release = Release(core: (nat, nat, nat), androidVersionCode: nat, iosBuildNumber: nat)

  const STABLE_IOS_BUILD_SLOT := 999
  const MAX_VERSION_CODE := 2_100_000_000
  const MAX_SAFE_INTEGER := 9_007_199_254_740_991

  function VersionCode(v: Version): nat {
    v.major * 1_000_000 + v.minor * 1_000 + v.patch
  }

  function BuildSlot(v: Version): nat {
    if v.beta.Some? then v.beta.value else STABLE_IOS_BUILD_SLOT
  }

  /** `version` is nothing when the text is no `major.minor.patch` or `major.minor.patch-beta.number`. */
  function NativeRelease(version: Option<Version>): Result<Release> {
    if version.None? then Err(Unsupported)
    else
      var v := version.value;
      if v.minor > 999 || v.patch > 999 then Err(NotCollisionFree)
      else if v.beta.Some? && (v.beta.value < 1 || v.beta.value >= STABLE_IOS_BUILD_SLOT) then Err(BetaOutOfRange)
      else
        var code := VersionCode(v);
        if code > MAX_SAFE_INTEGER || code <= 0 || code * 10 + 9 > MAX_VERSION_CODE then Err(CodeOutOfRange)
        else
          var build := code * 1_000 + BuildSlot(v);
          if build > MAX_SAFE_INTEGER then Err(BuildOutOfRange)
          else Ok(Release((v.major, v.minor, v.patch), code, build))
  }

  datatype Abi = ArmeabiV7a | Arm64V8a | X86 | X86_64

  const ABIS := [ArmeabiV7a, Arm64V8a, X86, X86_64]

  function Suffix(abi: Abi): nat {
    match abi
    case ArmeabiV7a => 1
    case Arm64V8a => 2
    case X86 => 3
    case X86_64 => 4
  }

  function FdroidVersionCodes(version: Option<Version>): Result<seq<(Abi, nat)>> {
    match NativeRelease(version)
    case Err(e) => Err(e)
    case Ok(release) =>
      Ok(seq(|ABIS|, i requires 0 <= i < |ABIS| => (ABIS[i], release.androidVersionCode * 10 + Suffix(ABIS[i]))))
  }

  // ---------------------------------------------------------------------------
  // What the numbers mean
  // ---------------------------------------------------------------------------

  /** Precedence by section 11 of Semantic Versioning 2.0.0, for versions of this shape. */
  predicate Precedes(v: Version, w: Version) {
    if v.major != w.major then v.major < w.major
    else if v.minor != w.minor then v.minor < w.minor
    else if v.patch != w.patch then v.patch < w.patch
    else v.beta.Some? && (w.beta.None? || v.beta.value < w.beta.value)
  }

  predicate Accepted(v: Version) {
    && v.major <= 209 && v.minor <= 999 && v.patch <= 999
    && (v.beta.Some? ==> 1 <= v.beta.value <= 998)
    && !(v.major == 0 && v.minor == 0 && v.patch == 0)
  }

  /** The build number taken apart by division and remainder. */
  function Decode(build: nat): Version {
    var code, slot := build / 1_000, build % 1_000;
    Version(code / 1_000_000, code / 1_000 % 1_000, code % 1_000,
            if slot == STABLE_IOS_BUILD_SLOT then None else Some(slot))
  }

  function Build(v: Version): nat
    requires NativeRelease(Some(v)).Ok?
  {
    NativeRelease(Some(v)).value.iosBuildNumber
  }

  /** A version is accepted exactly up to 209.999.999, short of 0.0.0, with a beta number from 1 to 998. */
  lemma AcceptedExactly(v: Version)
    ensures NativeRelease(Some(v)).Ok? <==> Accepted(v)
  {
    if v.major >= 210 {
      assert VersionCode(v) >= 210_000_000;
    }
  }

  /** The last check never refuses anything. */
  lemma SafeIntegerCheckNeverFails(version: Option<Version>)
    ensures NativeRelease(version) != Err(BuildOutOfRange)
  {
    if version.Some? {
      var code := VersionCode(version.value);
      assert code * 10 + 9 <= MAX_VERSION_CODE ==> code < 210_000_000;
    }
  }

  /** The build number gives the version back. */
  lemma DecodeBuild(v: Version)
    requires NativeRelease(Some(v)).Ok?
    ensures Decode(Build(v)) == v
  {
    AcceptedExactly(v);
    var code, pair, low := VersionCode(v), v.major * 1_000 + v.minor, v.minor * 1_000 + v.patch;
    assert code == pair * 1_000 + v.patch == v.major * 1_000_000 + low;
    assert Build(v) / 1_000 == code && Build(v) % 1_000 == BuildSlot(v);
    assert code / 1_000 == pair && code % 1_000 == v.patch;
    assert pair % 1_000 == v.minor && code / 1_000_000 == v.major;
  }

  /** Build numbers are ordered as the versions are; so no two versions share one. */
  lemma BuildOrder(v: Version, w: Version)
    requires NativeRelease(Some(v)).Ok? && NativeRelease(Some(w)).Ok?
    ensures Build(v) < Build(w) <==> Precedes(v, w)
    ensures Build(v) == Build(w) <==> v == w
  {
    AcceptedExactly(v);
    AcceptedExactly(w);
    if Build(v) == Build(w) {
      DecodeBuild(v);
      DecodeBuild(w);
    }
    CoreOrder(v, w);
  }

  /** The version code orders the cores, a beta and its release alike. */
  lemma CoreOrder(v: Version, w: Version)
    requires v.minor <= 999 && v.patch <= 999 && w.minor <= 999 && w.patch <= 999
    ensures VersionCode(v) < VersionCode(w) <==> Precedes(v.(beta := None), w.(beta := None))
    ensures VersionCode(v) == VersionCode(w) <==> v.(beta := None) == w.(beta := None)
  {
    if v.major < w.major { CoreBelow(v, w); }
    if w.major < v.major { CoreBelow(w, v); }
  }

  lemma CoreBelow(v: Version, w: Version)
    requires v.major < w.major && v.minor <= 999 && v.patch <= 999
    ensures VersionCode(v) < VersionCode(w)
  {
    assert (w.major - v.major) * 1_000_000 >= 1_000_000;
  }

  /** The four codes are distinct for every core and ABI, within the store's limit, and grow with the core. */
  lemma FdroidCodesExact(v: Version, w: Version, i: nat, j: nat)
    requires NativeRelease(Some(v)).Ok? && NativeRelease(Some(w)).Ok? && i < 4 && j < 4
    ensures FdroidVersionCodes(Some(v)).Ok? && |FdroidVersionCodes(Some(v)).value| == 4
    ensures FdroidVersionCodes(Some(w)).Ok? && |FdroidVersionCodes(Some(w)).value| == 4
    ensures var a, b := FdroidVersionCodes(Some(v)).value[i], FdroidVersionCodes(Some(w)).value[j];
            && a.0 == ABIS[i] && 0 < a.1 <= 2_100_000_000
            && (a.1 == b.1 <==> v.(beta := None) == w.(beta := None) && a.0 == b.0)
            && (Precedes(v.(beta := None), w.(beta := None)) ==> a.1 < b.1)
  {
    AcceptedExactly(v);
    AcceptedExactly(w);
    CoreOrder(v, w);
    SuffixDigit(ABIS[i]);
    SuffixDigit(ABIS[j]);
  }

  lemma SuffixDigit(abi: Abi)
    ensures 1 <= Suffix(abi) <= 4
    ensures forall other :: Suffix(abi) == Suffix(other) <==> abi == other
  {
  }

  /** The numbers themselves: three digits each for minor and patch, and the beta number or 999 behind them. */
  lemma NumbersExactly(v: Version)
    requires Accepted(v)
    ensures var code := v.major * 1_000_000 + v.minor * 1_000 + v.patch;
      && NativeRelease(Some(v)) == Ok(Release((v.major, v.minor, v.patch), code,
                                              code * 1_000 + if v.beta.Some? then v.beta.value else 999))
      && FdroidVersionCodes(Some(v)) == Ok([(ArmeabiV7a, code * 10 + 1), (Arm64V8a, code * 10 + 2),
                                            (X86, code * 10 + 3), (X86_64, code * 10 + 4)])
  {
    AcceptedExactly(v);
    var code := v.major * 1_000_000 + v.minor * 1_000 + v.patch;
    assert FdroidVersionCodes(Some(v)).value == [(ArmeabiV7a, code * 10 + 1), (Arm64V8a, code * 10 + 2),
                                                 (X86, code * 10 + 3), (X86_64, code * 10 + 4)];
  }

  /** Why a version is refused: the first of these reasons that applies, for both kinds of numbers. */
  lemma RefusedExactly(version: Option<Version>)
    ensures NativeRelease(version).Err? ==>
      && FdroidVersionCodes(version) == Err(NativeRelease(version).error)
      && NativeRelease(version).error ==
         if version.None? then Unsupported
         else if version.value.minor >= 1_000 || version.value.patch >= 1_000 then NotCollisionFree
         else if version.value.beta.Some? && !(1 <= version.value.beta.value <= 998) then BetaOutOfRange
         else CodeOutOfRange
  {
    SafeIntegerCheckNeverFails(version);
  }
}
