/**
 * The secure monitor calls the hello protection domain makes: the SMC
 * register record, the PSCI function identifiers it uses, and how the
 * version reply is split into its major and minor fields.
 */
module Psci {
  import opened CTypes

  const PSCI_VERSION_FID: U64 := 0x8400_0000
  const PSCI_CPU_OFF: U64 := 0x8400_0002
  const PSCI_CPU_ON: U64 := 0xC400_0003

  /** `seL4_ARM_SMCContext`: the eight argument (or result) registers x0 to x7. */
  datatype SmcContext = SmcContext(x0: U64, x1: U64, x2: U64, x3: U64, x4: U64, x5: U64, x6: U64, x7: U64)

  /** A record written `= {0}`: every register zero. */
  const ZERO_CONTEXT: SmcContext := SmcContext(0, 0, 0, 0, 0, 0, 0, 0)

  /** The PSCI functions this domain calls. */
  datatype PsciFunction = Version | CpuOff | CpuOn

  datatype Option<T> = None | Some(value: T)

  /** Which of the used PSCI functions an x0 value selects, if any. */
  function FunctionOf(x0: U64): Option<PsciFunction> {
    if x0 == PSCI_VERSION_FID then Some(Version)
    else if x0 == PSCI_CPU_OFF then Some(CpuOff)
    else if x0 == PSCI_CPU_ON then Some(CpuOn)
    else None
  }

  /** The function identifier placed in x0 for each call. */
  function FunctionId(f: PsciFunction): (id: U64)
    ensures FunctionOf(id) == Some(f)
  {
    match f
    case Version => PSCI_VERSION_FID
    case CpuOff => PSCI_CPU_OFF
    case CpuOn => PSCI_CPU_ON
  }

  /** The arguments of the `d` command: CPU_OFF, nothing else set. */
  const CPU_OFF_ARGS: SmcContext := ZERO_CONTEXT.(x0 := FunctionId(CpuOff))

  /** The arguments of the `p` command: PSCI_VERSION, nothing else set. */
  const VERSION_ARGS: SmcContext := ZERO_CONTEXT.(x0 := FunctionId(Version))

  /** Core 3, the one the `r` command tries to power on. */
  const CPU_ON_TARGET: U64 := 3
  /** The hard-wired entry point given to CPU_ON. */
  const CPU_ON_ENTRY: U64 := 0x7000_22F0

  /** The arguments of the `r` command: CPU_ON of core 3 at the fixed entry, context 0. */
  const CPU_ON_ARGS: SmcContext :=
    ZERO_CONTEXT.(x0 := FunctionId(CpuOn), x1 := CPU_ON_TARGET, x2 := CPU_ON_ENTRY, x3 := 0)

  /**
   * The major version of a PSCI_VERSION reply: `((uint32_t)x0 >> 16) & 0xFFFF`,
   * written as division of the 32-bit truncation by 2^16.
   */
  function VersionMajor(x0: U64): (major: nat)
    ensures major < 0x1_0000
  {
    (x0 % U32_LIMIT) / 0x1_0000 % 0x1_0000
  }

  /** The minor version of a PSCI_VERSION reply: `(uint32_t)x0 & 0xFFFF`. */
  function VersionMinor(x0: U64): (minor: nat)
    ensures minor < 0x1_0000
  {
    (x0 % U32_LIMIT) % 0x1_0000
  }

  /** How PSCI encodes a version: major in bits 31..16, minor in bits 15..0. */
  function EncodeVersion(major: nat, minor: nat): (x0: U64)
    requires major < 0x1_0000 && minor < 0x1_0000
    ensures x0 < U32_LIMIT
  {
    major * 0x1_0000 + minor
  }

  /** Splitting an encoded version gives back its two fields. */
  lemma VersionRoundTrip(major: nat, minor: nat)
    requires major < 0x1_0000 && minor < 0x1_0000
    ensures VersionMajor(EncodeVersion(major, minor)) == major
    ensures VersionMinor(EncodeVersion(major, minor)) == minor
  {
    var x0 := EncodeVersion(major, minor);
    assert x0 % U32_LIMIT == x0;
    assert x0 / 0x1_0000 == major;
  }

  /** The two fields together are the low 32 bits of x0; the upper half is ignored. */
  lemma VersionFieldsCoverLowWord(x0: U64)
    ensures EncodeVersion(VersionMajor(x0), VersionMinor(x0)) == x0 % U32_LIMIT
  {
    var w := x0 % U32_LIMIT;
    assert w / 0x1_0000 < 0x1_0000;
    assert w == w / 0x1_0000 * 0x1_0000 + w % 0x1_0000;
  }
}
