/** The four CPU architectures, named by their compiler target triple and by Android ABI. */
module Archs {
  import opened Wrappers

  datatype Arch = Armv7 | Aarch64 | I686 | X86_64

  /** The raw value: the target triple handed to the Swift toolchain. */
  function Triple(a: Arch): string {
    match a
    case Armv7 => "armv7-unknown-linux-android"
    case Aarch64 => "aarch64-unknown-linux-android"
    case I686 => "i686-unknown-linux-android"
    case X86_64 => "x86_64-unknown-linux-android"
  }

  /** `android`: the ABI name Android uses for the architecture, which can stand in a
      comma-separated list and as a folder name. */
  function Android(a: Arch): (name: string)
    ensures name in AbiNames && name != [] && ',' !in name && '/' !in name
  {
    match a
    case Armv7 => "armeabi-v7a"
    case Aarch64 => "arm64-v8a"
    case I686 => "x86"
    case X86_64 => "x86_64"
  }

  /** The four ABI names, in declaration order. */
  const AbiNames: seq<string> := ["armeabi-v7a", "arm64-v8a", "x86", "x86_64"]

  /** `fromAndroid`: the inverse of `Android`, undefined on every other name. */
  function FromAndroid(name: string): (r: Option<Arch>)
    ensures r.Some? <==> name in AbiNames
    ensures r.Some? ==> name == Android(r.value)
  {
    if name == "armeabi-v7a" then Some(Armv7)
    else if name == "arm64-v8a" then Some(Aarch64)
    else if name == "x86" then Some(I686)
    else if name == "x86_64" then Some(X86_64)
    else None
  }

  /** Reading back an architecture's ABI name gives the architecture. */
  lemma FromAndroidInverse(a: Arch)
    ensures FromAndroid(Android(a)) == Some(a)
  {
  }

  /** Distinct architectures have distinct ABI names. */
  lemma AndroidInjective(a: Arch, b: Arch)
    requires Android(a) == Android(b)
    ensures a == b
  {
    FromAndroidInverse(a);
    FromAndroidInverse(b);
  }
}
