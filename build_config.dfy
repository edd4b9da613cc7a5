/**
 * The decision rules of the engine's build script: which Android ABI a
 * target maps to, the ON/OFF option strings, the product flavour, the CMake
 * generator, the prefix path handed to CMake, the CMake definitions that
 * make up the configuration, which source files are tracked for rebuilds,
 * and the link and rerun directives printed for Cargo.
 *
 * The build environment is a map from variable names to values (Cargo
 * enables a feature `f` by setting `CARGO_FEATURE_<F>`); target and host
 * triples are given already parsed. Running CMake, bindgen and the directory
 * walk are outside the model: the walk's entries are an input, the build's
 * output directory is an input, and directives are returned as values.
 */
module BuildConfig {
  import opened Common

  // ---------------------------------------------------------------------
  // Target triples, reduced to what the script inspects
  // ---------------------------------------------------------------------

  datatype ArmArchitecture = Armv6 | Armv7 | Armv7a | Armv7k | Armv7s | Armv8r | OtherArm
  datatype Architecture = Aarch64 | Arm(arm: ArmArchitecture) | X86_32 | X86_64 | Riscv64 | Wasm32 | OtherArchitecture
  datatype Vendor = Pc | Apple | Uwp | OtherVendor
  datatype OperatingSystem = Linux | Windows | Darwin | OtherOs
  datatype Environment = Android | Androideabi | Gnu | Msvc | Musl | OtherEnvironment
  datatype Triple = Triple(architecture: Architecture, vendor: Vendor, operatingSystem: OperatingSystem, environment: Environment)

  /** The process environment of the build script. */
  type Env = map<string, string>

  const BUNDLE_FFMPEG_INSTALL_DIR_VAR: string := "ALXR_BUNDLE_FFMPEG_INSTALL_PATH"
  const CMAKE_PREFIX_PATH_VAR: string := "CMAKE_PREFIX_PATH"
  const BUILD_CUDA_INTEROP_FEATURE: string := "CARGO_FEATURE_CUDA_INTEROP"
  const ENABLE_OCULUS_EXT_HEADERS_FEATURE: string := "CARGO_FEATURE_OCULUS_EXT_HEADERS"
  const DISABLE_DECODER_FEATURE: string := "CARGO_FEATURE_NO_DECODER"
  const CMAKE_GEN_ENV_VAR: string := "ALXR_CMAKE_GEN"
  const ANDROID_NDK_HOME_VAR: string := "ANDROID_NDK_HOME"
  /** The variables whose change makes Cargo rerun the script (`CMAKE_PREFIX_PATH` is not among them). */
  const ENV_VAR_MONITOR_LIST: seq<string> := [CMAKE_GEN_ENV_VAR, BUNDLE_FFMPEG_INSTALL_DIR_VAR]

  const DEFAULT_GENERATOR: string := "Ninja"
  const PICO_FLAVOUR: string := "PicoMobileOXR"

  // ---------------------------------------------------------------------
  // Small selection functions
  // ---------------------------------------------------------------------

  const ANDROID_ABIS: seq<string> := ["arm64-v8a", "armeabi-v7a", "x86_64", "x86"]

  /** `android_abi_name`: the Android ABI of a target architecture, if it has one. */
  function AndroidAbiName(t: Triple): (r: Option<string>)
    ensures r == Some("arm64-v8a") <==> t.architecture.Aarch64?
    ensures r == Some("armeabi-v7a") <==> t.architecture == Arm(Armv7a) || t.architecture == Arm(Armv7)
    ensures r == Some("x86_64") <==> t.architecture.X86_64?
    ensures r == Some("x86") <==> t.architecture.X86_32?
    ensures r.Some? ==> r.value in ANDROID_ABIS
  {
    match t.architecture
    case Aarch64 => Some("arm64-v8a")
    case Arm(a) => if a == Armv7a || a == Armv7 then Some("armeabi-v7a") else None
    case X86_64 => Some("x86_64")
    case X86_32 => Some("x86")
    case _ => None
  }

  /** `is_android_env`. */
  function IsAndroidEnv(t: Triple): (r: bool)
    ensures r <==> t.environment in {Android, Androideabi}
  {
    match t.environment
    case Android => true
    case Androideabi => true
    case _ => false
  }

  /** `is_feature_enabled`: some environment variable has exactly this name. */
  predicate IsFeatureEnabled(env: Env, featureName: string)
  {
    featureName in env
  }

  /** How CMake reads an ON/OFF option string back. */
  function OptionValue(s: string): Option<bool>
  {
    if s == "ON" then Some(true) else if s == "OFF" then Some(false) else None
  }

  /** `cmake_option_from_bool`. */
  function CmakeOptionFromBool(flag: bool): (r: string)
    ensures r == "ON" <==> flag
    ensures r == "OFF" <==> !flag
    ensures OptionValue(r) == Some(flag)
  {
    if flag then "ON" else "OFF"
  }

  /** `cmake_option_from_feature`: "ON" exactly when the variable is set, whatever its value. */
  function CmakeOptionFromFeature(env: Env, featureName: string): (r: string)
    ensures r == "ON" <==> featureName in env
    ensures OptionValue(r) == Some(featureName in env)
  {
    CmakeOptionFromBool(IsFeatureEnabled(env, featureName))
  }

  /** `env::var(name).unwrap_or_default()`. */
  function VarOrEmpty(env: Env, name: string): string
  {
    if name in env then env[name] else ""
  }

  // ---------------------------------------------------------------------
  // Product flavour
  // ---------------------------------------------------------------------

  const FLAVOUR_FEATURE_NAMES: seq<string> := ["GENERIC_FLAVOR", "PICO_FLAVOR"]
  const GRADLE_FLAVOUR_NAMES: seq<string> := ["Generic", "PicoMobileOXR"]
  const FEATURE_PREFIX: string := "CARGO_FEATURE_"

  /** The flavour `get_product_flavour` selects: the Gradle name of the first
      enabled flavour feature, Generic before Pico; Generic when none is. */
  function ProductFlavourOf(env: Env): (r: string)
    ensures r in GRADLE_FLAVOUR_NAMES
    ensures r == PICO_FLAVOUR <==>
              FEATURE_PREFIX + "PICO_FLAVOR" in env && FEATURE_PREFIX + "GENERIC_FLAVOR" !in env
  {
    if FEATURE_PREFIX + FLAVOUR_FEATURE_NAMES[0] in env then GRADLE_FLAVOUR_NAMES[0]
    else if FEATURE_PREFIX + FLAVOUR_FEATURE_NAMES[1] in env then GRADLE_FLAVOUR_NAMES[1]
    else GRADLE_FLAVOUR_NAMES[0]
  }

  /** `get_product_flavour`: scan the flavour features in order and return
      the Gradle name of the first one enabled. */
  method GetProductFlavour(env: Env) returns (r: string)
    ensures r in GRADLE_FLAVOUR_NAMES
    ensures r == PICO_FLAVOUR <==>
              FEATURE_PREFIX + "PICO_FLAVOR" in env && FEATURE_PREFIX + "GENERIC_FLAVOR" !in env
    ensures r == ProductFlavourOf(env)
  {
    for i := 0 to |FLAVOUR_FEATURE_NAMES|
      invariant forall j :: 0 <= j < i ==> !IsFeatureEnabled(env, FEATURE_PREFIX + FLAVOUR_FEATURE_NAMES[j])
    {
      var featureName := FEATURE_PREFIX + FLAVOUR_FEATURE_NAMES[i];
      if IsFeatureEnabled(env, featureName) {
        return GRADLE_FLAVOUR_NAMES[i];
      }
    }
    return GRADLE_FLAVOUR_NAMES[0];
  }

  // ---------------------------------------------------------------------
  // Generator and prefix path
  // ---------------------------------------------------------------------

  /** The CMake generator: `ALXR_CMAKE_GEN` unless it is unset or empty, then
      Ninja. Never empty, so the assertion before `generator` always holds. */
  function CmakeGenerator(env: Env): (r: string)
    ensures r != ""
    ensures CMAKE_GEN_ENV_VAR in env && env[CMAKE_GEN_ENV_VAR] != "" ==> r == env[CMAKE_GEN_ENV_VAR]
    ensures CMAKE_GEN_ENV_VAR !in env || env[CMAKE_GEN_ENV_VAR] == "" ==> r == DEFAULT_GENERATOR
  {
    if CMAKE_GEN_ENV_VAR in env && env[CMAKE_GEN_ENV_VAR] != "" then env[CMAKE_GEN_ENV_VAR] else DEFAULT_GENERATOR
  }

  /** The entries of a CMake list: the text between `;` separators. */
  function Entries(s: string): (r: seq<string>)
    ensures |r| >= 1
    decreases |s|
  {
    if |s| == 0 then [""]
    else if s[0] == ';' then [""] + Entries(s[1..])
    else
      var rest := Entries(s[1..]);
      [[s[0]] + rest[0]] + rest[1..]
  }

  /** Joining two lists with `;` concatenates their entries. */
  lemma {:induction false} EntriesConcat(a: string, b: string)
    ensures Entries(a + ";" + b) == Entries(a) + Entries(b)
    decreases |a|
  {
    if |a| == 0 {
      assert a + ";" + b == [';'] + b;
      assert ([';'] + b)[1..] == b;
    } else {
      assert (a + ";" + b)[1..] == a[1..] + ";" + b;
      EntriesConcat(a[1..], b);
    }
  }

  /** `make_ffmpeg_pkg_config_path`. `bundledFfmpegOnLinux` is the
      compile-time condition (Linux with the bundled-ffmpeg feature). With it
      and a non-empty install path, that path's entries come first, followed
      by those of an existing `CMAKE_PREFIX_PATH`; otherwise the result is
      `CMAKE_PREFIX_PATH` or empty. */
  function MakeFfmpegPkgConfigPath(env: Env, bundledFfmpegOnLinux: bool): (r: string)
    ensures var path := VarOrEmpty(env, BUNDLE_FFMPEG_INSTALL_DIR_VAR);
      && (bundledFfmpegOnLinux && path != "" && CMAKE_PREFIX_PATH_VAR in env ==>
            Entries(r) == Entries(path) + Entries(env[CMAKE_PREFIX_PATH_VAR]))
      && (bundledFfmpegOnLinux && path != "" && CMAKE_PREFIX_PATH_VAR !in env ==> r == path)
      && (!(bundledFfmpegOnLinux && path != "") ==> r == VarOrEmpty(env, CMAKE_PREFIX_PATH_VAR))
  {
    var path := VarOrEmpty(env, BUNDLE_FFMPEG_INSTALL_DIR_VAR);
    if bundledFfmpegOnLinux && |path| > 0 then
      if CMAKE_PREFIX_PATH_VAR in env then
        var previous := env[CMAKE_PREFIX_PATH_VAR];
        EntriesConcat(path, previous);
        path + ";" + previous
      else path
    else VarOrEmpty(env, CMAKE_PREFIX_PATH_VAR)
  }

  // ---------------------------------------------------------------------
  // Paths and the source-tracking filter
  // ---------------------------------------------------------------------

  /** A path as its sequence of components. */
  datatype Component = RootDir | CurDir | ParentDir | Normal(name: string)
  type Path = seq<Component>

  /** `Path::file_name`: the last component if it is a normal one. */
  function FileName(p: Path): Option<string>
  {
    if |p| > 0 && p[|p| - 1].Normal? then Some(p[|p| - 1].name) else None
  }

  /** `Path::ends_with` for a single-component relative path. */
  predicate EndsWithName(p: Path, name: string)
  {
    |p| > 0 && p[|p| - 1] == Normal(name)
  }

  /** The index of the last occurrence of `c` in `s`. */
  function LastIndexOf(s: string, c: char): (r: Option<nat>)
    ensures r.Some? ==> r.value < |s| && s[r.value] == c && forall j :: r.value < j < |s| ==> s[j] != c
    ensures r.None? ==> forall j :: 0 <= j < |s| ==> s[j] != c
    decreases |s|
  {
    if |s| == 0 then None
    else if s[|s| - 1] == c then Some(|s| - 1)
    else LastIndexOf(s[..|s| - 1], c)
  }

  /** `Path::extension` of a file name: the text after the last `.`, unless
      that dot is the first character (a hidden file) or there is none. */
  function Extension(name: string): (r: Option<string>)
    ensures r.None? <==> name == ".." || forall j :: 0 < j < |name| ==> name[j] != '.'
    ensures r.Some? ==> exists i :: 0 < i < |name| && name[i] == '.' && r.value == name[i + 1..]
    ensures r.Some? ==> forall k :: 0 <= k < |r.value| ==> r.value[k] != '.'
  {
    if name == ".." then None
    else match LastIndexOf(name, '.')
      case None => None
      case Some(i) => if i == 0 then None else Some(name[i + 1..])
  }

  const FILE_FILTERS: seq<string> := ["CMakeLists.txt", "AndroidManifest.xml"]
  const FILE_EXT_FILTERS: seq<string> :=
    ["h", "hpp", "inl", "c", "cc", "cxx", "cpp", "glsl", "hlsl", "cmake", "in", "gradle", "pro", "properties"]

  /** The filter applied to each walked entry: the path ends with one of the
      file names, or its extension is one of the listed ones. */
  predicate KeepPath(p: Path)
  {
    (exists j :: 0 <= j < |FILE_FILTERS| && EndsWithName(p, FILE_FILTERS[j]))
    || (FileName(p).Some? && Extension(FileName(p).value).Some? && Extension(FileName(p).value).value in FILE_EXT_FILTERS)
  }

  /** Whether a path is kept depends on its last component alone, which must
      be a normal name. */
  lemma KeepPathByLastComponent(p: Path)
    ensures KeepPath(p) <==>
      && |p| > 0 && p[|p| - 1].Normal?
      && var name := p[|p| - 1].name;
         name in FILE_FILTERS || (Extension(name).Some? && Extension(name).value in FILE_EXT_FILTERS)
  {
    if KeepPath(p) && !(FileName(p).Some? && Extension(FileName(p).value).Some? && Extension(FileName(p).value).value in FILE_EXT_FILTERS) {
      var j :| 0 <= j < |FILE_FILTERS| && EndsWithName(p, FILE_FILTERS[j]);
      assert p[|p| - 1].name == FILE_FILTERS[j];
    }
    if |p| > 0 && p[|p| - 1].Normal? && p[|p| - 1].name in FILE_FILTERS {
      var j :| 0 <= j < |FILE_FILTERS| && p[|p| - 1].name == FILE_FILTERS[j];
      assert EndsWithName(p, FILE_FILTERS[j]);
    }
  }

  /** A source file and a build file are kept. */
  lemma KeepPathKept()
    ensures KeepPath([Normal("src"), Normal("a.cpp")])
    ensures KeepPath([CurDir, Normal("CMakeLists.txt")])
  {
    assert "a.cpp"[1] == '.';
    assert LastIndexOf("a.cpp", '.') == Some(1);
    assert "a.cpp"[2..] == "cpp";
    KeepPathByLastComponent([Normal("src"), Normal("a.cpp")]);
    KeepPathByLastComponent([CurDir, Normal("CMakeLists.txt")]);
  }

  /** A hidden file named after an extension has no extension and is not kept. */
  lemma KeepPathHiddenFile()
    ensures !KeepPath([Normal(".h")])
  {
    assert LastIndexOf(".h", '.') == Some(0);
    KeepPathByLastComponent([Normal(".h")]);
  }

  /** Extensions are compared case-sensitively, and a trailing `..` has no file name. */
  lemma KeepPathRejected()
    ensures !KeepPath([Normal("a.H")])
    ensures !KeepPath([Normal("src"), ParentDir])
  {
    assert !KeepPath([Normal("a.H")]) by {
      assert "a.H"[1] == '.';
      assert LastIndexOf("a.H", '.') == Some(1);
      assert "a.H"[2..] == "H";
      assert Extension("a.H") == Some("H");
      assert "H" !in FILE_EXT_FILTERS && "a.H" !in FILE_FILTERS;
      KeepPathByLastComponent([Normal("a.H")]);
    }
    assert !KeepPath([Normal("src"), ParentDir]) by {
      KeepPathByLastComponent([Normal("src"), ParentDir]);
    }
  }

  /** The walked entries the filter keeps, in order. Each kept path keeps
      all its occurrences; nothing else is kept. */
  function TrackedPaths(entries: seq<Path>): (r: seq<Path>)
    ensures |r| <= |entries|
    ensures forall i :: 0 <= i < |r| ==> KeepPath(r[i])
    ensures forall p :: multiset(r)[p] == if KeepPath(p) then multiset(entries)[p] else 0
  {
    if entries == [] then []
    else
      assert entries == [entries[0]] + entries[1..];
      (if KeepPath(entries[0]) then [entries[0]] else []) + TrackedPaths(entries[1..])
  }

  // ---------------------------------------------------------------------
  // The CMake configuration
  // ---------------------------------------------------------------------

  /** The CMake variables the script sets. */
  datatype CmakeVar =
    | CmakeSystemName | CmakeSystemVersion
    | BuildAllExtensions | BuildApiLayers | BuildTests | BuildConformanceTests
    | UseOculusOxrExtHeaders | DisableDecoderSupport
    | BuildLoader | UsePicoMobileLoader
    | CmakeInstallIncludedir | CmakeInstallLibdir
    | CmakeAndroidNdk | AndroidNdk | CmakeAndroidArchAbi | AndroidAbi | AndroidPlatform
    | CmakeToolchainFile | AndroidToolchain | AndroidStl | AndroidArmNeon
    | CmakePrefixPath | BuildCudaInterop

  /** The name CMake knows each variable by. */
  function VarName(v: CmakeVar): string
  {
    match v
    case CmakeSystemName => "CMAKE_SYSTEM_NAME"
    case CmakeSystemVersion => "CMAKE_SYSTEM_VERSION"
    case BuildAllExtensions => "BUILD_ALL_EXTENSIONS"
    case BuildApiLayers => "BUILD_API_LAYERS"
    case BuildTests => "BUILD_TESTS"
    case BuildConformanceTests => "BUILD_CONFORMANCE_TESTS"
    case UseOculusOxrExtHeaders => "USE_OCULUS_OXR_EXT_HEADERS"
    case DisableDecoderSupport => "DISABLE_DECODER_SUPPORT"
    case BuildLoader => "BUILD_LOADER"
    case UsePicoMobileLoader => "USE_PICO_MOBILE_LOADER"
    case CmakeInstallIncludedir => "CMAKE_INSTALL_INCLUDEDIR"
    case CmakeInstallLibdir => "CMAKE_INSTALL_LIBDIR"
    case CmakeAndroidNdk => "CMAKE_ANDROID_NDK"
    case AndroidNdk => "ANDROID_NDK"
    case CmakeAndroidArchAbi => "CMAKE_ANDROID_ARCH_ABI"
    case AndroidAbi => "ANDROID_ABI"
    case AndroidPlatform => "ANDROID_PLATFORM"
    case CmakeToolchainFile => "CMAKE_TOOLCHAIN_FILE"
    case AndroidToolchain => "ANDROID_TOOLCHAIN"
    case AndroidStl => "ANDROID_STL"
    case AndroidArmNeon => "ANDROID_ARM_NEON"
    case CmakePrefixPath => CMAKE_PREFIX_PATH_VAR
    case BuildCudaInterop => "BUILD_CUDA_INTEROP"
  }

  type Setting = (CmakeVar, string)

  /** What the configuration builder holds: source directory, generator,
      build target, `-D` definitions and environment settings, in order. */
  datatype ConfigState = ConfigState(
    sourceDir: string,
    generator: Option<string>,
    buildTarget: Option<string>,
    defines: seq<Setting>,
    envs: seq<Setting>)

  /** The value CMake sees for `key`: the last definition of it. */
  function Lookup(defines: seq<Setting>, key: CmakeVar): Option<string>
  {
    if defines == [] then None
    else if defines[|defines| - 1].0 == key then Some(defines[|defines| - 1].1)
    else Lookup(defines[..|defines| - 1], key)
  }

  lemma {:induction false} LookupAppend(a: seq<Setting>, b: seq<Setting>, key: CmakeVar)
    ensures Lookup(a + b, key) == if Lookup(b, key).Some? then Lookup(b, key) else Lookup(a, key)
    decreases |b|
  {
    if b == [] {
      assert a + b == a;
    } else {
      assert (a + b)[|a + b| - 1] == b[|b| - 1];
      assert (a + b)[..|a + b| - 1] == a + b[..|b| - 1];
      LookupAppend(a, b[..|b| - 1], key);
    }
  }

  lemma {:induction false} LookupUnique(defines: seq<Setting>, key: CmakeVar, i: nat)
    requires i < |defines| && defines[i].0 == key
    requires forall j :: 0 <= j < |defines| && j != i ==> defines[j].0 != key
    ensures Lookup(defines, key) == Some(defines[i].1)
    decreases |defines|
  {
    if i < |defines| - 1 {
      LookupUnique(defines[..|defines| - 1], key, i);
    }
  }

  lemma {:induction false} LookupAbsent(defines: seq<Setting>, key: CmakeVar)
    requires forall j :: 0 <= j < |defines| ==> defines[j].0 != key
    ensures Lookup(defines, key) == None
    decreases |defines|
  {
    if defines != [] {
      LookupAbsent(defines[..|defines| - 1], key);
    }
  }

  /** The cmake builder (`cmake::Config`), whose methods update it in place. */
  class CmakeConfig {
    var sourceDir: string
    var generator: Option<string>
    var buildTarget: Option<string>
    var defines: seq<Setting>
    var envs: seq<Setting>

    function State(): ConfigState
      reads this
    {
      ConfigState(sourceDir, generator, buildTarget, defines, envs)
    }

    constructor (dir: string)
      ensures State() == ConfigState(dir, None, None, [], [])
    {
      sourceDir, generator, buildTarget, defines, envs := dir, None, None, [], [];
    }

    method Generator(g: string)
      modifies this
      ensures State() == old(State()).(generator := Some(g))
    {
      generator := Some(g);
    }

    method BuildTarget(t: string)
      modifies this
      ensures State() == old(State()).(buildTarget := Some(t))
    {
      buildTarget := Some(t);
    }

    method Define(key: CmakeVar, value: string)
      modifies this
      ensures State() == old(State()).(defines := old(defines) + [(key, value)])
    {
      defines := defines + [(key, value)];
    }

    method SetEnv(key: CmakeVar, value: string)
      modifies this
      ensures State() == old(State()).(envs := old(envs) + [(key, value)])
    {
      envs := envs + [(key, value)];
    }

    /** A run of `define` calls, in order. */
    method DefineAll(ds: seq<Setting>)
      modifies this
      ensures State() == old(State()).(defines := old(defines) + ds)
    {
      for i := 0 to |ds|
        invariant State() == old(State()).(defines := old(defines) + ds[..i])
      {
        Define(ds[i].0, ds[i].1);
        assert ds[..i + 1] == ds[..i] + [ds[i]];
      }
      assert ds[..|ds|] == ds;
    }
  }

  const ENGINE_SOURCE_DIR: string := "cpp/ALVR-OpenXR-Engine"
  const WINDOWS_STORE_SETTINGS: seq<Setting> := [(CmakeSystemName, "WindowsStore"), (CmakeSystemVersion, "10.0")]

  /** `define_windows_store`: both settings as environment and as definitions. */
  method DefineWindowsStore(config: CmakeConfig)
    modifies config
    ensures config.State() == old(config.State()).(envs := old(config.envs) + WINDOWS_STORE_SETTINGS,
                                                   defines := old(config.defines) + WINDOWS_STORE_SETTINGS)
  {
    config.SetEnv(CmakeSystemName, "WindowsStore");
    config.Define(CmakeSystemName, "WindowsStore");
    config.SetEnv(CmakeSystemVersion, "10.0");
    config.Define(CmakeSystemVersion, "10.0");
  }

  /** The definitions every target gets. */
  function CommonDefines(env: Env): seq<Setting>
  {
    [(BuildAllExtensions, "ON"), (BuildApiLayers, "OFF"), (BuildTests, "OFF"), (BuildConformanceTests, "OFF"),
     (UseOculusOxrExtHeaders, CmakeOptionFromFeature(env, ENABLE_OCULUS_EXT_HEADERS_FEATURE)),
     (DisableDecoderSupport, CmakeOptionFromFeature(env, DISABLE_DECODER_FEATURE))]
  }

  /** The loader definitions of an Android flavour. */
  function FlavourDefines(flavour: string): seq<Setting>
  {
    if flavour == PICO_FLAVOUR then [(BuildLoader, "OFF"), (UsePicoMobileLoader, "ON")]
    else [(BuildLoader, "ON")]
  }

  /** The install-directory workaround used unless the host is Windows. */
  function InstallDirDefines(host: Triple, outDir: string): seq<Setting>
  {
    if host.operatingSystem != Windows then
      [(CmakeInstallIncludedir, outDir + "/include"), (CmakeInstallLibdir, outDir + "/lib")]
    else []
  }

  const MIN_SDK_VERSION: string := "android-29"

  /** The NDK toolchain definitions. */
  function NdkDefines(ndkHome: string, abi: string): seq<Setting>
  {
    [(CmakeAndroidNdk, ndkHome), (AndroidNdk, ndkHome),
     (CmakeAndroidArchAbi, abi), (AndroidAbi, abi),
     (AndroidPlatform, MIN_SDK_VERSION),
     (CmakeToolchainFile, ndkHome + "/build/cmake/android.toolchain.cmake"),
     (AndroidToolchain, "clang"), (AndroidStl, "c++_static"), (AndroidArmNeon, "TRUE")]
  }

  /** The definitions of a non-Android target. */
  function DesktopDefines(env: Env, bundledFfmpegOnLinux: bool): seq<Setting>
  {
    [(BuildLoader, "ON"),
     (CmakePrefixPath, MakeFfmpegPkgConfigPath(env, bundledFfmpegOnLinux)),
     (BuildCudaInterop, CmakeOptionFromFeature(env, BUILD_CUDA_INTEROP_FEATURE))]
  }

  /** What the configuration step reads. `profile` is Cargo's `PROFILE`,
      `outDir` its `OUT_DIR`, `projectDir` the manifest directory. */
  datatype BuildInput = BuildInput(
    target: Triple,
    host: Triple,
    profile: string,
    outDir: string,
    projectDir: Path,
    env: Env,
    bundledFfmpegOnLinux: bool)

  /** The ways the configuration step panics. */
  datatype BuildError = ProjectDirMismatch | MissingAndroidNdkHome | UnsupportedAndroidAbi

  /** Which panic, if any, the configuration step hits, in source order. */
  function ConfigError(inp: BuildInput): Option<BuildError>
  {
    if !EndsWithName(inp.projectDir, "alxr-engine-sys") then Some(ProjectDirMismatch)
    else if IsAndroidEnv(inp.target) && ANDROID_NDK_HOME_VAR !in inp.env then Some(MissingAndroidNdkHome)
    else if IsAndroidEnv(inp.target) && AndroidAbiName(inp.target).None? then Some(UnsupportedAndroidAbi)
    else None
  }

  /** The definitions before the target-specific ones. */
  function BaseDefines(inp: BuildInput): seq<Setting>
  {
    (if inp.target.vendor == Uwp then WINDOWS_STORE_SETTINGS else []) + CommonDefines(inp.env)
  }

  /** The target-specific definitions. */
  function TargetDefines(inp: BuildInput): seq<Setting>
    requires ConfigError(inp).None?
  {
    if IsAndroidEnv(inp.target) then
      FlavourDefines(ProductFlavourOf(inp.env)) + InstallDirDefines(inp.host, inp.outDir)
        + NdkDefines(inp.env[ANDROID_NDK_HOME_VAR], AndroidAbiName(inp.target).value)
    else DesktopDefines(inp.env, inp.bundledFfmpegOnLinux)
  }

  /** The configuration handed to CMake when no panic occurs. */
  function ConfigSpec(inp: BuildInput): ConfigState
    requires ConfigError(inp).None?
  {
    var gen := CmakeGenerator(inp.env);
    var uwp := inp.target.vendor == Uwp;
    ConfigState(
      ENGINE_SOURCE_DIR,
      if uwp then None else Some(gen),
      if IsAndroidEnv(inp.target) && inp.profile == "release" && gen == DEFAULT_GENERATOR then Some("install/strip") else None,
      BaseDefines(inp) + TargetDefines(inp),
      if uwp then WINDOWS_STORE_SETTINGS else [])
  }

  /** The loader definitions for the selected flavour. */
  method DefineLoader(config: CmakeConfig, flavour: string)
    modifies config
    ensures config.State() == old(config.State()).(defines := old(config.defines) + FlavourDefines(flavour))
  {
    if flavour == PICO_FLAVOUR {
      config.Define(BuildLoader, "OFF");
      config.Define(UsePicoMobileLoader, "ON");
    } else {
      config.Define(BuildLoader, "ON");
    }
  }

  /** The install-directory workaround for a non-Windows host. */
  method DefineInstallDirs(config: CmakeConfig, host: Triple, outDir: string)
    modifies config
    ensures config.State() == old(config.State()).(defines := old(config.defines) + InstallDirDefines(host, outDir))
  {
    if host.operatingSystem != Windows {
      config.Define(CmakeInstallIncludedir, outDir + "/include");
      config.Define(CmakeInstallLibdir, outDir + "/lib");
    }
  }

  /** The Android branch of the configuration: the strip target, the
      flavour's loader, the install directories, then the NDK settings
      (panicking without `ANDROID_NDK_HOME` or without an ABI). */
  method ConfigureAndroid(config: CmakeConfig, inp: BuildInput, generator: string) returns (err: Option<BuildError>)
    requires IsAndroidEnv(inp.target) && EndsWithName(inp.projectDir, "alxr-engine-sys")
    modifies config
    ensures err == ConfigError(inp)
    ensures err.None? ==>
      config.State() == old(config.State()).(
        defines := old(config.defines) + TargetDefines(inp),
        buildTarget := if inp.profile == "release" && generator == DEFAULT_GENERATOR then Some("install/strip")
                       else old(config.buildTarget))
  {
    if inp.profile == "release" && generator == DEFAULT_GENERATOR {
      config.BuildTarget("install/strip");
    }
    var flavour := GetProductFlavour(inp.env);
    DefineLoader(config, flavour);
    DefineInstallDirs(config, inp.host, inp.outDir);
    if ANDROID_NDK_HOME_VAR !in inp.env {
      return Some(MissingAndroidNdkHome);
    }
    var ndkHome := inp.env[ANDROID_NDK_HOME_VAR];
    var abi := AndroidAbiName(inp.target);
    if abi.None? {
      return Some(UnsupportedAndroidAbi);
    }
    config.DefineAll(NdkDefines(ndkHome, abi.value));
    assert config.defines == old(config.defines) + (FlavourDefines(flavour) + InstallDirDefines(inp.host, inp.outDir) + NdkDefines(ndkHome, abi.value));
    err := None;
  }

  /** The configuration part of the build script's `main`. */
  method Configure(inp: BuildInput) returns (config: CmakeConfig, err: Option<BuildError>)
    ensures err == ConfigError(inp)
    ensures err.None? ==> config.State() == ConfigSpec(inp)
  {
    config := new CmakeConfig(ENGINE_SOURCE_DIR);
    if !EndsWithName(inp.projectDir, "alxr-engine-sys") {
      return config, Some(ProjectDirMismatch);
    }
    var generator := CmakeGenerator(inp.env);
    if inp.target.vendor != Uwp {
      config.Generator(generator);
    } else {
      DefineWindowsStore(config);
    }
    config.DefineAll(CommonDefines(inp.env));
    assert config.defines == BaseDefines(inp);
    if IsAndroidEnv(inp.target) {
      err := ConfigureAndroid(config, inp, generator);
    } else {
      var pkgConfigPath := MakeFfmpegPkgConfigPath(inp.env, inp.bundledFfmpegOnLinux);
      var buildCuda := CmakeOptionFromFeature(inp.env, BUILD_CUDA_INTEROP_FEATURE);
      config.Define(BuildLoader, "ON");
      config.Define(CmakePrefixPath, pkgConfigPath);
      config.Define(BuildCudaInterop, buildCuda);
      err := None;
    }
  }

  // ---------------------------------------------------------------------
  // Properties of the configuration
  // ---------------------------------------------------------------------

  /** Error cases, both ways: the project directory is checked first; an
      Android target then needs `ANDROID_NDK_HOME` and a known ABI; other
      targets need neither. */
  lemma ConfigErrors(inp: BuildInput)
    ensures ConfigError(inp) == Some(ProjectDirMismatch) <==> !EndsWithName(inp.projectDir, "alxr-engine-sys")
    ensures ConfigError(inp) == Some(MissingAndroidNdkHome) <==>
              EndsWithName(inp.projectDir, "alxr-engine-sys") && IsAndroidEnv(inp.target) && ANDROID_NDK_HOME_VAR !in inp.env
    ensures ConfigError(inp) == Some(UnsupportedAndroidAbi) <==>
              && EndsWithName(inp.projectDir, "alxr-engine-sys") && IsAndroidEnv(inp.target) && ANDROID_NDK_HOME_VAR in inp.env
              && !(inp.target.architecture in {Aarch64, X86_64, X86_32} || inp.target.architecture == Arm(Armv7) || inp.target.architecture == Arm(Armv7a))
    ensures EndsWithName(inp.projectDir, "alxr-engine-sys") && !IsAndroidEnv(inp.target) ==> ConfigError(inp).None?
  {
  }

  /** The variables set only by the target-specific definitions. */
  predicate TargetVar(v: CmakeVar)
  {
    v in {BuildLoader, UsePicoMobileLoader, CmakeInstallIncludedir, CmakeInstallLibdir, CmakeAndroidNdk, AndroidNdk,
          CmakeAndroidArchAbi, AndroidAbi, AndroidPlatform, CmakeToolchainFile, AndroidToolchain, AndroidStl,
          AndroidArmNeon, CmakePrefixPath, BuildCudaInterop}
  }

  lemma BaseDefinesMiss(inp: BuildInput, key: CmakeVar)
    requires TargetVar(key)
    ensures Lookup(BaseDefines(inp), key) == None
  {
    var w := if inp.target.vendor == Uwp then WINDOWS_STORE_SETTINGS else [];
    LookupAppend(w, CommonDefines(inp.env), key);
    LookupAbsent(w, key);
    LookupAbsent(CommonDefines(inp.env), key);
  }

  /** The three parts of an Android target's definitions. */
  lemma AndroidDefinesSplit(inp: BuildInput, key: CmakeVar)
    requires ConfigError(inp).None? && IsAndroidEnv(inp.target)
    ensures var f := FlavourDefines(ProductFlavourOf(inp.env));
      var i := InstallDirDefines(inp.host, inp.outDir);
      var n := NdkDefines(inp.env[ANDROID_NDK_HOME_VAR], AndroidAbiName(inp.target).value);
      Lookup(TargetDefines(inp), key) ==
        if Lookup(n, key).Some? then Lookup(n, key) else if Lookup(i, key).Some? then Lookup(i, key) else Lookup(f, key)
  {
    var f := FlavourDefines(ProductFlavourOf(inp.env));
    var i := InstallDirDefines(inp.host, inp.outDir);
    var n := NdkDefines(inp.env[ANDROID_NDK_HOME_VAR], AndroidAbiName(inp.target).value);
    LookupAppend(f + i, n, key);
    LookupAppend(f, i, key);
  }

  lemma TargetDefinesMiss(inp: BuildInput, key: CmakeVar)
    requires ConfigError(inp).None? && !TargetVar(key)
    ensures Lookup(TargetDefines(inp), key) == None
  {
    if IsAndroidEnv(inp.target) {
      AndroidDefinesSplit(inp, key);
      LookupAbsent(FlavourDefines(ProductFlavourOf(inp.env)), key);
      LookupAbsent(InstallDirDefines(inp.host, inp.outDir), key);
      LookupAbsent(NdkDefines(inp.env[ANDROID_NDK_HOME_VAR], AndroidAbiName(inp.target).value), key);
    } else {
      LookupAbsent(DesktopDefines(inp.env, inp.bundledFfmpegOnLinux), key);
    }
  }

  /** A variable's value comes from the part of the definitions that sets it. */
  lemma SpecLookup(inp: BuildInput, key: CmakeVar)
    requires ConfigError(inp).None?
    ensures Lookup(ConfigSpec(inp).defines, key) ==
              if TargetVar(key) then Lookup(TargetDefines(inp), key) else Lookup(BaseDefines(inp), key)
  {
    LookupAppend(BaseDefines(inp), TargetDefines(inp), key);
    if TargetVar(key) {
      BaseDefinesMiss(inp, key);
    } else {
      TargetDefinesMiss(inp, key);
    }
  }

  /** The generator is set, and never empty, exactly when the vendor is not
      UWP; a UWP target instead gets the Windows Store settings. */
  lemma ConfigGenerator(inp: BuildInput)
    requires ConfigError(inp).None?
    ensures var c := ConfigSpec(inp);
      && (c.generator.None? <==> inp.target.vendor == Uwp)
      && (c.generator.Some? ==> c.generator.value != "" && c.generator.value == CmakeGenerator(inp.env))
      && (c.envs != [] <==> inp.target.vendor == Uwp)
      && (Lookup(c.defines, CmakeSystemName) == Some("WindowsStore") <==> inp.target.vendor == Uwp)
  {
    SpecLookup(inp, CmakeSystemName);
    var w := if inp.target.vendor == Uwp then WINDOWS_STORE_SETTINGS else [];
    LookupAppend(w, CommonDefines(inp.env), CmakeSystemName);
    LookupAbsent(CommonDefines(inp.env), CmakeSystemName);
    if inp.target.vendor == Uwp {
      LookupUnique(w, CmakeSystemName, 0);
    }
  }

  /** The `install/strip` target is chosen exactly for an Android release
      build with the Ninja generator. */
  lemma ConfigInstallStrip(inp: BuildInput)
    requires ConfigError(inp).None?
    ensures ConfigSpec(inp).buildTarget == Some("install/strip") <==>
              IsAndroidEnv(inp.target) && inp.profile == "release" && CmakeGenerator(inp.env) == DEFAULT_GENERATOR
    ensures ConfigSpec(inp).buildTarget.Some? ==> ConfigSpec(inp).buildTarget == Some("install/strip")
  {
  }

  lemma FlavourLookup(flavour: string)
    ensures Lookup(FlavourDefines(flavour), BuildLoader) == Some(if flavour == PICO_FLAVOUR then "OFF" else "ON")
    ensures Lookup(FlavourDefines(flavour), UsePicoMobileLoader) == if flavour == PICO_FLAVOUR then Some("ON") else None
    ensures forall key :: key !in {BuildLoader, UsePicoMobileLoader} ==> Lookup(FlavourDefines(flavour), key) == None
  {
    var f := FlavourDefines(flavour);
    LookupUnique(f, BuildLoader, 0);
    if flavour == PICO_FLAVOUR {
      LookupUnique(f, UsePicoMobileLoader, 1);
    } else {
      LookupAbsent(f, UsePicoMobileLoader);
    }
    forall key | key !in {BuildLoader, UsePicoMobileLoader}
      ensures Lookup(f, key) == None
    {
      LookupAbsent(f, key);
    }
  }

  lemma InstallDirMiss(host: Triple, outDir: string, key: CmakeVar)
    requires key != CmakeInstallIncludedir && key != CmakeInstallLibdir
    ensures Lookup(InstallDirDefines(host, outDir), key) == None
  {
    LookupAbsent(InstallDirDefines(host, outDir), key);
  }

  /** What the NDK definitions set, key by key. */
  lemma NdkLookup(ndkHome: string, abi: string, key: CmakeVar)
    ensures Lookup(NdkDefines(ndkHome, abi), key) ==
      match key
      case CmakeAndroidNdk => Some(ndkHome)
      case AndroidNdk => Some(ndkHome)
      case CmakeAndroidArchAbi => Some(abi)
      case AndroidAbi => Some(abi)
      case AndroidPlatform => Some(MIN_SDK_VERSION)
      case CmakeToolchainFile => Some(ndkHome + "/build/cmake/android.toolchain.cmake")
      case AndroidToolchain => Some("clang")
      case AndroidStl => Some("c++_static")
      case AndroidArmNeon => Some("TRUE")
      case _ => None
  {
    var n := NdkDefines(ndkHome, abi);
    match key
    case CmakeAndroidNdk => LookupUnique(n, key, 0);
    case AndroidNdk => LookupUnique(n, key, 1);
    case CmakeAndroidArchAbi => LookupUnique(n, key, 2);
    case AndroidAbi => LookupUnique(n, key, 3);
    case AndroidPlatform => LookupUnique(n, key, 4);
    case CmakeToolchainFile => LookupUnique(n, key, 5);
    case AndroidToolchain => LookupUnique(n, key, 6);
    case AndroidStl => LookupUnique(n, key, 7);
    case AndroidArmNeon => LookupUnique(n, key, 8);
    case _ => LookupAbsent(n, key);
  }

  /** The lookup of a loader or prefix variable in an Android target's
      definitions comes from the flavour part alone. */
  lemma AndroidFlavourKey(inp: BuildInput, key: CmakeVar)
    requires ConfigError(inp).None? && IsAndroidEnv(inp.target)
    requires key in {BuildLoader, UsePicoMobileLoader, CmakePrefixPath, BuildCudaInterop}
    ensures Lookup(TargetDefines(inp), key) == Lookup(FlavourDefines(ProductFlavourOf(inp.env)), key)
  {
    AndroidDefinesSplit(inp, key);
    InstallDirMiss(inp.host, inp.outDir, key);
    NdkLookup(inp.env[ANDROID_NDK_HOME_VAR], AndroidAbiName(inp.target).value, key);
  }

  /** The loader definitions: an Android Pico build uses the Pico mobile
      loader and does not build one; every other build builds the loader. */
  lemma ConfigLoader(inp: BuildInput)
    requires ConfigError(inp).None?
    ensures var c := ConfigSpec(inp);
      var pico := IsAndroidEnv(inp.target) && ProductFlavourOf(inp.env) == PICO_FLAVOUR;
      && Lookup(c.defines, BuildLoader) == Some(if pico then "OFF" else "ON")
      && Lookup(c.defines, UsePicoMobileLoader) == (if pico then Some("ON") else None)
  {
    SpecLookup(inp, BuildLoader);
    SpecLookup(inp, UsePicoMobileLoader);
    if IsAndroidEnv(inp.target) {
      AndroidFlavourKey(inp, BuildLoader);
      AndroidFlavourKey(inp, UsePicoMobileLoader);
      FlavourLookup(ProductFlavourOf(inp.env));
    } else {
      LookupUnique(TargetDefines(inp), BuildLoader, 0);
      LookupAbsent(TargetDefines(inp), UsePicoMobileLoader);
    }
  }

  /** A non-Android build passes the computed prefix path and the CUDA
      option; an Android build passes neither. */
  lemma ConfigPrefixPath(inp: BuildInput)
    requires ConfigError(inp).None?
    ensures var c := ConfigSpec(inp);
      && Lookup(c.defines, CmakePrefixPath) ==
           (if IsAndroidEnv(inp.target) then None else Some(MakeFfmpegPkgConfigPath(inp.env, inp.bundledFfmpegOnLinux)))
      && Lookup(c.defines, BuildCudaInterop) ==
           (if IsAndroidEnv(inp.target) then None else Some(CmakeOptionFromFeature(inp.env, BUILD_CUDA_INTEROP_FEATURE)))
  {
    SpecLookup(inp, CmakePrefixPath);
    SpecLookup(inp, BuildCudaInterop);
    if IsAndroidEnv(inp.target) {
      AndroidFlavourKey(inp, CmakePrefixPath);
      AndroidFlavourKey(inp, BuildCudaInterop);
      FlavourLookup(ProductFlavourOf(inp.env));
    } else {
      LookupUnique(TargetDefines(inp), CmakePrefixPath, 1);
      LookupUnique(TargetDefines(inp), BuildCudaInterop, 2);
    }
  }

  /** An NDK variable of an Android target takes its value from the NDK part. */
  lemma AndroidNdkKey(inp: BuildInput, key: CmakeVar)
    requires ConfigError(inp).None? && IsAndroidEnv(inp.target)
    ensures var ndk := inp.env[ANDROID_NDK_HOME_VAR];
      Lookup(ConfigSpec(inp).defines, key) == Lookup(NdkDefines(ndk, AndroidAbiName(inp.target).value), key)
        || Lookup(NdkDefines(ndk, AndroidAbiName(inp.target).value), key).None?
  {
    SpecLookup(inp, key);
    AndroidDefinesSplit(inp, key);
    NdkLookup(inp.env[ANDROID_NDK_HOME_VAR], AndroidAbiName(inp.target).value, key);
    if Lookup(NdkDefines(inp.env[ANDROID_NDK_HOME_VAR], AndroidAbiName(inp.target).value), key).Some? {
      assert TargetVar(key);
    }
  }

  /** An Android build passes the target's ABI under both names, the NDK
      from `ANDROID_NDK_HOME`, its CMake toolchain file and API level 29. */
  lemma ConfigAndroidToolchain(inp: BuildInput)
    requires ConfigError(inp).None? && IsAndroidEnv(inp.target)
    ensures var c := ConfigSpec(inp);
      var abi := AndroidAbiName(inp.target);
      var ndk := inp.env[ANDROID_NDK_HOME_VAR];
      && abi.Some?
      && Lookup(c.defines, AndroidAbi) == abi
      && Lookup(c.defines, CmakeAndroidArchAbi) == abi
      && Lookup(c.defines, AndroidNdk) == Some(ndk)
      && Lookup(c.defines, CmakeToolchainFile) == Some(ndk + "/build/cmake/android.toolchain.cmake")
      && Lookup(c.defines, AndroidPlatform) == Some("android-29")
  {
    var ndk := inp.env[ANDROID_NDK_HOME_VAR];
    var abi := AndroidAbiName(inp.target).value;
    AndroidNdkKey(inp, AndroidAbi);
    NdkLookup(ndk, abi, AndroidAbi);
    AndroidNdkKey(inp, CmakeAndroidArchAbi);
    NdkLookup(ndk, abi, CmakeAndroidArchAbi);
    AndroidNdkKey(inp, AndroidNdk);
    NdkLookup(ndk, abi, AndroidNdk);
    AndroidNdkKey(inp, CmakeToolchainFile);
    NdkLookup(ndk, abi, CmakeToolchainFile);
    AndroidNdkKey(inp, AndroidPlatform);
    NdkLookup(ndk, abi, AndroidPlatform);
  }

  /** The `-D` flag bindgen gets for the platform. */
  function BindgenPlatformDefine(t: Triple): (r: string)
    ensures r == "-DXR_USE_PLATFORM_ANDROID" <==> IsAndroidEnv(t)
    ensures r != "-DXR_USE_PLATFORM_ANDROID" ==> r == ""
  {
    if IsAndroidEnv(t) then "-DXR_USE_PLATFORM_ANDROID" else ""
  }

  // ---------------------------------------------------------------------
  // Directives for Cargo
  // ---------------------------------------------------------------------

  /** One `cargo:` line the script prints. */
  datatype Directive =
    | LinkSearchNative(dir: Path)
    | LinkLibDylib(name: string)
    | RerunIfChanged(path: Path)
    | RerunIfEnvChanged(variable: string)

  /** The engine header bindings are generated from. */
  function BindingFile(projectDir: Path): Path
  {
    projectDir + [Normal("cpp"), Normal("ALVR-OpenXR-Engine"), Normal("src"), Normal("alxr_engine"), Normal("alxr_engine.h")]
  }

  function RerunAll(paths: seq<Path>): (r: seq<Directive>)
    ensures |r| == |paths| && forall i :: 0 <= i < |paths| ==> r[i] == RerunIfChanged(paths[i])
  {
    seq(|paths|, i requires 0 <= i < |paths| => RerunIfChanged(paths[i]))
  }

  /** The search and link lines: the engine's `lib` then `bin` directory,
      the loader unless the target is Windows, then the engine. */
  function LinkDirectives(target: Triple, outputDir: Path): seq<Directive>
  {
    [LinkSearchNative(outputDir + [Normal("lib")]), LinkSearchNative(outputDir + [Normal("bin")])]
    + (if target.operatingSystem != Windows then [LinkLibDylib("openxr_loader")] else [])
    + [LinkLibDylib("alxr_engine")]
  }

  /** A rerun line for the binding header unless it is already tracked. */
  function BindingRerun(cppPaths: seq<Path>, bindingFile: Path): seq<Directive>
  {
    if bindingFile in cppPaths then [] else [RerunIfChanged(bindingFile)]
  }

  const ENV_RERUNS: seq<Directive> := [RerunIfEnvChanged(ENV_VAR_MONITOR_LIST[0]), RerunIfEnvChanged(ENV_VAR_MONITOR_LIST[1])]

  /** Everything printed after the build, in order: the link lines, every
      tracked path, the binding header unless it was tracked, and the
      monitored variables. */
  function DirectivesOf(target: Triple, outputDir: Path, cppPaths: seq<Path>, bindingFile: Path): seq<Directive>
  {
    LinkDirectives(target, outputDir) + RerunAll(cppPaths) + BindingRerun(cppPaths, bindingFile) + ENV_RERUNS
  }

  /** The printing at the end of the build script's `main`. */
  method EmitDirectives(target: Triple, outputDir: Path, cppPaths: seq<Path>, bindingFile: Path)
    returns (out: seq<Directive>)
    ensures out == DirectivesOf(target, outputDir, cppPaths, bindingFile)
  {
    out := [LinkSearchNative(outputDir + [Normal("lib")])];
    out := out + [LinkSearchNative(outputDir + [Normal("bin")])];
    if target.operatingSystem != Windows {
      out := out + [LinkLibDylib("openxr_loader")];
    }
    out := out + [LinkLibDylib("alxr_engine")];
    for i := 0 to |cppPaths|
      invariant out == LinkDirectives(target, outputDir) + RerunAll(cppPaths[..i])
    {
      out := out + [RerunIfChanged(cppPaths[i])];
      assert RerunAll(cppPaths[..i + 1]) == RerunAll(cppPaths[..i]) + [RerunIfChanged(cppPaths[i])];
    }
    assert cppPaths[..|cppPaths|] == cppPaths;
    if bindingFile !in cppPaths {
      out := out + [RerunIfChanged(bindingFile)];
    }
    ghost var before := out;
    for i := 0 to |ENV_VAR_MONITOR_LIST|
      invariant out == before + ENV_RERUNS[..i]
    {
      out := out + [RerunIfEnvChanged(ENV_VAR_MONITOR_LIST[i])];
      assert ENV_RERUNS[..i + 1] == ENV_RERUNS[..i] + [ENV_RERUNS[i]];
    }
  }

  lemma {:induction false} RerunAllCount(paths: seq<Path>, p: Path)
    ensures multiset(RerunAll(paths))[RerunIfChanged(p)] == multiset(paths)[p]
    decreases |paths|
  {
    if paths != [] {
      var init := paths[..|paths| - 1];
      assert paths == init + [paths[|paths| - 1]];
      assert RerunAll(paths) == RerunAll(init) + [RerunIfChanged(paths[|paths| - 1])];
      RerunAllCount(init, p);
    }
  }

  /** The loader is linked exactly for a non-Windows target; the engine is
      always linked; nothing else is; the search directories come first. */
  lemma DirectivesLinkLibs(target: Triple, outputDir: Path, cppPaths: seq<Path>, bindingFile: Path)
    ensures var d := DirectivesOf(target, outputDir, cppPaths, bindingFile);
      && (LinkLibDylib("openxr_loader") in d <==> target.operatingSystem != Windows)
      && LinkLibDylib("alxr_engine") in d
      && (forall k :: 0 <= k < |d| && d[k].LinkLibDylib? ==> d[k].name in {"openxr_loader", "alxr_engine"})
      && d[0] == LinkSearchNative(outputDir + [Normal("lib")]) && d[1] == LinkSearchNative(outputDir + [Normal("bin")])
  {
    var d := DirectivesOf(target, outputDir, cppPaths, bindingFile);
    var links := LinkDirectives(target, outputDir);
    var reruns := RerunAll(cppPaths) + BindingRerun(cppPaths, bindingFile) + ENV_RERUNS;
    assert d == links + reruns;
    assert forall k :: 0 <= k < |reruns| ==> !reruns[k].LinkLibDylib?;
    assert LinkLibDylib("alxr_engine") == links[|links| - 1];
  }

  lemma RerunAllMember(paths: seq<Path>, p: Path)
    ensures RerunIfChanged(p) in RerunAll(paths) <==> p in paths
  {
    if p in paths {
      var i :| 0 <= i < |paths| && paths[i] == p;
      assert RerunAll(paths)[i] == RerunIfChanged(p);
    }
  }

  /** A path gets a rerun line exactly when it is tracked or is the binding
      header. */
  lemma DirectivesRerunPaths(target: Triple, outputDir: Path, cppPaths: seq<Path>, bindingFile: Path)
    ensures var d := DirectivesOf(target, outputDir, cppPaths, bindingFile);
      forall p :: RerunIfChanged(p) in d <==> p in cppPaths || p == bindingFile
  {
    var d := DirectivesOf(target, outputDir, cppPaths, bindingFile);
    var links := LinkDirectives(target, outputDir);
    var extra := BindingRerun(cppPaths, bindingFile);
    forall p
      ensures RerunIfChanged(p) in d <==> p in cppPaths || p == bindingFile
    {
      RerunAllMember(cppPaths, p);
      assert RerunIfChanged(p) !in links;
      assert RerunIfChanged(p) !in ENV_RERUNS;
      assert RerunIfChanged(p) in d <==> RerunIfChanged(p) in RerunAll(cppPaths) || RerunIfChanged(p) in extra;
    }
  }

  /** The binding header gets one rerun line when untracked, otherwise as
      many as it is tracked. */
  lemma DirectivesBindingCount(target: Triple, outputDir: Path, cppPaths: seq<Path>, bindingFile: Path)
    ensures multiset(DirectivesOf(target, outputDir, cppPaths, bindingFile))[RerunIfChanged(bindingFile)] ==
              if bindingFile in cppPaths then multiset(cppPaths)[bindingFile] else 1
  {
    var x := RerunIfChanged(bindingFile);
    var links := LinkDirectives(target, outputDir);
    var reruns := RerunAll(cppPaths);
    var extra := BindingRerun(cppPaths, bindingFile);
    assert DirectivesOf(target, outputDir, cppPaths, bindingFile) == links + reruns + extra + ENV_RERUNS;
    assert x !in links && x !in ENV_RERUNS;
    assert multiset(links)[x] == 0 && multiset(ENV_RERUNS)[x] == 0;
    RerunAllCount(cppPaths, bindingFile);
    if bindingFile in cppPaths {
      assert extra == [];
    } else {
      assert extra == [x];
      assert multiset(cppPaths)[bindingFile] == 0;
    }
  }

  /** The binding header is itself a `.h` file, so the walk filter keeps it. */
  lemma BindingFileKept(projectDir: Path)
    ensures KeepPath(BindingFile(projectDir))
  {
    var name := "alxr_engine.h";
    assert name[11] == '.' && name[12] == 'h';
    assert LastIndexOf(name, '.') == Some(11);
    assert name[12..] == "h";
    KeepPathByLastComponent(BindingFile(projectDir));
  }

  /** With the header the script computes and the paths the walk keeps, the
      header gets a rerun line for each time the walk lists it, and a single
      line of its own when the walk does not list it. */
  lemma DirectivesForWalkedHeader(target: Triple, outputDir: Path, entries: seq<Path>, projectDir: Path)
    ensures var h := BindingFile(projectDir);
      multiset(DirectivesOf(target, outputDir, TrackedPaths(entries), h))[RerunIfChanged(h)] ==
        if h in entries then multiset(entries)[h] else 1
  {
    var h := BindingFile(projectDir);
    var tracked := TrackedPaths(entries);
    BindingFileKept(projectDir);
    assert multiset(tracked)[h] == multiset(entries)[h];
    assert h in tracked <==> h in entries;
    DirectivesBindingCount(target, outputDir, tracked, h);
  }

  /** No line before the monitored variables is about a variable. */
  lemma FrontHasNoEnvLines(target: Triple, outputDir: Path, cppPaths: seq<Path>, bindingFile: Path, v: string)
    ensures RerunIfEnvChanged(v) !in LinkDirectives(target, outputDir) + RerunAll(cppPaths) + BindingRerun(cppPaths, bindingFile)
  {
    var x := RerunIfEnvChanged(v);
    assert x !in LinkDirectives(target, outputDir);
    assert x !in BindingRerun(cppPaths, bindingFile);
    assert x !in RerunAll(cppPaths);
  }

  /** Only the two monitored variables get a rerun line, each exactly once. */
  lemma DirectivesRerunEnv(target: Triple, outputDir: Path, cppPaths: seq<Path>, bindingFile: Path)
    ensures var d := DirectivesOf(target, outputDir, cppPaths, bindingFile);
      forall v :: multiset(d)[RerunIfEnvChanged(v)] == (if v in ENV_VAR_MONITOR_LIST then 1 else 0)
  {
    var d := DirectivesOf(target, outputDir, cppPaths, bindingFile);
    var front := LinkDirectives(target, outputDir) + RerunAll(cppPaths) + BindingRerun(cppPaths, bindingFile);
    assert d == front + ENV_RERUNS;
    assert CMAKE_GEN_ENV_VAR != BUNDLE_FFMPEG_INSTALL_DIR_VAR by {
      assert CMAKE_GEN_ENV_VAR[5] != BUNDLE_FFMPEG_INSTALL_DIR_VAR[5];
    }
    assert ENV_RERUNS == [RerunIfEnvChanged(CMAKE_GEN_ENV_VAR)] + [RerunIfEnvChanged(BUNDLE_FFMPEG_INSTALL_DIR_VAR)];
    forall v
      ensures multiset(d)[RerunIfEnvChanged(v)] == (if v in ENV_VAR_MONITOR_LIST then 1 else 0)
    {
      FrontHasNoEnvLines(target, outputDir, cppPaths, bindingFile, v);
      assert multiset(d)[RerunIfEnvChanged(v)] == multiset(front)[RerunIfEnvChanged(v)] + multiset(ENV_RERUNS)[RerunIfEnvChanged(v)];
    }
  }
}
