/** The compiler flags: `faustoptflags` and `build_flags` in faust2sc.py.
    The platform's system and machine names and the `CXXFLAGS` environment
    variable are parameters. */
module BuildFlags {
  import opened Wrappers
  import opened Text

  /** The machine name of the Raspberry Pi branch. */
  const RaspberryPi: string := "arm6vl"

  const RaspberryPiGccFlags: string :=
    "-std=c++11 -O3 -march=armv6zk -mcpu=arm1176jzf-s -mtune=arm1176jzf-s -mfpu=vfp -mfloat-abi=hard -ffast-math -ftree-vectorize"
  const NativeGccFlags: string := "-std=c++11 -Ofast -march=native"
  const GenericGccFlags: string := "-std=c++11 -Ofast"
  const IccFlags: string := "-std=c++11 -O3 -xHost -ftz -fno-alias -fp-model fast=2"
  const DarwinScFlags: string := "-DNO_LIBSNDFILE -DSC_DARWIN -bundle"
  const LinuxScFlags: string := "-DNO_LIBSNDFILE -DSC_LINUX -shared -fPIC"

  /** The gcc flags before any `CXXFLAGS`: the Raspberry Pi set, the
      generic set on Apple silicon, the native set otherwise. */
  function GccFlagsFor(system: string, machine: string): string
  {
    if machine == RaspberryPi then RaspberryPiGccFlags
    else if system == "Darwin" && machine == "arm64" then GenericGccFlags
    else NativeGccFlags
  }

  /** The gcc flags followed by `CXXFLAGS`, after a single space, when it is set. */
  function WithCxxFlags(flags: string, cxxflags: Option<string>): string
  {
    if cxxflags.Some? then flags + " " + cxxflags.value else flags
  }

  /** `faustoptflags`: the variables of the `faustoptflags` script, set one
      after the other as the platform dictates. */
  method FaustOptFlags(system: string, machine: string, cxxflags: Option<string>) returns (env: map<string, string>)
    ensures env.Keys <= {"EXT", "SCFLAGS", "MYGCCFLAGS", "MYGCCFLAGSGENERIC", "MYICCFLAGS"}
    ensures "MYGCCFLAGS" in env && "MYICCFLAGS" in env && env["MYICCFLAGS"] == IccFlags
    ensures "EXT" in env <==> !(system == "Darwin" && machine == RaspberryPi)
    ensures "SCFLAGS" in env <==> "EXT" in env
    ensures system == "Darwin" && machine != RaspberryPi ==>
      env["EXT"] == "scx" && env["SCFLAGS"] == DarwinScFlags
    ensures system != "Darwin" ==>
      env["EXT"] == "so" && env["SCFLAGS"] == LinuxScFlags
    ensures "MYGCCFLAGSGENERIC" in env <==> machine != RaspberryPi
    ensures "MYGCCFLAGSGENERIC" in env ==> env["MYGCCFLAGSGENERIC"] == GenericGccFlags
    ensures env["MYGCCFLAGS"] == WithCxxFlags(GccFlagsFor(system, machine), cxxflags)
  {
    env := map[];
    if machine == RaspberryPi {
      env := env["MYGCCFLAGS" := RaspberryPiGccFlags];
    } else if system == "Darwin" {
      env := env["EXT" := "scx"];
      env := env["SCFLAGS" := DarwinScFlags];
      if machine == "arm64" {
        env := env["MYGCCFLAGS" := GenericGccFlags];
      } else {
        env := env["MYGCCFLAGS" := NativeGccFlags];
      }
      env := env["MYGCCFLAGSGENERIC" := GenericGccFlags];
    } else {
      env := env["MYGCCFLAGS" := NativeGccFlags];
      env := env["MYGCCFLAGSGENERIC" := GenericGccFlags];
    }

    env := env["MYICCFLAGS" := IccFlags];

    if system != "Darwin" {
      env := env["EXT" := "so"];
      env := env["SCFLAGS" := LinuxScFlags];
    }

    if cxxflags.Some? {
      env := env["MYGCCFLAGS" := env["MYGCCFLAGS"] + " " + cxxflags.value];
    }
  }

  /** The `-arch` option for the requested macOS architecture. */
  function MacArch(macosArch: Option<string>): (r: string)
    ensures r == "-arch x86_64" <==> macosArch == Some("x86_64")
    ensures r == "-arch arm64" <==> macosArch == Some("arm64")
    ensures r == "" <==> macosArch != Some("x86_64") && macosArch != Some("arm64")
  {
    if macosArch == Some("x86_64") then "-arch x86_64"
    else if macosArch == Some("arm64") then "-arch arm64"
    else ""
  }

  /** `build_flags`: "-O3", the SuperCollider flags, the include flags, the
      gcc flags and the `-arch` option, separated by spaces. The include
      flags come from running the `faust` compiler and searching for the
      SuperCollider headers, so they are a parameter here. */
  method BuildFlags(system: string, machine: string, cxxflags: Option<string>, includeFlags: string,
                    macosArch: Option<string>) returns (r: Result<string>)
    ensures r.Err? <==> system == "Darwin" && machine == RaspberryPi
    ensures r.Err? ==> r.error == KeyError("SCFLAGS")
    ensures r.Ok? ==>
      r.value == "-O3 " + (if system == "Darwin" then DarwinScFlags else LinuxScFlags) + " " + includeFlags
        + " " + WithCxxFlags(GccFlagsFor(system, machine), cxxflags) + " " + MacArch(macosArch)
  {
    var macArch := "";
    if macosArch == Some("x86_64") {
      macArch := "-arch x86_64";
    } else if macosArch == Some("arm64") {
      macArch := "-arch arm64";
    }

    assert macArch == MacArch(macosArch);

    var env := FaustOptFlags(system, machine, cxxflags);
    if "SCFLAGS" !in env {
      return Err(KeyError("SCFLAGS"));
    }
    r := Ok("-O3 " + env["SCFLAGS"] + " " + includeFlags + " " + env["MYGCCFLAGS"] + " " + macArch);
  }
}
