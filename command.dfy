/**
 * Paths of the stored upload and of the upscaled output, and the command
 * line of the external upscaler (src/main.rs, `upscale_image_post`).
 */
module Command {
  import opened Wrappers

  /** The upscaler executable, relative to the server's working directory. */
  const Program: string := "./realesrgan-ncnn-ubuntu/realesrgan-ncnn-vulkan"
  /** The fixed GPU index passed with `-g`. */
  const GpuIndex: string := "0"
  /** The fixed scale factor passed with `-s`. */
  const ScaleFactor: string := "2"
  /** The prefix the output file name gets inside the cache directory. */
  const UpscaledPrefix: string := "upscaled_"

  /** Where the uploaded part is stored: `{cacheDir}/{name}`. */
  function OriginalPath(cacheDir: string, name: string): (p: string)
    ensures |p| == |cacheDir| + 1 + |name|
    ensures p[..|cacheDir|] == cacheDir && p[|cacheDir|] == '/'
    ensures p[|cacheDir| + 1..] == name
  {
    cacheDir + "/" + name
  }

  /** Where the upscaler is told to write: `{cacheDir}/upscaled_{name}`. */
  function UpscaledPath(cacheDir: string, name: string): (p: string)
    ensures p == OriginalPath(cacheDir, UpscaledPrefix + name)
  {
    cacheDir + "/upscaled_" + name
  }

  /** Within one cache directory, the stored path determines the file name. */
  lemma OriginalPathInjective(cacheDir: string, n: string, m: string)
    ensures OriginalPath(cacheDir, n) == OriginalPath(cacheDir, m) <==> n == m
  {
    if OriginalPath(cacheDir, n) == OriginalPath(cacheDir, m) {
      assert n == OriginalPath(cacheDir, n)[|cacheDir| + 1..];
    }
  }

  /** Within one cache directory, the output path determines the file name. */
  lemma UpscaledPathInjective(cacheDir: string, n: string, m: string)
    ensures UpscaledPath(cacheDir, n) == UpscaledPath(cacheDir, m) <==> n == m
  {
    OriginalPathInjective(cacheDir, UpscaledPrefix + n, UpscaledPrefix + m);
    if UpscaledPrefix + n == UpscaledPrefix + m {
      assert n == (UpscaledPrefix + n)[|UpscaledPrefix|..];
    }
  }

  /**
   * An upload's input path is another upload's output path exactly when its
   * name is the other name with `upscaled_` in front; in particular one
   * upload's input and output paths never coincide.
   */
  lemma InputOutputPathsCollide(cacheDir: string, n: string, m: string)
    ensures OriginalPath(cacheDir, n) == UpscaledPath(cacheDir, m) <==> n == UpscaledPrefix + m
    ensures OriginalPath(cacheDir, n) != UpscaledPath(cacheDir, n)
  {
    OriginalPathInjective(cacheDir, n, UpscaledPrefix + m);
    OriginalPathInjective(cacheDir, n, UpscaledPrefix + n);
    assert |UpscaledPrefix + n| != |n|;
  }

  /**
   * How a flag/value command line is read: the value following the first
   * occurrence of `flag` in a flag position (0, 2, 4, ...).
   */
  function FlagValue(args: seq<string>, flag: string): (r: Option<string>)
    ensures r.Some? ==> r.value in args
    decreases |args|
  {
    if |args| < 2 then None
    else if args[0] == flag then Some(args[1])
    else
      var rest := FlagValue(args[2..], flag);
      assert rest.Some? ==> rest.value in args by {
        if rest.Some? {
          var k :| 0 <= k < |args[2..]| && args[2..][k] == rest.value;
          assert args[k + 2] == rest.value;
        }
      }
      rest
  }

  /** The flags of the upscaler command line, in order. */
  const Flags: seq<string> := ["-i", "-o", "-g", "-s"]

  /**
   * The upscaler's argument list: the two paths and the fixed GPU index and
   * scale factor, each after its flag.
   */
  function Arguments(originalPath: string, upscaledPath: string): seq<string> {
    ["-i", originalPath, "-o", upscaledPath, "-g", GpuIndex, "-s", ScaleFactor]
  }

  /**
   * The argument list has the four flags in order at the flag positions,
   * and reading it back gives each flag its value: the input path, the
   * output path, GPU 0 and scale 2, and nothing for any other flag.
   */
  lemma ArgumentsDecode(originalPath: string, upscaledPath: string)
    ensures var args := Arguments(originalPath, upscaledPath);
      && |args| == 8
      && args[0] == Flags[0] && args[2] == Flags[1] && args[4] == Flags[2] && args[6] == Flags[3]
      && FlagValue(args, "-i") == Some(originalPath)
      && FlagValue(args, "-o") == Some(upscaledPath)
      && FlagValue(args, "-g") == Some(GpuIndex)
      && FlagValue(args, "-s") == Some(ScaleFactor)
      && forall f :: f !in Flags ==> FlagValue(args, f) == None
  {
    var args := Arguments(originalPath, upscaledPath);
    var fromG, fromS := args[4..], args[6..];
    assert args[2..][2..] == fromG && fromG[2..] == fromS && fromS[2..] == [];
    assert forall f :: FlagValue(fromS, f) == (if f == "-s" then Some(ScaleFactor) else None);
    assert forall f :: f != "-s" ==> FlagValue(fromG, f) == (if f == "-g" then Some(GpuIndex) else None);
    assert FlagValue(fromG, "-s") == Some(ScaleFactor);
    assert forall f :: f != "-i" && f != "-o" ==> FlagValue(args, f) == FlagValue(fromG, f);
  }

  /** A process invocation: the executable and its argument list. */
  datatype Invocation = Invocation(program: string, args: seq<string>)

  /** The command the handler spawns for the given input and output paths. */
  function UpscaleCommand(originalPath: string, upscaledPath: string): Invocation {
    Invocation(Program, Arguments(originalPath, upscaledPath))
  }
}
