/** The control flow of `process_and_convert` over an abstract disk: check the
    input exists, derive the output paths, load, transform, write the
    intermediate PLY, run the external converter, and remove the intermediate
    only once the converter has succeeded. What the PLY library, the converter
    process and `os.remove` do is not visible here, so their outcomes are
    parameters. */
module Pipeline {
  import opened Paths
  import opened Splats
  import Stride

  /** What a path on the disk holds, as far as this program can tell. */
  datatype Blob =
    | Bytes                             // a file this program does not interpret
    | IntermediatePly(rows: seq<Splat>) // the binary little-endian PLY it wrote
    | SogContainer(rows: seq<Splat>)    // the converter's output for those rows

  /** A vertex property the conversion looks up by name. */
  datatype Field = X | Y | Z | Red | Green | Blue

  /** What reading the input file with the PLY library yields. */
  datatype LoadOutcome =
    | Parsed(vertices: seq<Vertex>)
    | Unreadable                               // PlyData.read raised
    | NoVertexElement                          // plydata['vertex'] raises KeyError
    | MissingField(count: nat, field: Field)   // a vertex element of `count` rows lacks `field`:
                                               // numpy raises ValueError on v[field]

  /** What writing the intermediate file does. */
  datatype WriteOutcome =
    | Written
    | OpenFailed    // open(..., 'wb') raised: nothing created
    | WriteFailed   // the file was created, then writing it raised

  /** How the converter subprocess ends. */
  datatype ToolOutcome =
    | Exited(code: int)
    | SpawnFailed   // subprocess.run raised something other than CalledProcessError

  /** The lines the function prints. */
  datatype Message =
    | InputNotFound(path: Path)
    | Loading(path: Path)
    | ReadError
    | Processing(count: nat)
    | SavingIntermediate
    | Converting
    | Success(output: Path)
    | ConversionFailed(code: int)
    | UnexpectedError

  /** How the call ends: it returns None, or an exception escapes it. */
  datatype Exit = Returned | Raised(error: Escaped)
  datatype Escaped = KeyError | ValueError | IOError

  class Disk {
    var files: map<Path, Blob>

    constructor (files: map<Path, Blob>)
      ensures this.files == files
    {
      this.files := files;
    }
  }

  /** Before line 62 only a missing `vertex` element or `x` property raises;
      the other properties are first read after the count is printed. */
  predicate ReadBeforeCount(f: Field) {
    f == X
  }

  /** The disk afterwards, the lines printed and how the call ended. */
  datatype RunResult = RunResult(files: map<Path, Blob>, log: seq<Message>, exit: Exit)

  // ---------------------------------------------------------------------------
  // The run, stage by stage

  /** Lines 125-138 with the intermediate file already on disk: the converter
      reads it; only after it exits 0 is the success line printed and the file
      removed, and a failing removal lands in the generic handler. */
  function ConvertStage(files: map<Path, Blob>, cleaned: Path, sog: Path, rows: seq<Splat>,
                        tool: ToolOutcome, removeOk: bool): (r: RunResult)
    ensures r.exit == Returned
    ensures Success(sog) in r.log <==> tool == Exited(0)
    ensures tool != Exited(0) ==> r.files == files
  {
    match tool
    case SpawnFailed => RunResult(files, [UnexpectedError], Returned)
    case Exited(code) =>
      if code != 0 then RunResult(files, [ConversionFailed(code)], Returned)
      else
        var converted := files[sog := SogContainer(rows)];
        if removeOk then RunResult(converted - {cleaned}, [Success(sog)], Returned)
        else RunResult(converted, [Success(sog), UnexpectedError], Returned)
  }

  /** Lines 116-138: the write is outside any try, so its failure escapes. */
  function WriteStage(files: map<Path, Blob>, cleaned: Path, sog: Path, rows: seq<Splat>,
                      write: WriteOutcome, tool: ToolOutcome, removeOk: bool): (r: RunResult)
    ensures r.exit == Raised(IOError) <==> !write.Written?
    ensures !write.Written? ==> r.log == [] && r.files - {cleaned} == files - {cleaned}
    ensures write.Written? ==> r.log != [] && r.log[0] == Converting && r.exit == Returned
  {
    match write
    case OpenFailed => RunResult(files, [], Raised(IOError))
    case WriteFailed => RunResult(files[cleaned := Bytes], [], Raised(IOError))
    case Written =>
      var c := ConvertStage(files[cleaned := IntermediatePly(rows)], cleaned, sog, rows, tool, removeOk);
      RunResult(c.files, [Converting] + c.log, c.exit)
  }

  /** Lines 49-138 once the output paths are derived: load, transform, then
      write and convert. Only a read error is caught; a missing `vertex`
      element or property escapes. */
  function LoadStage(files: map<Path, Blob>, input: Path, cleaned: Path, sog: Path, cfg: Config,
                     load: LoadOutcome, write: WriteOutcome, tool: ToolOutcome, removeOk: bool): (r: RunResult)
    requires cfg.densityStep >= 1
    ensures r.exit == Returned <==> load.Unreadable? || (load.Parsed? && write.Written?)
    ensures r.log != [] && r.log[0] == Loading(input)
    ensures !load.Parsed? ==> r.files == files
  {
    match load
    case Unreadable => RunResult(files, [Loading(input), ReadError], Returned)
    case NoVertexElement => RunResult(files, [Loading(input)], Raised(KeyError))
    case MissingField(count, field) =>
      var counted := if ReadBeforeCount(field) then []
                     else [Processing(Stride.KeptCount(count, cfg.densityStep))];
      RunResult(files, [Loading(input)] + counted, Raised(ValueError))
    case Parsed(vertices) =>
      var rows := Transform(vertices, cfg);
      var w := WriteStage(files, cleaned, sog, rows, write, tool, removeOk);
      RunResult(w.files, [Loading(input), Processing(|rows|), SavingIntermediate] + w.log, w.exit)
  }

  /** Lines 35-138: the whole of `process_and_convert`. A missing input is
      reported and the call returns; otherwise the run goes on with the output
      paths derived from the input. */
  function Run(files: map<Path, Blob>, input: Path, cfg: Config,
               load: LoadOutcome, write: WriteOutcome, tool: ToolOutcome, removeOk: bool): (r: RunResult)
    requires cfg.densityStep >= 1
    ensures r.exit == Returned <==>
      input !in files || load.Unreadable? || (load.Parsed? && write.Written?)
    ensures input in files ==> r.log != [] && r.log[0] == Loading(input)
    ensures input !in files ==> r.files == files && r.log == [InputNotFound(input)]
  {
    if input !in files then RunResult(files, [InputNotFound(input)], Returned)
    else LoadStage(files, input, IntermediatePath(input), SogPath(input), cfg, load, write, tool, removeOk)
  }

  // ---------------------------------------------------------------------------
  // What a run guarantees

  /** The write and convert stages touch only the intermediate and `.sog` paths. */
  lemma WriteStageFrame(files: map<Path, Blob>, cleaned: Path, sog: Path, rows: seq<Splat>,
                        write: WriteOutcome, tool: ToolOutcome, removeOk: bool, p: Path)
    requires p != cleaned && p != sog
    ensures var r := WriteStage(files, cleaned, sog, rows, write, tool, removeOk);
      (p in r.files <==> p in files) && (p in files ==> r.files[p] == files[p])
  {
  }

  /** The input file is never overwritten or removed. */
  lemma RunKeepsInput(files: map<Path, Blob>, input: Path, cfg: Config,
                      load: LoadOutcome, write: WriteOutcome, tool: ToolOutcome, removeOk: bool)
    requires cfg.densityStep >= 1 && input in files
    ensures var r := Run(files, input, cfg, load, write, tool, removeOk);
      input in r.files && r.files[input] == files[input]
  {
    if load.Parsed? {
      DerivedPathsDistinct(input);
      WriteStageFrame(files, IntermediatePath(input), SogPath(input), Transform(load.vertices, cfg),
                      write, tool, removeOk, input);
    }
  }

  /** A missing input, or a load that fails, leaves the disk exactly as it was;
      a missing `vertex` element raises KeyError, a missing property ValueError. */
  lemma NoWriteBeforeLoad(files: map<Path, Blob>, input: Path, cfg: Config,
                          load: LoadOutcome, write: WriteOutcome, tool: ToolOutcome, removeOk: bool)
    requires cfg.densityStep >= 1 && (input !in files || !load.Parsed?)
    ensures var r := Run(files, input, cfg, load, write, tool, removeOk);
      && r.files == files
      && (input !in files ==> r.log == [InputNotFound(input)] && r.exit == Returned)
      && (input in files && load.Unreadable? ==> r.log == [Loading(input), ReadError] && r.exit == Returned)
      && (input in files && load.NoVertexElement? ==> r.exit == Raised(KeyError))
      && (input in files && load.MissingField? ==> r.exit == Raised(ValueError))
  {
  }

  /** `IntermediateLifecycle` for given output paths that differ. */
  lemma LoadStageLifecycle(files: map<Path, Blob>, input: Path, cleaned: Path, sog: Path, cfg: Config,
                           vertices: seq<Vertex>, tool: ToolOutcome, removeOk: bool)
    requires cfg.densityStep >= 1 && cleaned != sog
    ensures var r := LoadStage(files, input, cleaned, sog, cfg, Parsed(vertices), Written, tool, removeOk);
      && (cleaned !in r.files <==> tool == Exited(0) && removeOk)
      && (cleaned in r.files ==> r.files[cleaned] == IntermediatePly(Transform(vertices, cfg)))
  {
  }

  /** Once written, the intermediate file is gone at the end exactly when the
      converter exited 0 and the removal succeeded; otherwise it still holds
      the transformed records. */
  lemma IntermediateLifecycle(files: map<Path, Blob>, input: Path, cfg: Config,
                              vertices: seq<Vertex>, tool: ToolOutcome, removeOk: bool)
    requires cfg.densityStep >= 1 && input in files
    ensures var r := Run(files, input, cfg, Parsed(vertices), Written, tool, removeOk);
      var cleaned := IntermediatePath(input);
      && (cleaned !in r.files <==> tool == Exited(0) && removeOk)
      && (cleaned in r.files ==> r.files[cleaned] == IntermediatePly(Transform(vertices, cfg)))
  {
    DerivedPathsDistinct(input);
    LoadStageLifecycle(files, input, IntermediatePath(input), SogPath(input), cfg, vertices, tool, removeOk);
  }

  /** `SogOnlyOnSuccess` for given output paths that differ. */
  lemma LoadStageSog(files: map<Path, Blob>, input: Path, cleaned: Path, sog: Path, cfg: Config,
                     load: LoadOutcome, write: WriteOutcome, tool: ToolOutcome, removeOk: bool)
    requires cfg.densityStep >= 1 && cleaned != sog
    ensures var r := LoadStage(files, input, cleaned, sog, cfg, load, write, tool, removeOk);
      var succeeded := load.Parsed? && write.Written? && tool == Exited(0);
      && (Success(sog) in r.log <==> succeeded)
      && (succeeded ==>
            sog in r.files && r.files[sog] == SogContainer(Transform(load.vertices, cfg)))
      && (!succeeded ==>
            (sog in r.files <==> sog in files) && (sog in files ==> r.files[sog] == files[sog]))
  {
  }

  /** A run creates or changes the `.sog` file only when the whole pipeline got
      through the converter with exit status 0, and it then holds the
      container of the transformed records; the success line is printed then
      and only then. */
  lemma SogOnlyOnSuccess(files: map<Path, Blob>, input: Path, cfg: Config,
                         load: LoadOutcome, write: WriteOutcome, tool: ToolOutcome, removeOk: bool)
    requires cfg.densityStep >= 1
    ensures var r := Run(files, input, cfg, load, write, tool, removeOk);
      var sog := SogPath(input);
      var succeeded := input in files && load.Parsed? && write.Written? && tool == Exited(0);
      && (Success(sog) in r.log <==> succeeded)
      && (succeeded ==>
            sog in r.files && r.files[sog] == SogContainer(Transform(load.vertices, cfg)))
      && (!succeeded ==>
            (sog in r.files <==> sog in files) && (sog in files ==> r.files[sog] == files[sog]))
  {
    if input in files {
      DerivedPathsDistinct(input);
      LoadStageSog(files, input, IntermediatePath(input), SogPath(input), cfg, load, write, tool, removeOk);
    }
  }

  /** A failing removal is reported by the generic handler after the success
      line, and leaves the intermediate file in place. */
  lemma CleanupFailureAfterSuccess(files: map<Path, Blob>, cleaned: Path, sog: Path,
                                   rows: seq<Splat>)
    requires cleaned != sog && cleaned in files
    ensures var r := ConvertStage(files, cleaned, sog, rows, Exited(0), false);
      && r.log == [Success(sog), UnexpectedError] && r.exit == Returned
      && cleaned in r.files && r.files[cleaned] == files[cleaned]
  {
  }

  /** A failed conversion reports the exit status and leaves the intermediate file. */
  lemma FailedConversionKeepsIntermediate(files: map<Path, Blob>, input: Path, cfg: Config,
                                          vertices: seq<Vertex>, code: int, removeOk: bool)
    requires cfg.densityStep >= 1 && input in files && code != 0
    ensures var r := Run(files, input, cfg, Parsed(vertices), Written, Exited(code), removeOk);
      && r.log[|r.log| - 1] == ConversionFailed(code)
      && r.files == files[IntermediatePath(input) := IntermediatePly(Transform(vertices, cfg))]
  {
  }

  // ---------------------------------------------------------------------------
  // The program

  /** Line 116-117: `open(cleaned, 'wb')` and the PLY write. */
  method WriteIntermediate(disk: Disk, cleaned: Path, rows: seq<Splat>, write: WriteOutcome)
    modifies disk
    ensures write.Written? ==> disk.files == old(disk.files)[cleaned := IntermediatePly(rows)]
    ensures write.OpenFailed? ==> disk.files == old(disk.files)
    ensures write.WriteFailed? ==> disk.files == old(disk.files)[cleaned := Bytes]
  {
    match write
    case Written => disk.files := disk.files[cleaned := IntermediatePly(rows)];
    case OpenFailed =>
    case WriteFailed => disk.files := disk.files[cleaned := Bytes];
  }

  /** Lines 119-138: the converter reads the intermediate file from the disk. */
  method ConvertAndClean(disk: Disk, cleaned: Path, sog: Path, tool: ToolOutcome, removeOk: bool)
    returns (log: seq<Message>)
    requires cleaned in disk.files && disk.files[cleaned].IntermediatePly?
    modifies disk
    ensures RunResult(disk.files, log, Returned)
         == ConvertStage(old(disk.files), cleaned, sog, old(disk.files)[cleaned].rows, tool, removeOk)
  {
    match tool
    case SpawnFailed =>
      log := [UnexpectedError];
    case Exited(code) =>
      if code != 0 {
        log := [ConversionFailed(code)];
      } else {
        disk.files := disk.files[sog := SogContainer(disk.files[cleaned].rows)];
        log := [Success(sog)];
        if removeOk {
          disk.files := disk.files - {cleaned};
        } else {
          log := log + [UnexpectedError];
        }
      }
  }

  /** Lines 112-138 once the records are built. */
  method WriteAndConvert(disk: Disk, cleaned: Path, sog: Path, rows: seq<Splat>,
                         write: WriteOutcome, tool: ToolOutcome, removeOk: bool)
    returns (log: seq<Message>, exit: Exit)
    modifies disk
    ensures RunResult(disk.files, log, exit)
         == WriteStage(old(disk.files), cleaned, sog, rows, write, tool, removeOk)
  {
    WriteIntermediate(disk, cleaned, rows, write);
    if !write.Written? {
      log, exit := [], Raised(IOError);
      return;
    }
    var tail := ConvertAndClean(disk, cleaned, sog, tool, removeOk);
    log, exit := [Converting] + tail, Returned;
  }

  /** Lines 35-138. */
  method ProcessAndConvert(disk: Disk, input: Path, cfg: Config,
                           load: LoadOutcome, write: WriteOutcome, tool: ToolOutcome,
                           removeOk: bool)
    returns (log: seq<Message>, exit: Exit)
    requires cfg.densityStep >= 1
    modifies disk
    ensures RunResult(disk.files, log, exit)
         == Run(old(disk.files), input, cfg, load, write, tool, removeOk)
  {
    if input !in disk.files {
      log, exit := [InputNotFound(input)], Returned;
      return;
    }
    var cleaned, sog := IntermediatePath(input), SogPath(input);
    log, exit := LoadAndConvert(disk, input, cleaned, sog, cfg, load, write, tool, removeOk);
  }

  /** Lines 49-138. */
  method LoadAndConvert(disk: Disk, input: Path, cleaned: Path, sog: Path, cfg: Config,
                        load: LoadOutcome, write: WriteOutcome, tool: ToolOutcome,
                        removeOk: bool)
    returns (log: seq<Message>, exit: Exit)
    requires cfg.densityStep >= 1
    modifies disk
    ensures RunResult(disk.files, log, exit)
         == LoadStage(old(disk.files), input, cleaned, sog, cfg, load, write, tool, removeOk)
  {
    log := [Loading(input)];
    match load
    case Unreadable =>
      log, exit := log + [ReadError], Returned;
    case NoVertexElement =>
      exit := Raised(KeyError);
    case MissingField(count, field) =>
      if !ReadBeforeCount(field) {
        log := log + [Processing(Stride.KeptCount(count, cfg.densityStep))];
      }
      exit := Raised(ValueError);
    case Parsed(vertices) =>
      var rows := BuildVertexData(vertices, cfg);
      log := log + [Processing(|rows|), SavingIntermediate];
      var tail;
      tail, exit := WriteAndConvert(disk, cleaned, sog, rows, write, tool, removeOk);
      log := log + tail;
  }
}
