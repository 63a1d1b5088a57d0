# ply2sog in Dafny

This project models `process_and_convert` from `ply2sog.py`. The function turns a LiDAR point
cloud (binary PLY) into a Gaussian-splat PLY and hands it to the external `splat-transform`
tool, which writes a `.sog` container. The project has four modules:

- `Paths` (`paths.dfy`) derives the output paths. It covers POSIX `os.path.dirname`,
  `basename` and `join`, and `str.replace(".ply", "")`. The stem is the basename with every
  non-overlapping `.ply` removed, scanning from the left. The intermediate file is
  `dir/stem_fixed_30.ply` and the final file is `dir/stem.sog`. The lemmas show that both
  sit in the input's directory and that neither can be the input path or the other.
- `Stride` (`stride.dfy`) is the density step `v[::k]` as a function on sequences. It keeps
  ceil(N/k) records, and record i of the output is input record i*k.
- `Splats` (`splats.dfy`) is the transformer. `VertexData` and `Transform` are the
  specification. They centre positions on their mean, remap (x, y, z) to
  (x, -z, y), add the vertical offset and map each colour channel to its DC coefficient.
  Every record gets the same opacity, scale and identity rotation. The imperative part
  follows the source: `BuildVertexData` allocates a record array, shifts the y column in
  place (`AddOffset`) and fills the array field group by field group. It is proved equal
  to `Transform`. Arithmetic is exact over `real`.
- `Pipeline` (`pipeline.dfy`) is the control flow over a `Disk`, a class holding a
  `map<Path, Blob>` of existing files. The outcomes of the PLY library, the file write,
  the converter process and `os.remove` are parameters. `Run`, `WriteStage` and
  `ConvertStage` are the specification. `LoadStage` is the part after the output paths
  are derived. `ProcessAndConvert` and its stage methods are proved equal to them. The
  lemmas state what a run guarantees.

Three behaviours of the code are worth noting:

- A file without a `vertex` element raises `KeyError` at `plydata['vertex']` (line 56).
  A vertex element without one of the properties x, y, z, red, green or blue raises
  `ValueError` when numpy looks up that field (lines 60, 65-67 and 84-86). Both lookups
  are outside any `try`, so the exception escapes the function. Only a missing `x` is
  hit before the point count is printed.
- A failing open or write of the intermediate file raises out of the function. These
  calls are at lines 116-117.
- A missing input is reported and the function returns normally. It does not exit with
  an error status.

## Model

| member | source | states |
|---|---|---|
| Paths.RemovePly | ply2sog.py:45 | `str.replace(".ply", "")` only shortens the name, by a multiple of 4 characters, and introduces no new characters |
| Paths.RemovePlyUnchangedIff | ply2sog.py:45 | the stem equals the basename exactly when the basename contains no ".ply" |
| Paths.RemovePlyAppendSog | ply2sog.py:45-47 | removing ".ply" commutes with appending ".sog" |
| Paths.SogNameDiffers | ply2sog.py:45-47 | stem + ".sog" never equals the input basename |
| Paths.IntermediateNameDiffers | ply2sog.py:45-46 | stem + "_fixed_30.ply" never equals the input basename (13 added, 4 per removal) |
| Paths.Join | ply2sog.py:46-47 | `os.path.join` (POSIX) ends with its second argument |
| Paths.IntermediatePath | ply2sog.py:44-46 | the intermediate path ends in "_fixed_30.ply" |
| Paths.SogPath | ply2sog.py:44-47 | the final path ends in ".sog" |
| Paths.HeadLength | ply2sog.py:44-45 | the split point of dirname/basename: right after a separator, with none after it |
| Paths.TrimSeps | ply2sog.py:44 | rstrip of separators: the longest prefix not ending in a separator, the rest all separators |
| Paths.Basename | ply2sog.py:45 | the basename contains no separator |
| Paths.Dirname | ply2sog.py:44 | dirname is a prefix of the path that ends in a non-separator, or is empty, or is all separators |
| Paths.Stem | ply2sog.py:45 | the stem contains no separator |
| Paths.SiblingPath | ply2sog.py:44-47 | a separator-free name joined onto dirname(p) has directory dirname(p) and basename that name |
| Paths.DerivedPathsDistinct | ply2sog.py:44-47 | both derived paths have the input's directory and the names stem + "_fixed_30.ply" and stem + ".sog", and input, intermediate and final paths are pairwise distinct |
| Stride.KeptCount | ply2sog.py:59-60 | the number of records `v[::k]` keeps is at most N, is 0 only for an empty cloud, and is N for step 1 |
| Stride.Subsample | ply2sog.py:59 | `v[::k]` has KeptCount(N, k) records and record i is input record i*k |
| Stride.KeptCountIsCeiling | ply2sog.py:59-60 | the number of kept records is ceil(N/k) = (N + k - 1) / k |
| Stride.KeepsEveryMultiple | ply2sog.py:59 | every input record whose index j is a multiple of k is kept, at position j/k |
| Stride.StepOneIsIdentity | ply2sog.py:23 | the configured step of 1 keeps the cloud unchanged |
| Splats.ShDc | ply2sog.py:84-86 | the DC coefficient f satisfies -0.5 <= f * 0.28209 <= 0.5, and is negative exactly for channel values 0..127 |
| Splats.VertexData | ply2sog.py:76-110 | one record per vertex, each with the configured opacity and scales and the rotation (1,0,0,0) |
| Splats.Transform | ply2sog.py:59-110 | KeptCount(N, k) records, each with the configured opacity and scales and the rotation (1,0,0,0) |
| Splats.RecordLayout | ply2sog.py:76-110 | record i has x - mean(x), -(z - mean(z)) + Y_OFFSET, y - mean(y), the per-channel DC colour, and the uniform opacity, scales and rotation (1,0,0,0) |
| Splats.TransformLength | ply2sog.py:59-60 | the output has ceil(N/k) records |
| Splats.TransformPicksStride | ply2sog.py:59-86 | output record i is built from input vertex i*k, centred on the means of the kept vertices |
| Splats.DefaultKeepsAll | ply2sog.py:23 | with the default configuration the output is the records built from the whole cloud, none dropped |
| Splats.IgnoresExtraProperties | ply2sog.py:89-97 | input properties other than x, y, z, red, green, blue do not affect the records |
| Splats.TransformIgnoresExtraProperties | ply2sog.py:59-97 | the same after subsampling: clouds that differ only in other properties give the same output |
| Splats.ShDcInverse | ply2sog.py:84-86 | (f * 0.28209 + 0.5) * 255 recovers the 8-bit channel exactly |
| Splats.ShDcStrictlyIncreasing | ply2sog.py:84-86 | the colour map is strictly increasing, hence injective |
| Splats.SumCentered | ply2sog.py:70-78 | a column centred on its mean sums to zero |
| Splats.Centroid | ply2sog.py:70-81 | output x and z sum to zero and output y sums to N * Y_OFFSET |
| Splats.AddOffset | ply2sog.py:81 | `y_final += Y_OFFSET` shifts every element by the offset in place |
| Splats.FillPointProperties | ply2sog.py:98-101 | each record gets its x, y, z and f_dc_0..2 from the columns and keeps its other fields |
| Splats.FillUniformProperties | ply2sog.py:104-110 | each record gets the configured opacity and scales and rotation (1,0,0,0) and keeps its other fields |
| Splats.BuildVertexData | ply2sog.py:59-110 | the filled buffer equals `Transform(v, cfg)`: ceil(N/k) records, each with the uniform attributes |
| Pipeline.ConvertStage | ply2sog.py:119-138 | every exception is caught; the success line is printed exactly when the converter exits 0; any other outcome leaves the disk unchanged |
| Pipeline.WriteStage | ply2sog.py:112-138 | an IOError escapes exactly when the write fails, and then nothing is printed and only the intermediate path may change; otherwise the converter line comes first |
| Pipeline.LoadStage | ply2sog.py:49-138 | the loading line comes first; the call returns exactly for a read error or a written intermediate file; a failed load changes no file |
| Pipeline.Run | ply2sog.py:35-138 | a missing input prints one line and changes nothing; otherwise the loading line comes first; the call returns (rather than raising) exactly for a missing input, a read error or a written intermediate file |
| Pipeline.NoWriteBeforeLoad | ply2sog.py:40-86 | a missing input or a failed load leaves the disk unchanged; a missing input or unreadable file returns after its message; a missing `vertex` element raises KeyError and a missing property raises ValueError |
| Pipeline.RunKeepsInput | ply2sog.py:40-138 | the input file is never overwritten or removed |
| Pipeline.LoadStageLifecycle | ply2sog.py:116-138 | for any two distinct output paths: the intermediate is gone exactly when the converter exited 0 and the removal succeeded, otherwise it holds the records |
| Pipeline.IntermediateLifecycle | ply2sog.py:116-138 | after the write, the intermediate is gone exactly when the converter exited 0 and the removal succeeded; otherwise it holds the transformed records |
| Pipeline.LoadStageSog | ply2sog.py:116-134 | for any two distinct output paths: the success line is printed, and the .sog path holds the converted records, exactly when the load, the write and the converter succeed; otherwise that path is unchanged |
| Pipeline.SogOnlyOnSuccess | ply2sog.py:116-134 | the success line is printed, and the .sog path then holds the converted records, exactly when load, write and converter all succeeded; otherwise that path is unchanged |
| Pipeline.FailedConversionKeepsIntermediate | ply2sog.py:125-136 | a nonzero exit status is reported and the intermediate file stays on disk |
| Pipeline.CleanupFailureAfterSuccess | ply2sog.py:131-138 | a failing removal is reported by the generic handler after the success line, and the intermediate stays |
| Pipeline.WriteIntermediate | ply2sog.py:116-117 | the disk gains the intermediate PLY, is unchanged, or holds a partial file, according to the write outcome |
| Pipeline.ConvertAndClean | ply2sog.py:119-138 | converting and cleaning up change the disk and print lines as `ConvertStage` says |
| Pipeline.WriteAndConvert | ply2sog.py:112-138 | writing, converting and cleaning up behave as `WriteStage` says |
| Pipeline.LoadAndConvert | ply2sog.py:49-138 | loading, transforming, writing and converting behave as `LoadStage` says |
| Pipeline.ProcessAndConvert | ply2sog.py:35-138 | the whole function behaves as `Run` says: disk afterwards, lines printed, return or escaping exception |

## Left out

- PLY parsing and writing (`PlyData.read`, `PlyElement.describe`, `PlyData(...).write`)
  are abstracted. The load is a `LoadOutcome` parameter, and the written file is an
  `IntermediatePly` blob holding the records. Byte order and the binary encoding are not
  modelled.
- Colour channels are `Byte`, an integer 0..255. The code casts whatever numeric type the
  `red`, `green` and `blue` properties have to float32 (lines 84-86). Other types and
  ranges are not modelled.
- Floating point is not modelled: float64 mean accumulation, float32 casts and their
  rounding. All arithmetic is exact over `real`, and 0.28209 is an exact rational.
- The mean of an empty column is NaN in numpy. The model uses 0, and no record then
  exists to carry it.
- The `splat-transform` process is not modelled: its `NODE_OPTIONS` heap setting, the
  `shell=True` argument handling and what it writes on failure. Its exit is a
  `ToolOutcome` parameter. On success the `.sog` path holds a `SogContainer` of the
  records. On failure the model assumes the tool left the disk unchanged.
- The converter is modelled as if it receives `--input` and `--output`. That holds on
  Windows. On POSIX, `shell=True` with an argument list runs `sh -c splat-transform` and
  passes the other list items to the shell, not to the tool (lines 125-129), so the tool
  gets no arguments. The model's "exit 0 means the `.sog` path holds the records" is
  therefore the Windows behaviour, while its path functions follow POSIX.
- `os.remove` is a boolean parameter. The model does not say why a removal fails.
- The exact wording of the printed messages is left out. Printed lines are `Message`
  values.
- `argparse`, the `__main__` block and `DEFAULT_INPUT_PATH` are left out. They only choose
  the input path.
- Path functions follow POSIX `posixpath` semantics. Windows `ntpath` (backslashes, drive
  letters) is not modelled. `os.path.exists` is membership in the disk map, with no
  directories or permissions.
- A density step of 0 or less is excluded by `requires densityStep >= 1`. numpy rejects
  0 and reverses the order for negative steps, and the configuration uses 1.
