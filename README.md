# ded-pipe footage ingest, modelled in Dafny

ded-pipe ingests camera footage for a VFX production. For each shot it runs
a fixed pipeline of stages: Sony RAW to DPX conversion, colour transform,
proxy generation, shot-tree organisation, Kitsu registration and clean-up.
Each stage reports a processing result. The pipeline threads every stage's
outputs into the keyword arguments of the stages after it. It stops at the
first failed stage unless told to continue, and ends with a summary of the
run. Files are named by one convention,
`{shot}_{task}_{element}_v{version}_{rep}_{colorspace}.####.ext`, inside
the tree `root/{shot}/{task}/{shot}_{task}_{element}_v{version}/{rep}_{colorspace}`.

The model has one Dafny module per source file:

- `Naming` (`naming.dfy`): the configuration constants and every name and
  path of the naming convention.
- `Models` (`models.dfy`): the editorial cut, the shot, the processing
  result and the image sequence.
- `LegacyModels` (`legacy_models.dfy`): the older shot record of the
  `ingest_pipeline` package, and its agreement with the current one.
- `Stages` (`stages.dfy`): the stage base class, its `execute` wrapper and
  its helpers.
- `Pipelines` (`pipeline.dfy`): the plain, builder and conditional pipelines.
- `SonyConversion` (`sony_conversion.dfy`): the Sony RAW conversion stage,
  including WSL detection and Windows path rewriting.
- `FootageIngest` (`footage_ingest.dfy`): the standard ingest pipeline, the
  single-shot entry point and the project-level ingest object.

Three modules support the others:

- `Strings` (`strings.dfy`): split, join, replace, ASCII case mapping and
  Python's zero-padded decimal formatting.
- `Values` (`values.dfy`): the dynamic values that fill the `Dict[str, Any]`
  keyword arguments and result data.
- `Paths` (`paths.dfy`): `pathlib` paths as an absolute flag plus components.

The source's mutable objects are Dafny classes:

- `ShotInfo` and `ProcessingResult`;
- the three pipeline classes;
- `FootageIngestPipeline`.

Each class exposes a value snapshot (`Snapshot()`, `Record()`), and each of
its methods is proved against a pure specification function of the old
state. `Stages.Execute` is proved against `ExecuteSpec`. `Pipeline.Execute`
is proved against `Run`. `SonyProcess` is proved against `SonyProcessSpec`.
`VerifyExists` is proved against `ExistingFrames`. `IngestBatch` is proved
against `BatchEntries`. The properties the source promises are then proved
as lemmas about those functions.

Every stage's `process` is a function from the shot, the result so far and
the keyword arguments to an outcome. The outcome either returns normally
with the new result, or raises with the result as it stood and the
exception text. Python keeps mutations made before an exception, so the
model keeps that partial result. The Sony stage's `process` is modelled in
full. The other five stages are parameters of the deployment.

Two behaviours of the source are kept as written:

- The summary counts every stage that did not succeed as failed, including
  the stages that never ran after a stop on error.
- `Pipeline.execute` reads `shot_info.shot_name` before any stage runs, so
  a stage never sees a missing shot. The base `validate_inputs` still
  models its "Shot info is None" branch for direct calls.

## Model

| member | source | states |
|---|---|---|
| Naming.FormatShotName | ded_io/config.py:96-107 | computes `{sequence}{shot}`; ShotNameIsConcatenation and ShotNameIsAmbiguous state its properties |
| Naming.FormatVersion | ded_io/config.py:110-120 | computes `v` plus the version zero-filled to three digits; FormatVersionShape and FormatVersionInjective state its properties |
| Naming.FormatFrame | ded_io/config.py:123-133 | computes the frame zero-filled to four digits; FormatFrameShape states its properties |
| Naming.VersionContainerName | ded_io/config.py:136-149 | computes `{shot}_{task}_{element}_{vNNN}`; ContainerPrefixesBase relates it to the base filename |
| Naming.BaseFilename | ded_io/config.py:152-169 | computes `{shot}_{task}_{element}_{vNNN}_{rep}_{colorspace}`; ContainerPrefixesBase and FilenamesExtendBase state its properties |
| Naming.SequenceFilename | ded_io/config.py:172-192 | computes `{base}.{frame}.{extension}`; FilenamesExtendBase and SequenceFilenameExample state its properties |
| Naming.MovieFilename | ded_io/config.py:195-213 | computes `{base}.{extension}` with `mov` by default; FilenamesExtendBase states its properties |
| Naming.ShotPath | ded_io/config.py:216-226 | computes `/mnt/projects/{shot}`; TreeNestsOneLevelAtATime and TreeIsNested state its properties |
| Naming.TaskPath | ded_io/config.py:229-240 | computes the shot path joined with the task; TreeNestsOneLevelAtATime and TreeIsNested state its properties |
| Naming.VersionPath | ded_io/config.py:243-257 | computes the task path joined with the version container; TreeNestsOneLevelAtATime and TreeIsNested state its properties |
| Naming.ColorspacePath | ded_io/config.py:260-277 | computes the version path joined with `{rep}_{colorspace}`; ColorspacePathParts and ColorspacePathExample state its properties |
| Naming.SequenceStartIs993 | ded_io/config.py:16-20 | the sequence starts at frame 993, eight head-handle frames before the first digital frame 1001 |
| Naming.ShotNameIsConcatenation | ded_io/config.py:96-107 | the shot name is the sequence followed by the shot, with nothing inserted |
| Naming.ShotNameIsAmbiguous | ded_io/config.py:96-107 | with no separator, ("sh","t100") and ("sht","100") give the same shot name |
| Naming.FormatVersionShape | ded_io/config.py:110-120 | a version name is `v` plus digits, padded to at least three, ending in the version's digits and reading back as the version |
| Naming.FormatFrameShape | ded_io/config.py:123-133 | a frame name is all digits, padded to at least four, and reads back as the frame number |
| Naming.FormatVersionInjective | ded_io/config.py:110-120 | different versions get different version names |
| Naming.PaddingExamples | ded_io/config.py:117-131 | version 1 is `v001` and frame 993 is `0993`, as documented |
| Naming.ContainerPrefixesBase | ded_io/config.py:136-169 | the base filename is the version container name followed by `_rep_colorspace` |
| Naming.FilenamesExtendBase | ded_io/config.py:172-213 | sequence and movie filenames extend the base filename (`.frame.ext`, default `.mov`), and the container name is a prefix of all of them |
| Naming.SequenceFilenameExample | ded_io/config.py:172-192 | the documented example `sht100_pla_rawPlate_v001_main_ACEScg.0993.exr` |
| Naming.TreeNestsOneLevelAtATime | ded_io/config.py:216-277 | shot, task, version and colorspace paths each add exactly one component to the path before them |
| Naming.TreeIsNested | ded_io/config.py:216-277 | every path of the tree is absolute and extends the path of its parent level |
| Naming.ColorspacePathParts | ded_io/config.py:260-277 | the colorspace path is `/mnt/projects/{shot}/{task}/{container}/{rep}_{colorspace}` |
| Naming.ColorspacePathExample | ded_io/config.py:260-277 | the documented example path for sht100 |
| Paths.JoinPath | ded_io/config.py:226 | joining a relative name keeps the path's kind and extends its components |
| Paths.JoinComponent | ded_io/config.py:240 | joining one plain component appends exactly that component |
| Paths.ParseToString | ded_io/stages/sony_conversion.py:93-95 | rendering a path as text and parsing it back gives the same path |
| Models.EditorialCutInfo.DurationFrames | ded_io/models.py:23-26 | computes out point minus in point plus one; DurationCountsFrames states that it counts the cut's frames |
| Models.FramesBetween | ded_io/models.py:23-26 | the frames of a cut are exactly the integers from in point to out point |
| Models.FramesBetweenCount | ded_io/models.py:23-26 | there are `last - first + 1` such frames |
| Models.DurationCountsFrames | ded_io/models.py:23-26 | a cut's duration counts its frames, both points included |
| Models.PostInitFrames | ded_io/models.py:72-80 | an explicit last frame is kept with its total; otherwise the total is duration plus 16 handle frames and the range spans exactly that total |
| Models.DefaultShot | ded_io/models.py:52-80 | a shot with all defaults is pending, starts at 993, is `pla`/`rawPlate`/v001/`main`, and has duration + 16 frames ending at 993 + duration + 15 |
| Models.ShotRecord.ShotName | ded_io/models.py:82-86 | computes the shot name by the naming rules; ShotRecordNames states that it begins with the sequence and is sequence plus shot |
| Models.ShotRecord.VersionString | ded_io/models.py:88-92 | computes the formatted version; ShotRecordNames states that it is `v` and digits reading back as the version |
| Models.ShotRecord.VersionContainerName | ded_io/models.py:94-106 | computes the version container name; ShotRecordNames states that it is shot, task, element and version string joined by `_` |
| Models.ShotRecord.GetBaseFilename | ded_io/models.py:113-126 | computes the base filename; ShotRecordNames states that it is the container name, the representation and the colorspace joined by `_` |
| Models.ShotRecordNames | ded_io/models.py:82-126 | the shot name starts with the sequence; a non-negative version string reads back as the version; the container name and base filename are built from the shot's own fields by the naming convention |
| Models.ShotRecordNamesExample | ded_io/models.py:82-126 | the documented examples `sht100`, `v001`, `sht100_pla_rawPlate_v001` and `sht100_pla_rawPlate_v001_main_ACEScg` |
| Models.ShotRecord.FrameRange | ded_io/models.py:108-110 | computes `{first}-{last}`; FrameRangeSplits states that it splits back into the two numbers |
| Models.FrameRangeSplits | ded_io/models.py:108-110 | the frame range text splits on `-` into the first and last frame numbers |
| Models.ShotRecord.GetProxyFilename | ded_io/models.py:146-161 | computes the movie filename with representation `proxy`; ProxyFilenameIgnoresRepresentation states its properties |
| Models.ShotRecord.GetSequenceFilename | ded_io/models.py:128-144 | computes the sequence filename from the shot's own fields; SequenceFilenameUsesRepresentation and FrameFileNameMatchesNaming state its properties |
| Models.ProxyFilenameIgnoresRepresentation | ded_io/models.py:146-161 | the proxy filename always uses representation `proxy`, defaults to `sRGB` and `.mov`, and does not depend on the shot's representation |
| Models.SequenceFilenameUsesRepresentation | ded_io/models.py:128-144 | a frame's filename is the version container, the shot's representation, the colorspace, the padded frame and the extension |
| Models.ShotInfo.constructor | ded_io/models.py:44-80 | the new shot holds the given fields and defaults, with frames completed as post-init computes them |
| Models.ShotInfo.SetStatus | ded_io/pipeline.py:87 | setting the processing status changes nothing else in the shot |
| Models.ResultRecord.WithError | ded_io/models.py:201-204 | adding an error appends it and marks the result failed; nothing else changes |
| Models.ResultRecord.WithWarning | ded_io/models.py:206-208 | adding a warning appends it; success, errors and the rest are unchanged |
| Models.AnnotateAccumulates | ded_io/models.py:201-208 | a run of errors and warnings appends each kind in order, and the result succeeds iff it did before and no error was added |
| Models.ProcessingResult.constructor | ded_io/models.py:190-199 | a new result has its stage name, success flag and message, and no errors, warnings or data |
| Models.ProcessingResult.AddError | ded_io/models.py:201-204 | the object's new state is the old record with the error added |
| Models.ProcessingResult.AddWarning | ded_io/models.py:206-208 | the object's new state is the old record with the warning added |
| Models.ProcessingResult.Assign | ded_io/stages/base.py:72-92 | the stage's result object takes the given record as its whole state |
| Models.ImageSequence.TotalFrames | ded_io/models.py:234-236 | computes last frame minus first frame plus one; ExistingFramesExact bounds the frames found by it |
| Models.ImageSequence.Pattern | ded_io/models.py:238-241 | computes `{base}.%0{padding}d.{ext}`; ImageSequenceNames states that it shares its base name and extension with every frame's file name |
| Models.ImageSequence.FullPattern | ded_io/models.py:243-246 | computes the directory joined with the pattern; ImageSequenceNames states that it is the directory with the pattern appended |
| Models.ImageSequence.ToDict | ded_io/models.py:261-271 | computes the dictionary form; ImageSequenceToDict and ImageSequenceToDictPaths state its keys and values |
| Models.ImageSequenceNames | ded_io/models.py:238-251 | the pattern and each frame's name are base name and dot, then `%0{padding}d` or the zero-filled frame, then dot and extension; the full pattern and frame paths lie in the sequence's directory |
| Models.ImageSequenceToDict | ded_io/models.py:261-271 | the dictionary has exactly the eight keys, with the directory and full pattern as strings, the names, the frame bounds, `total_frames` and the pattern |
| Models.ImageSequenceToDictPaths | ded_io/models.py:261-271 | the directory and full-pattern strings parse back to those paths when every component is plain |
| Models.ImageSequence.GetFramePath | ded_io/models.py:248-251 | computes the directory joined with the frame's file name `{base}.{frame zero-filled to the padding}.{ext}`; FrameFileNamesDistinct and FrameFileNameMatchesNaming state the properties of that name |
| Models.ImageSequence.VerifyExists | ded_io/models.py:253-259 | the loop returns exactly the frames of the range whose files exist |
| Models.CollectFrames | ded_io/models.py:253-259 | the scan from first to last frame returns the frames that pass the test, in order |
| Models.FramesWhereStep | ded_io/models.py:255-258 | one step of the scan: the current frame, if present, comes before the rest |
| Models.FramesWhereInRange | ded_io/models.py:253-259 | every reported frame lies in the range and exists, and there are at most as many as the range holds |
| Models.FramesWhereAscending | ded_io/models.py:253-259 | reported frames are strictly ascending, so none is repeated |
| Models.FramesWhereComplete | ded_io/models.py:253-259 | every existing frame in the range is reported |
| Models.ExistingFramesExact | ded_io/models.py:234-259 | verify_exists reports exactly the existing frames of the range, ascending, and no more than total_frames |
| Models.FrameFileNameMatchesNaming | ded_io/models.py:248-251 | a sequence built on a shot's base filename names each frame as the shot's sequence filename does |
| Models.FrameFileNamesDistinct | ded_io/models.py:248-251 | two different frame numbers never share a file name |
| LegacyModels.LegacyPostInitFrames | ingest_pipeline/models.py:65-73 | an explicit last frame is kept; otherwise the total is duration plus both handles and the range spans it |
| LegacyModels.LegacyShotInfo.constructor | ingest_pipeline/models.py:44-73 | the legacy shot holds its fields, is pending, and has its frames completed as post-init computes them |
| LegacyModels.LegacyShotRecord.ShotName | ingest_pipeline/models.py:75-78 | computes `{sequence}{shot}` inline; LegacyShotNameAgrees states that it equals the naming rules' shot name |
| LegacyModels.LegacyShotRecord.FrameRange | ingest_pipeline/models.py:80-83 | computes `{first}-{last}`; LegacyFrameRangeAgrees states that it equals the current record's and splits back into the two numbers |
| LegacyModels.LegacyFrameRangeAgrees | ingest_pipeline/models.py:80-83 | the legacy frame range is the current record's for the same frames and splits on `-` into the first and last frame numbers |
| LegacyModels.LegacyShotNameAgrees | ingest_pipeline/models.py:76-78 | the legacy shot name is the same concatenation as the current convention's |
| LegacyModels.LegacyLayoutAgrees | ingest_pipeline/models.py:65-73 | with the current handle sizes, the legacy and current frame layouts are the same |
| Stages.StageName | ded_io/stages/base.py:30 | a stage is named by its given name unless that is missing or empty, in which case by its class name |
| Stages.ExecuteSpec | ded_io/stages/base.py:48-99 | computes the result `execute` returns; ExecuteNormal, ExecuteRaised, ExecuteDuration and ExecuteSuccess state its properties |
| Stages.Execute | ded_io/stages/base.py:48-99 | the returned result is the stage's execute specification applied to the shot, arguments and clock readings |
| Stages.ExecuteNormal | ded_io/stages/base.py:72-79 | after a normal return, the result keeps process's flags, errors, warnings and data, and its message is the completed-successfully or completed-with-errors text, whatever process set |
| Stages.ExecuteRaised | ded_io/stages/base.py:81-86 | after an exception, the result fails, with the "failed with exception" error appended and used as the message; the partial warnings and data are kept |
| Stages.ExecuteDuration | ded_io/stages/base.py:88-92 | the duration is always set to end minus start, and is non-negative when the clock is monotone |
| Stages.ExecuteSuccess | ded_io/stages/base.py:62-86 | a stage succeeds iff process returned normally with a successful result |
| Stages.ValidatedInputs | ded_io/stages/base.py:115-131 | inputs are valid iff a shot is given; otherwise "Shot info is None" is added and nothing else changes |
| Stages.ValidateInputs | ded_io/stages/base.py:115-131 | the method's verdict and new result are those of ValidatedInputs |
| Stages.FileChecked | ded_io/stages/base.py:152-171 | a path passes iff it exists and is a regular file; otherwise exactly the matching error is added |
| Stages.VerifyFileExists | ded_io/stages/base.py:152-171 | the method's verdict and new result are those of FileChecked |
| Stages.DirectoryCreated | ded_io/stages/base.py:133-150 | creation succeeds iff the file system reports no failure; a failure adds "Failed to create directory" with its text |
| Stages.CreateDirectory | ded_io/stages/base.py:133-150 | the method's verdict and new result are those of DirectoryCreated |
| Stages.ValidationProcess | ded_io/stages/base.py:208-217 | the `process` of a validation stage: stores the verdict under `is_valid`, fails on a negative verdict, and sets the passed or failed message; ValidationStageOutcome states the result after execution |
| Stages.ValidationStageOutcome | ded_io/stages/base.py:208-217 | a validation stage records `is_valid`, and succeeds iff validation passed without errors |
| Pipelines.MergeOutputs | ded_io/pipeline.py:101-110 | computes the keyword arguments after a stage's data is merged; MergeOutputsEffect states its effect |
| Pipelines.RunFrom | ded_io/pipeline.py:92-128 | computes the rest of a run from a given stage and state; RunFromShape, RunFromStops, RunFromFacts and RunFromPrefix state its properties |
| Pipelines.Run | ded_io/pipeline.py:65-128 | computes a whole run from the keyword arguments; RunFacts, RunIsStepByStep and SummaryOfRun state its properties |
| Pipelines.BuildSummary | ded_io/pipeline.py:141-165 | computes the summary dictionary; SummaryOfRun states its counts |
| Pipelines.OutputKeyIsDistinct | ded_io/pipeline.py:101-110 | a stage's `_output` key never collides with `input_sequence` or `proxy_file` |
| Pipelines.MergeOutputsEffect | ded_io/pipeline.py:101-110 | empty data leaves the arguments alone. Otherwise exactly `{stage}_output`, `input_sequence` and `proxy_file` are set; `output_sequence` wins over `dpx_sequence`, and every other key is kept |
| Pipelines.AllSucceededAppend | ded_io/pipeline.py:113-128 | appending a result keeps all-succeeded iff that result succeeded |
| Pipelines.RunFromShape | ded_io/pipeline.py:92-128 | the run only extends the results, one per stage and no more than the stages; the error flag is set iff some result failed; when continuing on errors every stage has a result; the conditional pipeline keeps the context |
| Pipelines.RunFromStops | ded_io/pipeline.py:92-124 | when stopping on errors, every result but the last succeeded, and a run that ended early ends with the failure that stopped it |
| Pipelines.RunFromFacts | ded_io/pipeline.py:92-128 | each step of the run extends the results, tracks the error flag, runs every stage when continuing, and stops right after the first failure when stopping |
| Pipelines.RunFacts | ded_io/pipeline.py:65-128 | a run has at most one result per stage, all of them when continuing, and every result but the last succeeds when stopping on error. The status is complete iff all results succeeded, otherwise error |
| Pipelines.RunFromNames | ded_io/pipeline.py:92-98 | when no stage renames its result, each result carries the name of the stage at its position |
| Pipelines.RunResultsInStageOrder | ded_io/pipeline.py:92-98 | when no stage renames its result, the k-th result of a run carries the k-th stage's name |
| Pipelines.StepAppends | ded_io/pipeline.py:92-128 | one turn of the loop appends exactly the stage's result (skipped or executed), and the error flag records whether it failed |
| Pipelines.TurnsLength | ded_io/pipeline.py:92-98 | turns that each append one result: after n turns there are n more results |
| Pipelines.TurnsPrefix | ded_io/pipeline.py:92-98 | turns that each append one result build the results in order: after n turns there are n more, and earlier ones are kept |
| Pipelines.StageTurnAppends | ded_io/pipeline.py:92-98 | every stage's turn appends exactly one result |
| Pipelines.PrefixStep | ded_io/pipeline.py:92-98 | the state after n + 1 turns is stage n's turn from the state after n |
| Pipelines.PrefixLength | ded_io/pipeline.py:92-128 | after n turns there are n results, and the error flag is set iff one of them failed |
| Pipelines.PrefixResults | ded_io/pipeline.py:92-98 | the results after k turns are the first k of those after n, and the k-th result is stage k's own from the state after k turns |
| Pipelines.RunFromUnfold | ded_io/pipeline.py:92-128 | a run is one stage's turn followed by the rest of the run, unless that turn stops it |
| Pipelines.RunTurnsPrefix | ded_io/pipeline.py:92-128 | a loop over turns that may stop early, started from no results, ends in the state that as many turns as it has results reach |
| Pipelines.RunFromTurns | ded_io/pipeline.py:92-128 | a run is the stage turns taken in order until the stop decision of one (it executed, failed, and the run stops on errors) ends it |
| Pipelines.RunFromPrefix | ded_io/pipeline.py:92-128 | a run ends in exactly the state that its first `|results|` turns reach |
| Pipelines.RunIsStepByStep | ded_io/pipeline.py:92-128 | for any stages, whatever their names: the k-th result is stage k's, skipped or executed on the shot status and arguments the earlier stages left |
| Pipelines.CountSuccessful | ded_io/pipeline.py:152 | no more stages succeed than results exist |
| Pipelines.CountSuccessfulAll | ded_io/pipeline.py:152 | every result is counted as successful iff all succeeded |
| Pipelines.SummaryOfRun | ded_io/pipeline.py:141-165 | successful plus failed equals the total stage count, and overall success means no failed stage, which means every result succeeded |
| Pipelines.SampleStages | ded_io/stages/base.py:72-86 | a stage that passes succeeds with no errors; a stage that raises fails with the exception message |
| Pipelines.SampleFailureMessage | ded_io/stages/base.py:83 | the failure message reads "Stage B failed with exception: boom" |
| Pipelines.StopOnErrorScenario | ded_io/pipeline.py:113-165 | in A, B (raises), C with stop on error, two results and status error; the stage that never ran counts as failed |
| Pipelines.ContinueOnErrorScenario | ded_io/pipeline.py:113-128 | without stop on error, all three stages run and the status is error |
| Pipelines.SkippedStageScenario | ded_io/pipeline.py:261-306 | a stage whose condition is false is recorded as skipped and successful, and the run completes |
| Pipelines.Pipeline.constructor | ded_io/pipeline.py:23-40 | a new pipeline has its name and stages and no results |
| Pipelines.Pipeline.AddStage | ded_io/pipeline.py:55-63 | the stage is appended and nothing else changes |
| Pipelines.Pipeline.Execute | ded_io/pipeline.py:65-139 | the results are those of Run, the shot's status is the run's final status and nothing else in it changes, and the summary is built from them |
| Pipelines.PipelineBuilder.constructor | ded_io/pipeline.py:201-208 | the builder holds a fresh, empty pipeline with the given name |
| Pipelines.PipelineBuilder.AddStage | ded_io/pipeline.py:210-221 | the stage is appended to the pipeline and the builder itself is returned |
| Pipelines.PipelineBuilder.Build | ded_io/pipeline.py:223-230 | the pipeline being built is returned |
| Pipelines.ConditionalPipeline.constructor | ded_io/pipeline.py:241-243 | a new conditional pipeline has no conditions |
| Pipelines.ConditionalPipeline.AddStage | ded_io/pipeline.py:55-63 | an unconditional stage is appended; conditions are unchanged |
| Pipelines.ConditionalPipeline.AddConditionalStage | ded_io/pipeline.py:245-259 | the stage is appended and its condition is recorded under its name |
| Pipelines.ConditionalPipeline.Execute | ded_io/pipeline.py:261-306 | the results are those of Run with the conditions, and the arguments are never merged; status and summary as for Pipeline.Execute |
| SonyConversion.DetectWsl | ded_io/stages/sony_conversion.py:40-49 | computes whether the stage runs under WSL; DetectWslMeaning states when |
| SonyConversion.ToWindowsPath | ded_io/stages/sony_conversion.py:51-69 | computes the Windows form of a path; MountedPathRewrite, MountedDriveRoot, SharePathRewrite and WindowsPathHasNoSlash state its properties |
| SonyConversion.DetectWslMeaning | ded_io/stages/sony_conversion.py:40-49 | WSL is detected iff the OS is not Windows and the kernel version, lower-cased, contains `microsoft` or `wsl` |
| SonyConversion.MountSplit | ded_io/stages/sony_conversion.py:60-64 | a `/mnt/` path splits into `""`, `mnt` and the rest's parts |
| SonyConversion.MountedPathRewrite | ded_io/stages/sony_conversion.py:58-65 | `/mnt/d/rest` becomes `D:\rest`, with slashes replaced by backslashes |
| SonyConversion.MountedDriveRoot | ded_io/stages/sony_conversion.py:58-65 | `/mnt/d` becomes the drive root `D:\` |
| SonyConversion.SharePathRewrite | ded_io/stages/sony_conversion.py:66-69 | any other path becomes `\\wsl$\{distro}` followed by the path with backslashes, and is 7 + distro + path characters long |
| SonyConversion.WindowsPathHasNoSlash | ded_io/stages/sony_conversion.py:51-69 | a rewritten path contains no forward slash |
| SonyConversion.RawFrameRange | ded_io/stages/sony_conversion.py:100-101 | the converted range spans the cut plus both handles |
| SonyConversion.RawRangeMatchesShot | ded_io/stages/sony_conversion.py:100-101 | the converted range has the same length as the shot's frame range, duration + 16 |
| SonyConversion.CommandsAgree | ded_io/stages/sony_conversion.py:177-240 | the native and WSL commands carry the same arguments after the input; the WSL one runs the tool through `cmd.exe /c` with a Windows source path |
| SonyConversion.ToolReport | ded_io/stages/sony_conversion.py:188-263 | a run succeeds iff the tool exited with code 0. Otherwise exactly one error is added, naming the exit error, the timeout, the missing tool or the exception |
| SonyConversion.NewSonyConfig | ded_io/stages/sony_conversion.py:26-38 | the stage name defaults to the class name, the tool path to the standard install location, and WSL mode is detected |
| SonyConversion.RunNative | ded_io/stages/sony_conversion.py:167-212 | the verdict and result are ToolReport of the native command's outcome |
| SonyConversion.RunViaWslInterop | ded_io/stages/sony_conversion.py:214-263 | the verdict and result are ToolReport of the WSL command's outcome, with the distribution from the environment |
| SonyConversion.RunSonyConversion | ded_io/stages/sony_conversion.py:144-165 | WSL interop is used iff WSL was detected |
| SonyConversion.SonyValidated | ded_io/stages/sony_conversion.py:265-278 | inputs are valid iff the shot has a source raw path; otherwise "Source raw path not specified" is added |
| SonyConversion.SonyValidateInputs | ded_io/stages/sony_conversion.py:265-278 | the method's verdict and result are those of SonyValidated |
| SonyConversion.OutputDir | ded_io/stages/sony_conversion.py:91-95 | a missing or None output_dir gives `/tmp/sony_conversion/{shot}`; a string output_dir is parsed as given; any other value fails with `pathlib.Path`'s `TypeError` text naming its type |
| SonyConversion.SonyProcessSpec | ded_io/stages/sony_conversion.py:71-142 | computes the outcome of the stage's `process`; SonyProcessFailures and SonyProcessSuccess state its properties |
| SonyConversion.SonyProcess | ded_io/stages/sony_conversion.py:71-142 | the method returns or raises as SonyProcessSpec says, leaving the result it says |
| SonyConversion.ConvertAndRecord | ded_io/stages/sony_conversion.py:99-142 | converting then recording leaves the result ConvertedStep computes |
| SonyConversion.RecordSequence | ded_io/stages/sony_conversion.py:120-142 | recording the DPX sequence leaves the result RecordOutputs computes |
| SonyConversion.SonyProcessFailures | ded_io/stages/sony_conversion.py:82-97 | each failure adds exactly its error and stops: no source path, a missing source file, a nonzero tool exit, a timeout |
| SonyConversion.SonyProcessSuccess | ded_io/stages/sony_conversion.py:120-142 | after a clean tool exit no error is added. A shortfall warning is added iff fewer frames exist than expected, and `dpx_sequence`, `output_dir` and `frames_created` are recorded |
| SonyConversion.RecordOutputsFacts | ded_io/stages/sony_conversion.py:120-142 | recording keeps success and errors, warns only on a shortfall, and adds exactly the three data keys |
| FootageIngest.IngestStages | ded_io/footage_ingest.py:22-74 | the ingest pipeline has the six standard stages in order, the first being the Sony conversion with default settings |
| FootageIngest.CreateIngestPipeline | ded_io/footage_ingest.py:22-74 | a fresh `FootageIngest` pipeline with those stages and no results |
| FootageIngest.IngestKwargs | ded_io/footage_ingest.py:139-143 | the pipeline's only keyword argument is `project_id`, None when not given |
| FootageIngest.IngestShotSpec | ded_io/footage_ingest.py:77-145 | computes the summary of ingesting one shot; IngestShotFacts and IngestMissingSource state its properties |
| FootageIngest.IngestSingleShot | ded_io/footage_ingest.py:77-145 | the summary is that of the ingest pipeline run on the shot built from the request |
| FootageIngest.IngestShotFacts | ded_io/footage_ingest.py:77-145 | the summary covers six stages, stops after the first failure, and succeeds iff every stage did. The shot is built from the request with default layout and ends complete or error |
| FootageIngest.IngestMissingSource | ded_io/footage_ingest.py:77-145 | a missing source file stops the run at the Sony stage with "File does not exist" and six failed stages |
| FootageIngest.Lookup | ded_io/footage_ingest.py:269-272 | `get` returns the stored value, or the default when the key is missing |
| FootageIngest.ParseShotData | ded_io/footage_ingest.py:262-272 | computes the keyword arguments read from one batch entry, or the error they raise; ParseShotDataMissingKey and ParseShotDataDefaults state its properties |
| FootageIngest.ParseShotDataMissingKey | ded_io/footage_ingest.py:262-267 | the first required key that is missing fails with that key's KeyError text; a source file that is not a string fails with `pathlib.Path`'s `TypeError` text before the frame points are read |
| FootageIngest.ParseShotDataDefaults | ded_io/footage_ingest.py:262-272 | a minimal entry is parsed with the default fps, task, element and version, and a given version overrides its default |
| FootageIngest.BatchEntryFor | ded_io/footage_ingest.py:260-283 | computes one batch entry: the ingested summary, or the failure record with the shot and the error; IngestBatchEntries states its properties |
| FootageIngest.BatchEntriesAt | ded_io/footage_ingest.py:260-285 | the batch has one entry per shot, in input order, each computed from that shot alone |
| FootageIngest.IngestBatchEntries | ded_io/footage_ingest.py:260-285 | an entry is a failure iff its shot data does not parse |
| FootageIngest.IngestedSummaries | ded_io/footage_ingest.py:232 | at most one summary per batch entry is recorded |
| FootageIngest.IngestedSummariesAppend | ded_io/footage_ingest.py:232 | recording a further entry appends its summary, or nothing for a failed entry |
| FootageIngest.IngestedSummariesCount | ded_io/footage_ingest.py:232 | the recorded summaries number the entries minus the failures, and are all of them when none failed |
| FootageIngest.CountFailed | ded_io/footage_ingest.py:275-283 | no more entries fail than exist |
| FootageIngest.CountOverallSuccess | ded_io/footage_ingest.py:295-297 | no more shots succeed than were processed |
| FootageIngest.CountOverallSuccessAppend | ded_io/footage_ingest.py:295-297 | one more shot adds one to the successes iff it succeeded |
| FootageIngest.FootageIngestPipeline.constructor | ded_io/footage_ingest.py:155-173 | the object holds its project, id and deployment, a fresh ingest pipeline, and no processed shots |
| FootageIngest.FootageIngestPipeline.IngestShot | ded_io/footage_ingest.py:188-233 | the summary is that of a single-shot ingest, and it is appended to the processed shots |
| FootageIngest.FootageIngestPipeline.IngestFromEdl | ded_io/footage_ingest.py:235-246 | EDL ingest always raises "EDL parsing to be implemented" and changes nothing |
| FootageIngest.FootageIngestPipeline.IngestEntry | ded_io/footage_ingest.py:261-283 | one entry is ingested or recorded as failed, and only ingested shots are added to the processed shots |
| FootageIngest.FootageIngestPipeline.IngestBatch | ded_io/footage_ingest.py:248-285 | the results are the batch entries in input order, and the processed shots grow by exactly the ingested summaries |
| FootageIngest.FootageIngestPipeline.GetSummary | ded_io/footage_ingest.py:287-305 | the report lists every processed shot; the successful count is the number of summaries with overall success, the failed count the rest, and the two add up to the total |
| FootageIngest.ReportAfterIngest | ded_io/footage_ingest.py:287-305 | one more processed shot raises either the successful or the failed count by one |

## Left out

- Logging, and the stages' own start and end time fields, are not modelled. Clock readings enter as a `Timing` parameter of the run.
- `created_at` is not modelled.
- I/O is not modelled. The file system is a parameter: the set of existing paths and regular files, and a directory-creation outcome.
- The Sony tool's run is a function from the command line to its outcome: exit code and stderr, timeout, tool not found, or another error. The frames it writes are a set of paths known after the run.
- `save_report` (JSON to a file) is left out as I/O.
- The `to_dict` serialisations are left out, except the image sequence's, which the Sony stage stores. Summaries and results are kept as values.
- `get_config` and `PipelineConfig.to_dict` only read the configuration and are not modelled. The configuration constants are modelled in `Naming`.
- `KitsuConfig` reads environment variables and is not modelled.
- The OIIO colour transform, proxy generation, shot-tree organisation, Kitsu and clean-up stages are parameters of the deployment, each a `process` function.
- ded_io/stages/oiio_transform.py is not part of this model.
- Stages' writes to the shot's path fields are not modelled. A stage's `process` returns only its result.
- `quick_ingest` is not modelled. It is `ingest_shot` with a project name and default arguments, which `IngestSingleShot` covers.
- The CLI, the example and debug scripts, and the setup scripts are not modelled.
- `SonyValidated`: the "Editorial info not provided" branch is not modelled. The model's shot always carries an editorial cut, so that branch cannot be reached in it.
- `OutputDir`: keyword values are modelled as None, booleans, numbers, strings, lists and dicts, so a `Path` object passed as `output_dir` is represented by its string. Any other kind fails with the `TypeError` text of `pathlib.Path` in Python 3.12, the version the source needs (ded_io/stages/sony_conversion.py:69 puts a backslash inside an f-string expression, which older versions reject); the source raises it inside `process` and `execute` reports it as the stage's exception.
- `BitDepthText`: a bit depth that is a float, a list or a dict renders as the empty string, where Python's `str` would give its text; None renders as "None" and booleans as "True" or "False", as `str` does.
- `ParseShotData`: a value of an unexpected kind (a float frame point, or a None fps) fails with "unsupported value for <key>". Python would carry such values on or fail later.
- `Stages.ExecuteSpec`: `Raised` stands for exceptions of `Exception` subclasses only, which `execute` and `ingest_batch` catch. Any other exception (such as `KeyboardInterrupt` or `SystemExit`) gets its duration set and then leaves `execute`, aborting the pipeline run and the whole batch. The model does not represent such exceptions.
- `ConditionalPipeline.Execute`: a condition that raises an exception is not modelled. Conditions are total functions of the shot and the results so far.
- `Upper`/`Lower`: case mapping covers ASCII letters only.
- `Paths`: the root path `//` and other `pathlib` normalisations beyond empty and `.` components are not modelled.
- `FootageIngestPipeline`'s own pipeline object is built, as in the source, but `IngestShot` builds its ingest pipeline again per shot, so the stored one is never run.
- `ValidationStage`: the message it sets is always overwritten by `execute`'s completion message, and the model states that overwrite.
