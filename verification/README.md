# BlendImporter in Dafny

BlendImporter is an Unreal Engine editor plugin that imports Blender `.blend`
files. It does not read `.blend` files itself. It runs Blender twice, each
time with a Python script:

- `blender_analyse.py` lists the visible collections, checks how each
  material's Principled BSDF is fed by textures, and prints `C|…`, `M|…|…`
  and `P|True` lines.
- `blender_export.py` exports the chosen collections to FBX. It is steered by
  `UNREAL_IMPORTER_*` environment variables and can first rewire the material
  textures.

In between, the factory:

1. parses the analysis output;
2. shows an options dialog (pivot, collections) unless the asset being
   replaced carries its saved options;
3. skips the export when the same unchanged file was just exported;
4. imports the FBX.

This project models those pieces as Dafny modules:

| module | what it models |
|---|---|
| `UnrealString` | The FString/TArray primitives the importer uses. `Find`, `EndsWith`, `ReplaceInline` and array equality ignore case. `ParseIntoArray` can cull empty pieces. `Left` and `LeftChop` clamp. |
| `ImportOptions` | `UBlendImportOptions` and its string form `"<true\|false>;a,b,c"`. |
| `ImporterSettings` | `UBlendImporterSettings`: the Blender path sanitiser and the executable check. |
| `BlenderProcess` | `RunScriptOnBlendFile`: the command line and the wait loop, over observed polls. |
| `AnalysisParser` | The line parser of `BlendFileAnalyse`. |
| `BlendData` | The Blender data the scripts see: node graphs, materials, layer collections. |
| `AnalyseScript` | `blender_analyse.py`. |
| `AnalysisProtocol` | Producer and parser together: what the script prints is read back as intended. |
| `ImportDialog` | `SBlendAssetImportDialog` without its layout: preselection, check boxes, pivot, buttons. |
| `AssetFactory` | `UBlendAssetFactory`: the export-skip cache, the `FactoryCreateFile` flow and the reimport check. |
| `ExportScript` | `blender_export.py`: environment decoding, material rewiring, pivot reset, selection and the export call. |

Objects whose fields the C++ updates in place are classes:
`BlendImportOptions`, `BlendImporterSettings`, `BlendAssetImportDialog`,
`BlendAssetFactory`, and the export script's `Scene`. Loops in the source
are methods with loop invariants. Each is proved equal to a specification
function, and the properties are lemmas about those functions.

What the environment supplies is passed in as observations:

- whether pipes and the process could be created;
- each poll of the wait loop: running, clock, the user's answer, the text read;
- the file's time stamp and MD5 hash;
- whether the FBX file exists;
- the user's dialog actions;
- whether the FBX import produced an object.

Source paths in the table are relative to the repository root.

Behaviour of the code that the model keeps as written:

- The export skip ignores the options string. A file that is unchanged but
  re-imported with other options is not exported again. The options string
  only decides a log line.
- The four `Previous*` cache fields are overwritten before Blender runs, so a
  failed export still primes the cache.
- A lone `P|` line has one non-empty field and is skipped. Only `P|<something>`
  sets the packed flag.
- Each `C` line replaces the collection list; it does not extend it.
- Python's `print` ends lines with `\n`. The parser's two-character chop is
  right only when the console writes `\r\n`. `AnalysisProtocol` states that
  line end as an explicit assumption, and `BareNewlineLosesLastName` shows
  what a bare `\n` does.
- The sanitiser replaces every case-insensitive `-launcher.exe`, but it does so
  only once. A path ending in `-launcher-launcher.exe` therefore still ends in
  `-launcher.exe` after sanitising (`LauncherRewrittenOnce`). The guarantee
  that holds is that a path containing `.exe` comes out ending in `.exe`.

## Model

| member | source | states |
|---|---|---|
| UnrealString.ToLower | Plugins/BlendImporter/Source/BlendImporter/Private/BlendImporterSettings.cpp:124 | Case folding keeps the length and lower-cases each character; the case-insensitive FString searches compare through it. |
| UnrealString.FindFrom | Plugins/BlendImporter/Source/BlendImporter/Private/BlendImporterSettings.cpp:124 | The result is -1 only if no case-insensitive match starts at or after `i`; otherwise it is the first such match. |
| UnrealString.Find | Plugins/BlendImporter/Source/BlendImporter/Private/BlendImporterSettings.cpp:124 | `FString::Find`: the first case-insensitive match, or -1 exactly when the substring is empty or occurs nowhere. |
| UnrealString.Left | Plugins/BlendImporter/Source/BlendImporter/Private/BlendImporterSettings.cpp:125 | `LeftInline` gives a prefix whose length is `n` clamped to 0 and to the string length. |
| UnrealString.LeftChop | Plugins/BlendImporter/Source/BlendImporter/Private/BlendAssetFactory.cpp:468 | `LeftChopInline(n)` gives the prefix `n` shorter than the string, or the empty string when the string is shorter. |
| UnrealString.TrimStart | Plugins/BlendImporter/Source/BlendImporter/Private/BlendImporterSettings.cpp:127 | The result is a suffix of the input that starts with a non-whitespace character or is empty. |
| UnrealString.TrimStartRemovesWhitespace | Plugins/BlendImporter/Source/BlendImporter/Private/BlendImporterSettings.cpp:127 | Everything TrimStart removes is whitespace. |
| UnrealString.TrimEnd | Plugins/BlendImporter/Source/BlendImporter/Private/BlendImporterSettings.cpp:127 | The result is a prefix of the input that ends with a non-whitespace character or is empty. |
| UnrealString.TrimEndRemovesWhitespace | Plugins/BlendImporter/Source/BlendImporter/Private/BlendImporterSettings.cpp:127 | Everything TrimEnd removes is whitespace. |
| UnrealString.TrimQuotes | Plugins/BlendImporter/Source/BlendImporter/Private/BlendImporterSettings.cpp:128 | Removing quotes never lengthens the string. |
| UnrealString.TrimQuotesRestores | Plugins/BlendImporter/Source/BlendImporter/Private/BlendImporterSettings.cpp:128 | The input is the result with the removed quotes put back: one leading `"` if the input starts with one, and one trailing `"` if it is longer than one character and ends with one. |
| UnrealString.Split | Plugins/BlendImporter/Source/BlendImporter/Private/BlendAssetFactory.cpp:45 | Splitting on a delimiter always yields at least one piece. |
| UnrealString.RemoveEmpty | Plugins/BlendImporter/Source/BlendImporter/Private/BlendAssetFactory.cpp:454 | The culling step of `ParseIntoArray(…, true)` leaves no empty piece. |
| UnrealString.RemoveEmptyKeeps | Plugins/BlendImporter/Source/BlendImporter/Private/BlendAssetFactory.cpp:454 | Culling keeps every non-empty piece as often as it occurs. |
| UnrealString.RemoveEmptyAppend | Plugins/BlendImporter/Source/BlendImporter/Private/BlendAssetFactory.cpp:454 | Culling works piece by piece, so the kept pieces stay in order. |
| UnrealString.RemoveAllIgnoreCase | Plugins/BlendImporter/Source/BlendImporter/Private/SBlendAssetImportDialog.cpp:328 | `TArray::Remove` leaves no element equal, ignoring case, to the removed name. |
| UnrealString.RemoveAllKeeps | Plugins/BlendImporter/Source/BlendImporter/Private/SBlendAssetImportDialog.cpp:328 | Removal keeps every element that does not match the removed name, as often as it occurs. |
| UnrealString.RemoveAllAppend | Plugins/BlendImporter/Source/BlendImporter/Private/SBlendAssetImportDialog.cpp:328 | Removal works element by element, so the remaining elements stay in order. |
| UnrealString.BoolTextRoundTrip | Plugins/BlendImporter/Source/BlendImporter/Private/BlendAssetFactory.cpp:36-48 | `ToBool` reads the `"true"`/`"false"` written by `ToString` back as the original flag. |
| UnrealString.JoinSplit | Plugins/BlendImporter/Source/BlendImporter/Private/BlendAssetFactory.cpp:38-45 | Joining the pieces of a split with the delimiter gives back the string. |
| UnrealString.SplitJoin | Plugins/BlendImporter/Source/BlendImporter/Private/BlendAssetFactory.cpp:38-45 | Splitting a join of delimiter-free pieces gives back the pieces. |
| UnrealString.SplitPrefix | Plugins/BlendImporter/Source/BlendImporter/Private/BlendAssetFactory.cpp:45 | A delimiter-free prefix is glued to the first piece of what follows it. |
| UnrealString.SplitAfterDelimiter | Plugins/BlendImporter/Source/BlendImporter/Private/BlendAssetFactory.cpp:45 | A leading delimiter yields a leading empty piece. |
| UnrealString.RemoveEmptyOfNonEmpty | Plugins/BlendImporter/Source/BlendImporter/Private/BlendAssetFactory.cpp:454 | Culling leaves a list without empty pieces unchanged. |
| UnrealString.ParseJoinCulled | Plugins/BlendImporter/Source/BlendImporter/Private/BlendAssetFactory.cpp:51 | `ParseIntoArray` with culling inverts a join of non-empty, delimiter-free names. |
| UnrealString.JoinNonEmpty | Plugins/BlendImporter/Source/BlendImporter/Private/BlendAssetFactory.cpp:38 | A join whose first piece is non-empty is non-empty. |
| UnrealString.ReplaceAllPrefix | Plugins/BlendImporter/Source/BlendImporter/Private/BlendImporterSettings.cpp:134 | Replacement leaves a prefix with no match untouched and continues after it. |
| UnrealString.ReplaceAllNoMatch | Plugins/BlendImporter/Source/BlendImporter/Private/BlendImporterSettings.cpp:134 | A string without a match is unchanged by `ReplaceInline`. |
| UnrealString.ReplaceAllHead | Plugins/BlendImporter/Source/BlendImporter/Private/BlendImporterSettings.cpp:134 | A match at the start is replaced, and the scan resumes after it. |
| ImportOptions.BlendImportOptions.constructor | Plugins/BlendImporter/Source/BlendImporter/Private/BlendAssetFactory.h:18-19 | New options have no object pivot and no enabled collections. |
| ImportOptions.BlendImportOptions.ToString | Plugins/BlendImporter/Source/BlendImporter/Private/BlendAssetFactory.cpp:33-40 | When no name contains `;`, the string has exactly two `;` fields: the pivot as `true`/`false`, then the comma-joined collections. |
| ImportOptions.BlendImportOptions.FromString | Plugins/BlendImporter/Source/BlendImporter/Private/BlendAssetFactory.cpp:42-60 | Succeeds exactly when the data holds one `;`. On failure nothing changes. On success the pivot is read with `ToBool`, and the collection list is replaced by the culled comma list unless the second field is empty, which keeps the old list. |
| ImportOptions.DecodeAcceptsIffOneSeparator | Plugins/BlendImporter/Source/BlendImporter/Private/BlendAssetFactory.cpp:45-46 | Decoding is accepted iff the data contains exactly one `;`. |
| ImportOptions.SplitCount | Plugins/BlendImporter/Source/BlendImporter/Private/BlendAssetFactory.cpp:45 | Splitting without culling gives one more piece than there are delimiters. |
| ImportOptions.OptionsFields | Plugins/BlendImporter/Source/BlendImporter/Private/BlendAssetFactory.cpp:33-45 | For `;`-free names, splitting the encoded options gives exactly the pivot text and the joined names. |
| ImportOptions.NoSemicolonInJoin | Plugins/BlendImporter/Source/BlendImporter/Private/BlendAssetFactory.cpp:38 | Joining `;`-free names with `,` introduces no `;`. |
| ImportOptions.OptionsRoundTrip | Plugins/BlendImporter/Source/BlendImporter/Private/BlendAssetFactory.cpp:33-52 | Decoding the encoding of a non-empty list of non-empty names without `,` or `;` restores both the pivot and the list. |
| ImportOptions.EmptyListKeepsPrevious | Plugins/BlendImporter/Source/BlendImporter/Private/BlendAssetFactory.cpp:49-53 | Options saved with no collections decode as accepted, with the pivot and no new collection list, so the previous list stays. |
| ImportOptions.SemicolonInNameRejected | Plugins/BlendImporter/Source/BlendImporter/Private/BlendAssetFactory.cpp:38-58 | A collection name containing `;` makes the saved options undecodable. |
| ImporterSettings.ValidatedExecutable | Plugins/BlendImporter/Source/BlendImporter/Private/BlendImporterSettings.cpp:46-69 | The check yields either "" or the path itself, and yields the path iff it ends with `blender.exe` (ignoring case). An empty path fails that test. |
| ImporterSettings.SanitizeBlenderPathInline | Plugins/BlendImporter/Source/BlendImporter/Private/BlendImporterSettings.cpp:122-136 | The in-place steps (cut after the first `.exe`, trim, strip quotes, trim, rewrite a trailing `-launcher.exe`) compute `SanitizedPath`, whose properties are the lemmas below. |
| ImporterSettings.BlendImporterSettings.constructor | Plugins/BlendImporter/Source/BlendImporter/Private/BlendImporterSettings.h:33-53 | Default settings: no path, run in background, fix materials, no debug, no factory startup, 15-second warning. |
| ImporterSettings.BlendImporterSettings.GetBlenderExecutable | Plugins/BlendImporter/Source/BlendImporter/Private/BlendImporterSettings.cpp:43-70 | Returns the configured path only when it ends with `blender.exe`, otherwise the empty path. |
| ImporterSettings.BlendImporterSettings.PostInitProperties | Plugins/BlendImporter/Source/BlendImporter/Private/BlendImporterSettings.cpp:97-114 | An empty path is replaced by the registry value when there is one, and the path is then sanitised. Nothing else changes. |
| ImporterSettings.BlendImporterSettings.PostEditChangeProperty | Plugins/BlendImporter/Source/BlendImporter/Private/BlendImporterSettings.cpp:116-120 | Editing sanitises the path and changes nothing else. |
| ImporterSettings.CutAtFirstExe | Plugins/BlendImporter/Source/BlendImporter/Private/BlendImporterSettings.cpp:124-125 | The cut keeps exactly the text up to and including the first case-insensitive `.exe`. Without one it keeps the first 3 characters, since `Find` gives -1. |
| ImporterSettings.PathWithoutExeRejected | Plugins/BlendImporter/Source/BlendImporter/Private/BlendImporterSettings.cpp:124-125 | A path without `.exe` sanitises to at most 3 characters, which the executable check rejects. |
| ImporterSettings.TrimKeepsExe | Plugins/BlendImporter/Source/BlendImporter/Private/BlendImporterSettings.cpp:127-129 | Trimming whitespace and quotes keeps a trailing `.exe`. |
| ImporterSettings.ReplaceAllEndsWithTo | Plugins/BlendImporter/Source/BlendImporter/Private/BlendImporterSettings.cpp:134 | When the pattern matches at the end and no earlier match overlaps it, the replaced string ends with the replacement. |
| ImporterSettings.LauncherOnlyOverlapIsLast | Plugins/BlendImporter/Source/BlendImporter/Private/BlendImporterSettings.cpp:131-134 | No `-launcher.exe` match overlaps a trailing one. |
| ImporterSettings.LauncherRewriteEndsWithExe | Plugins/BlendImporter/Source/BlendImporter/Private/BlendImporterSettings.cpp:131-135 | Rewriting a path that ends in `-launcher.exe` leaves it ending in `.exe`. |
| ImporterSettings.TrimmedEndsWithExe | Plugins/BlendImporter/Source/BlendImporter/Private/BlendImporterSettings.cpp:124-129 | When the input contains `.exe`, cutting and trimming leave it ending in `.exe`. |
| ImporterSettings.CutEndsWithExe | Plugins/BlendImporter/Source/BlendImporter/Private/BlendImporterSettings.cpp:124-125 | Cutting after a match of `.exe` gives a string ending in `.exe`. |
| ImporterSettings.SanitizedEndsWithExe | Plugins/BlendImporter/Source/BlendImporter/Private/BlendImporterSettings.cpp:124-135 | If the input contains `.exe`, the sanitised path ends with `.exe`. |
| ImporterSettings.FindExeAt | Plugins/BlendImporter/Source/BlendImporter/Private/BlendImporterSettings.cpp:124 | `Find` returns a position of `.exe` when no earlier position matches. |
| ImporterSettings.ReplaceLauncherOfInstallPath | Plugins/BlendImporter/Source/BlendImporter/Private/BlendImporterSettings.cpp:134 | For a path `n` holding no `.exe`, `n-launcher.exe` becomes `n.exe`. `n` may contain `-` and `.`. |
| ImporterSettings.RegistryCommandCut | Plugins/BlendImporter/Source/BlendImporter/Private/BlendImporterSettings.cpp:124-125 | The registry's open command `"<n>-launcher.exe" "%1"` is cut just after `.exe`, which drops the argument. `n` is any install path (`InstallPath`): not empty, not starting with whitespace or a quote, and without `.exe` of its own. Versioned folders such as `Blender 4.1` or `blender-4.1.0-windows-x64` are included. |
| ImporterSettings.RegistryCommandTrimmed | Plugins/BlendImporter/Source/BlendImporter/Private/BlendImporterSettings.cpp:127-129 | For any such install path, trimming then removes the leading quote. |
| ImporterSettings.RegistryCommandSanitised | Plugins/BlendImporter/Source/BlendImporter/Private/BlendImporterSettings.cpp:122-136 | For any such install path `n`, the registry command sanitises to `n.exe`, the `blender.exe` next to the launcher. |
| ImporterSettings.StandardInstallIsInstallPath | Plugins/BlendImporter/Source/BlendImporter/Private/BlendImporterSettings.cpp:97-114 | The folder of a standard install, `C:\Program Files\Blender Foundation\Blender 4.1\blender`, is such an install path. |
| ImporterSettings.StandardRegistryCommandSanitised | Plugins/BlendImporter/Source/BlendImporter/Private/BlendImporterSettings.cpp:97-136 | The open command a standard install registers sanitises to `C:\Program Files\Blender Foundation\Blender 4.1\blender.exe`. |
| ImporterSettings.DoubleLauncherFind | Plugins/BlendImporter/Source/BlendImporter/Private/BlendImporterSettings.cpp:124 | In `n-launcher-launcher.exe`, for an install path `n`, the first `.exe` is the final one. |
| ImporterSettings.DoubleLauncherTrimmed | Plugins/BlendImporter/Source/BlendImporter/Private/BlendImporterSettings.cpp:124-129 | For any install path `n`, `n-launcher-launcher.exe` passes the cut and trims unchanged. |
| ImporterSettings.DoubleLauncherRewrite | Plugins/BlendImporter/Source/BlendImporter/Private/BlendImporterSettings.cpp:134 | For any install path `n`, the rewrite replaces only the last `-launcher.exe` of `n-launcher-launcher.exe`. |
| ImporterSettings.LauncherRewrittenOnce | Plugins/BlendImporter/Source/BlendImporter/Private/BlendImporterSettings.cpp:131-135 | For any install path `n`, `n-launcher-launcher.exe` sanitises to `n-launcher.exe`, which still ends in `-launcher.exe`. The rewrite is applied once, not until the suffix disappears. |
| BlenderProcess.BackgroundFlagShown | Plugins/BlendImporter/Source/BlendImporter/Private/BlendAssetFactory.cpp:346-365 | The parameters start with `-noaudio --python-exit-code 1` and end in ` -b` iff background mode is on. |
| BlenderProcess.DebugFlagShown | Plugins/BlendImporter/Source/BlendImporter/Private/BlendAssetFactory.cpp:346-351 | ` -d` follows the fixed options iff debug mode is on. |
| BlenderProcess.FactoryFlagShown | Plugins/BlendImporter/Source/BlendImporter/Private/BlendAssetFactory.cpp:348-356 | ` --factory-startup` comes next iff factory-startup mode is on. |
| BlenderProcess.ParametersDetermineFlags | Plugins/BlendImporter/Source/BlendImporter/Private/BlendAssetFactory.cpp:346-365 | Different flag settings give different parameter strings. |
| BlenderProcess.ProcessParameters | Plugins/BlendImporter/Source/BlendImporter/Private/BlendAssetFactory.cpp:344-367 | The process arguments start with the flag parameters and end with ` -P "<plugin>/Scripts/<script>.py"`. |
| BlenderProcess.WaitForBlender | Plugins/BlendImporter/Source/BlendImporter/Private/BlendAssetFactory.cpp:386-416 | The polling loop computes `WaitSpec`. Past the deadline, "Yes" moves the deadline and "No" terminates. Output accumulates each turn, plus a final read when Blender exits. |
| BlenderProcess.RunningTurns | Plugins/BlendImporter/Source/BlendImporter/Private/BlendAssetFactory.cpp:389 | Counts the polls before the first one that finds Blender exited. |
| BlenderProcess.WaitOutput | Plugins/BlendImporter/Source/BlendImporter/Private/BlendAssetFactory.cpp:386-416 | Without termination, the output is every chunk read while Blender ran, plus the final read. With termination, some running turn got "No", and the output is the chunks before it. |
| BlenderProcess.PatientUserNeverTerminates | Plugins/BlendImporter/Source/BlendImporter/Private/BlendAssetFactory.cpp:391-399 | If the user always answers "Yes", Blender is never terminated and all of its output is collected. |
| BlenderProcess.PromptExitNeverAsks | Plugins/BlendImporter/Source/BlendImporter/Private/BlendAssetFactory.cpp:388-391 | If Blender exits before the first deadline, the user is never asked and nothing is terminated. |
| BlenderProcess.RunScriptOnBlendFile | Plugins/BlendImporter/Source/BlendImporter/Private/BlendAssetFactory.cpp:330-443 | The run's success, output and launched command are those of `RunSpec` for the validated executable and the settings' flags and duration. |
| BlenderProcess.RunFailures | Plugins/BlendImporter/Source/BlendImporter/Private/BlendAssetFactory.cpp:333-382 | An empty executable fails with nothing started. Success needs a pipe, a spawned process and the validated executable. A launch always carries the flag parameters. |
| BlenderProcess.ExitCodeIgnored | Plugins/BlendImporter/Source/BlendImporter/Private/BlendAssetFactory.cpp:418-422 | The exit code does not affect the result. |
| AnalysisParser.ParseLines | Plugins/BlendImporter/Source/BlendImporter/Private/BlendAssetFactory.cpp:453-484 | Parsing never reports a script failure: it ends with the analysis, or halts on an out-of-range field. |
| AnalysisParser.ParseAnalysisOutput | Plugins/BlendImporter/Source/BlendImporter/Private/BlendAssetFactory.cpp:453-484 | The loop over the output's non-empty `\n`-separated lines computes `ParseLines`: skips, `C`, `P` and `M` effects in line order. |
| AnalysisParser.HaltsIffShortMaterialLine | Plugins/BlendImporter/Source/BlendImporter/Private/BlendAssetFactory.cpp:459-479 | The parser halts iff some line is an `M` line with only two non-empty fields, where `Params[2]` is out of range. |
| AnalysisParser.LastCollectionLineWins | Plugins/BlendImporter/Source/BlendImporter/Private/BlendAssetFactory.cpp:467-470 | Without a `C` line the collections are unchanged. Otherwise they are the names of the last `C` line. |
| AnalysisParser.PackedIffPackedLine | Plugins/BlendImporter/Source/BlendImporter/Private/BlendAssetFactory.cpp:472-474 | The packed flag ends true iff it started true or some line is a `P` line. Nothing resets it. |
| AnalysisParser.AppliedWarning | Plugins/BlendImporter/Source/BlendImporter/Private/BlendAssetFactory.cpp:476-479 | Each line appends its warning text, which is empty except for `M` lines, to the material warnings. |
| AnalysisParser.WarningsAreConcatenated | Plugins/BlendImporter/Source/BlendImporter/Private/BlendAssetFactory.cpp:476-479 | The warnings are the initial text followed by the entries of the `M` lines, in order. |
| AnalysisParser.LonePackedTagSkipped | Plugins/BlendImporter/Source/BlendImporter/Private/BlendAssetFactory.cpp:458-474 | `P|` alone has one non-empty field and is skipped, while `P|True\r` marks the file packed. |
| AnalysisParser.CollectionLineEffect | Plugins/BlendImporter/Source/BlendImporter/Private/BlendAssetFactory.cpp:467-469 | A `C` line whose field, less its last two characters, is a comma join of non-empty names sets exactly those names. |
| AnalysisParser.BareNewlineLosesLastName | Plugins/BlendImporter/Source/BlendImporter/Private/BlendAssetFactory.cpp:467-469 | Without the `\r`, the two-character chop eats the last name's final letter; with it, the names come through. |
| AnalyseScript.GetLayerCollections | Plugins/BlendImporter/Scripts/blender_analyse.py:5-9 | The recursive walk appends exactly `Walk(current)` to the list it is given. |
| AnalyseScript.WalkListsVisibleDescendants | Plugins/BlendImporter/Scripts/blender_analyse.py:5-9 | The walk lists exactly the descendants that are neither excluded nor hidden. Hidden ones are still descended into. |
| AnalyseScript.WalkChildrenLists | Plugins/BlendImporter/Scripts/blender_analyse.py:6-9 | The same, for the children from position `i` on. |
| AnalyseScript.FindMaterialOutput | Plugins/BlendImporter/Scripts/blender_analyse.py:11-17 | Finds a node iff the material uses nodes and has an `OUTPUT_MATERIAL` node; what it finds is such a node of the material. |
| AnalyseScript.FindBsdfNode | Plugins/BlendImporter/Scripts/blender_analyse.py:19-35 | The search gives a Principled BSDF, or one of the three errors. It gives `NO_MATERIAL_OUTPUT` exactly when there is no output node. |
| AnalyseScript.SafeInputName | Plugins/BlendImporter/Scripts/blender_analyse.py:48 | Upper-cases each character and turns spaces into `_`, keeping the length. |
| AnalyseScript.CheckInput | Plugins/BlendImporter/Scripts/blender_analyse.py:47-73 | One input's check yields only the three documented error codes for that input. It is "unlinked" exactly when the socket exists and has no link. |
| AnalyseScript.Put | Plugins/BlendImporter/Scripts/blender_analyse.py:72-73 | Dictionary assignment keeps key order, appends a new key at the end, and stores the value. |
| AnalyseScript.CheckMaterial | Plugins/BlendImporter/Scripts/blender_analyse.py:37-73 | The loop over the input names computes `CheckMaterialSpec`. |
| AnalyseScript.CheckInputsRaises | Plugins/BlendImporter/Scripts/blender_analyse.py:46-73 | The input loop raises iff some input's check raises (a missing socket or a texture without an image). |
| AnalyseScript.CheckInputsErrors | Plugins/BlendImporter/Scripts/blender_analyse.py:46-69 | When no check raises, the recorded errors are the earlier ones followed by each input's error, in visiting order. |
| AnalyseScript.ErrorCodesAppend | Plugins/BlendImporter/Scripts/blender_analyse.py:46-69 | The errors of two runs of inputs are concatenated. |
| AnalyseScript.ErrorCodesPermutation | Plugins/BlendImporter/Scripts/blender_analyse.py:91 | Visiting the same input names in another order gives the same errors as a multiset. |
| AnalyseScript.SomeInputRaisesPermutation | Plugins/BlendImporter/Scripts/blender_analyse.py:91 | Whether some input raises does not depend on visiting order. |
| AnalyseScript.InputLoopOrderIrrelevant | Plugins/BlendImporter/Scripts/blender_analyse.py:91 | For any two orders of the set `checkInputNames`, the loop raises in both or neither, and otherwise records the same error multiset. |
| AnalyseScript.CheckOrderIrrelevant | Plugins/BlendImporter/Scripts/blender_analyse.py:37-73 | The same holds for the whole material check. |
| AnalyseScript.NoOutputOnlyError | Plugins/BlendImporter/Scripts/blender_analyse.py:11-44 | A material without nodes or without an output node gets exactly `NO_MATERIAL_OUTPUT`, no images and no input checks. |
| AnalyseScript.TextureReachedDirectly | Plugins/BlendImporter/Scripts/blender_analyse.py:53-73 | A recorded image comes from a `TEX_IMAGE` linked to the input, or for Normal from one feeding a linked `NORMAL_MAP` Color input. |
| AnalyseScript.CheckMaterials | Plugins/BlendImporter/Scripts/blender_analyse.py:75-80 | The loop computes `CheckMaterialsSpec`: every material except `Dots Stroke`, in order, stopping at an exception. |
| AnalyseScript.Names | Plugins/BlendImporter/Scripts/blender_analyse.py:87-88 | The names of the listed collections, in order. |
| AnalyseScript.BuildCollectionLine | Plugins/BlendImporter/Scripts/blender_analyse.py:86-89 | The `+=` loop builds `C|` followed by each name and a `,`. |
| AnalyseScript.BuildMaterialLine | Plugins/BlendImporter/Scripts/blender_analyse.py:105-107 | The `+=` loop builds `M|<name>|` followed by each error and a `,`. |
| AnalyseScript.FindPacked | Plugins/BlendImporter/Scripts/blender_analyse.py:99-102 | The image loop finds a packed flag iff some image of the entry is packed. |
| AnalyseScript.ReportMaterials | Plugins/BlendImporter/Scripts/blender_analyse.py:96-108 | The main loop prints one `M` line per entry with errors, in entry order, and sets `hasPacked` iff some entry has a packed image. |
| AnalyseScript.RunAnalysis | Plugins/BlendImporter/Scripts/blender_analyse.py:83-113 | The script prints the collection line, then, unless a check raised, the material lines, `P|True` when something is packed, and `Analysis Complete`. |
| AnalysisProtocol.WithCarriageReturn | Plugins/BlendImporter/Scripts/blender_analyse.py:89 | Each printed line reaches the importer followed by `\r`. |
| AnalysisProtocol.ScriptOutputIsJoin | Plugins/BlendImporter/Scripts/blender_analyse.py:89 | The output stream is the `\r`-terminated lines joined by `\n`, with a final `\n`. |
| AnalysisProtocol.RemoveEmptyTrailing | Plugins/BlendImporter/Source/BlendImporter/Private/BlendAssetFactory.cpp:454 | Culling removes only the empty piece after the final newline. |
| AnalysisProtocol.OutputLinesOfScript | Plugins/BlendImporter/Source/BlendImporter/Private/BlendAssetFactory.cpp:454 | Splitting the stream gives back each newline-free printed line with its `\r`. |
| AnalysisProtocol.TerminatedIsJoin | Plugins/BlendImporter/Scripts/blender_analyse.py:87-88 | A non-empty list with a `,` after each item is the comma join plus one `,`. |
| AnalysisProtocol.NoCharInTerminated | Plugins/BlendImporter/Scripts/blender_analyse.py:87-88 | Terminating names with `,` adds no other character: a `|` or a newline absent from every name stays absent. |
| AnalysisProtocol.LineWithoutBarSkipped | Plugins/BlendImporter/Source/BlendImporter/Private/BlendAssetFactory.cpp:458-460 | A line without `|` has one field and is skipped. |
| AnalysisProtocol.CollectionLineRead | Plugins/BlendImporter/Scripts/blender_analyse.py:86-89 | The printed collection line of clean names (non-empty, without `,`, `|` or a newline), with its `\r`, sets exactly those names. |
| AnalysisProtocol.ReplaceCommas | Plugins/BlendImporter/Source/BlendImporter/Private/BlendAssetFactory.cpp:478 | Replacing `,` with `, ` in a comma join of comma-free codes gives their `, ` join. |
| AnalysisProtocol.MaterialLineRead | Plugins/BlendImporter/Scripts/blender_analyse.py:105-108 | A printed `M` line of a clean name and error codes appends `\t<name>: <e1>, <e2>…\n`. |
| AnalysisProtocol.PackedLineRead | Plugins/BlendImporter/Scripts/blender_analyse.py:111 | `P|True` with its `\r` marks the file packed. |
| AnalysisProtocol.ParseLinesAppend | Plugins/BlendImporter/Source/BlendImporter/Private/BlendAssetFactory.cpp:455-482 | Parsing two runs of lines is parsing the second from the state the first leaves. |
| AnalysisProtocol.MaterialLinesRead | Plugins/BlendImporter/Scripts/blender_analyse.py:97-108 | All the printed `M` lines together append the expected warning of every entry with errors, and leave the rest unchanged. |
| AnalysisProtocol.SafeInputNameCarried | Plugins/BlendImporter/Scripts/blender_analyse.py:48 | Upper-casing an input name keeps it a valid error code (letters, digits, `_`, space). |
| AnalysisProtocol.CandidateCodesCarried | Plugins/BlendImporter/Scripts/blender_analyse.py:56-69 | The two composed error codes are valid codes. |
| AnalysisProtocol.InputCodeCarried | Plugins/BlendImporter/Scripts/blender_analyse.py:50-69 | Any error an input check records is a valid code. |
| AnalysisProtocol.ErrorCodesCarried | Plugins/BlendImporter/Scripts/blender_analyse.py:46-69 | Every error of the input loop is a valid code. |
| AnalysisProtocol.ReportCodesCarried | Plugins/BlendImporter/Scripts/blender_analyse.py:37-73 | Every error of a material's report is a valid code. |
| AnalysisProtocol.CheckMaterialsCarried | Plugins/BlendImporter/Scripts/blender_analyse.py:75-80 | Checking materials with clean names keeps the output well formed for the parser. |
| AnalysisProtocol.CompleteLineSkipped | Plugins/BlendImporter/Scripts/blender_analyse.py:113 | `Analysis Complete` is skipped by the parser. |
| AnalysisProtocol.TrailerRead | Plugins/BlendImporter/Scripts/blender_analyse.py:110-113 | The closing lines set the packed flag to exactly whether `P|True` was printed. |
| AnalysisProtocol.CompleteOutputRead | Plugins/BlendImporter/Scripts/blender_analyse.py:86-113 | A complete, well-formed output has no line breaks inside its lines and parses to its names, the warning of every material with errors, and its packed flag. |
| AnalysisProtocol.CollectionLineHead | Plugins/BlendImporter/Scripts/blender_analyse.py:86-89 | The collection line alone parses to the names, no warnings, not packed. |
| AnalysisProtocol.BannerLinesSkipped | Plugins/BlendImporter/Source/BlendImporter/Private/BlendAssetFactory.cpp:455-460 | Lines with no field separator (the bar character) and no line break, such as Blender's banner, `Read blend: …` and `Blender quit`, leave the parse state unchanged. |
| AnalysisProtocol.AnalysisLinesRead | Plugins/BlendImporter/Scripts/blender_analyse.py:86-113 | The script's printed lines have no line breaks inside them and parse back to the visible collections, and, unless a check raised, to the warnings and the packed flag. |
| AnalysisProtocol.AnalysisReadBack | Plugins/BlendImporter/Source/BlendImporter/Private/BlendAssetFactory.cpp:453-484 | End to end, on the whole stream (Blender's own lines, then the script's, then Blender's again), under CRLF line ends and clean names: the importer reads back the visible collections, and, unless a check raised, the warnings and whether any image is packed. |
| BlendData.InputIndex | Plugins/BlendImporter/Scripts/blender_analyse.py:25 | `node.inputs[name]` finds the first socket with that name, or reports that none has it. |
| BlendData.InputIndexSameNames | Plugins/BlendImporter/Scripts/blender_export.py:39-50 | Socket lookup depends only on the socket names, so it survives relinking. |
| BlendData.Input | Plugins/BlendImporter/Scripts/blender_analyse.py:25 | The looked-up socket is one of the node's sockets with that name. There is none exactly when Python would raise `KeyError`. |
| BlendData.FirstOfKind | Plugins/BlendImporter/Scripts/blender_analyse.py:15-17 | The first node of the given type, or none of that type. |
| ExportScript.GetEnv | Plugins/BlendImporter/Scripts/blender_export.py:54 | `os.getenv` gives the variable's value when it is set, and `None` otherwise. |
| ExportScript.DecodeEnvironment | Plugins/BlendImporter/Scripts/blender_export.py:54-66 | Each flag is true iff its variable is exactly `true`. An unset output file falls back to the blend path plus `.fbx`. The collections are `None` iff unset or empty, and otherwise a split whose join is the variable. |
| ExportScript.JoinEmpty | Plugins/BlendImporter/Scripts/blender_export.py:63-64 | A comma join is empty iff the list is empty or a single empty name. |
| ExportScript.ExportVariablesDecoded | Plugins/BlendImporter/Scripts/blender_export.py:54-66 | The script decodes the variables the factory sets back into the factory's values. An empty collection list means "no list". |
| ExportScript.FindBsdfNode | Plugins/BlendImporter/Scripts/blender_export.py:7-15 | The first Principled BSDF of a node material, or none exactly when there is no such node or nodes are off. |
| ExportScript.FindLinkedTextureImageNode | Plugins/BlendImporter/Scripts/blender_export.py:17-30 | What the search returns is always an image texture node. |
| ExportScript.SearchFollowsGivenInput | Plugins/BlendImporter/Scripts/blender_export.py:20-30 | From a non-texture node with a given input, the search follows that input's first link, or gives `None` when it is unlinked. |
| ExportScript.ExportFindsAnalysedTexture | Plugins/BlendImporter/Scripts/blender_export.py:17-30 | Where the analysis found a texture for an input, the export's search finds the same image. |
| ExportScript.Relink | Plugins/BlendImporter/Scripts/blender_export.py:39 | `links.new` succeeds iff the texture has a Color output and the target socket exists; the node keeps its type and sockets. |
| ExportScript.RelinkEffect | Plugins/BlendImporter/Scripts/blender_export.py:39 | After `links.new`, the target socket's links are exactly the new one and every other socket is unchanged. |
| ExportScript.LinkTexture | Plugins/BlendImporter/Scripts/blender_export.py:37-44 | One "find texture, then link it" step raises exactly when a socket it needs is missing. |
| ExportScript.LinkTextureEffect | Plugins/BlendImporter/Scripts/blender_export.py:37-44 | Such a step rewires only the target socket, and only when a texture was found. |
| ExportScript.MetallicStep | Plugins/BlendImporter/Scripts/blender_export.py:47-50 | The Metallic step keeps the node's type and socket count. |
| ExportScript.MetallicStepEffect | Plugins/BlendImporter/Scripts/blender_export.py:47-50 | When a Metallic texture is found, it is wired into Roughness and Metallic's first link is removed. The step raises exactly when a needed socket is missing. |
| ExportScript.FixBsdf | Plugins/BlendImporter/Scripts/blender_export.py:36-50 | Fixing a BSDF keeps its type and socket count. |
| ExportScript.FixBsdfEffect | Plugins/BlendImporter/Scripts/blender_export.py:36-50 | With the needed sockets present: Base Color gets its texture directly, Specular gets the Roughness texture, Roughness gets the Metallic texture, Metallic loses its first link, and everything else is unchanged. |
| ExportScript.SameNamesSameInputs | Plugins/BlendImporter/Scripts/blender_export.py:39-50 | Rewiring never changes which socket a name refers to. |
| ExportScript.SameLookup | Plugins/BlendImporter/Scripts/blender_export.py:37-47 | Rewiring one socket leaves the lookups and texture searches of the others unchanged. |
| ExportScript.BaseColorStep | Plugins/BlendImporter/Scripts/blender_export.py:37-39 | After the Base Color step, Roughness, Specular and Metallic still read as before. |
| ExportScript.SpecularStep | Plugins/BlendImporter/Scripts/blender_export.py:42-44 | After the Specular step, Roughness and Metallic still read as before. |
| ExportScript.MetallicLinked | Plugins/BlendImporter/Scripts/blender_export.py:47-50 | When a Metallic texture is found, the Metallic input has a link to remove. |
| ExportScript.MissingSpecularRaises | Plugins/BlendImporter/Scripts/blender_export.py:42-44 | A Roughness texture with no Specular socket raises `KeyError` after the Base Color step has been applied. |
| ExportScript.FixMaterial | Plugins/BlendImporter/Scripts/blender_export.py:33-50 | Fixing a material keeps its node count. |
| ExportScript.FixMaterialShape | Plugins/BlendImporter/Scripts/blender_export.py:33-50 | Only the first Principled BSDF changes, and only its links. A material without one is untouched. |
| ExportScript.FixMaterialsSpec | Plugins/BlendImporter/Scripts/blender_export.py:32-50 | The fixed material list has the original length. |
| ExportScript.FixMaterialsErrors | Plugins/BlendImporter/Scripts/blender_export.py:32-50 | `FixMaterials` raises iff some material's fix raises, and then with that material's exception. |
| ExportScript.FixMaterialsClean | Plugins/BlendImporter/Scripts/blender_export.py:32-50 | Without exceptions, every material is replaced by its fixed form. |
| ExportScript.FixMaterialsFails | Plugins/BlendImporter/Scripts/blender_export.py:32-50 | An exception at material `i` keeps the fixes before it, the partial fix of `i`, and the untouched rest. |
| ExportScript.CollectionIndex | Plugins/BlendImporter/Scripts/blender_export.py:84 | `bpy.data.collections[name]` finds a collection of that name, or none exists, which raises `KeyError`. |
| ExportScript.ResolvedPrefix | Plugins/BlendImporter/Scripts/blender_export.py:83-86 | The names processed before a `KeyError`: the longest prefix whose names all exist. |
| ExportScript.ResolvedPrefixAt | Plugins/BlendImporter/Scripts/blender_export.py:83-86 | The prefix ends at the first missing name. |
| ExportScript.InNamedNext | Plugins/BlendImporter/Scripts/blender_export.py:83-84 | Membership in the first `i+1` named collections adds the `i`-th to the first `i`. |
| ExportScript.SelectedObjects | Plugins/BlendImporter/Scripts/blender_export.py:82-90 | Selection changes only the selected flags, never unselects, and selects exactly the visible objects of the chosen collections. |
| ExportScript.NoListSelectsVisible | Plugins/BlendImporter/Scripts/blender_export.py:87-90 | Without a collection list, an object ends selected iff it was selected or is visible. |
| ExportScript.ListSelectsMembers | Plugins/BlendImporter/Scripts/blender_export.py:82-86 | With a list of existing collections, an object ends selected iff it was selected or is visible and in one of them. |
| ExportScript.EmptyDialogListExportsVisible | Plugins/BlendImporter/Scripts/blender_export.py:62-90 | When the factory sends an empty collection list, the script selects every visible object. |
| ExportScript.ResetObjects | Plugins/BlendImporter/Scripts/blender_export.py:77-80 | Every object gets the origin location and the identity world matrix, and keeps its name, visibility and selection. |
| ExportScript.ResetThenSelect | Plugins/BlendImporter/Scripts/blender_export.py:77-90 | Resetting is idempotent and does not change which objects get selected. |
| ExportScript.ExportCall | Plugins/BlendImporter/Scripts/blender_export.py:92-113 | The FBX call writes to the decoded output file. With unpack, `path_mode` is `COPY` and textures are embedded; otherwise `AUTO` and not embedded. |
| ExportScript.Scene.constructor | Plugins/BlendImporter/Scripts/blender_export.py:33-84 | The scene holds the given materials, objects and collections, and is `Valid()`: collections refer only to the scene's objects. |
| ExportScript.Scene.FixMaterials | Plugins/BlendImporter/Scripts/blender_export.py:32-50 | The in-place loop leaves the materials and exception of `FixMaterialsSpec` and touches no object. |
| ExportScript.Scene.ResetTransforms | Plugins/BlendImporter/Scripts/blender_export.py:77-80 | The loop leaves the objects as `ResetObjects` of the old ones. |
| ExportScript.Scene.SelectForExport | Plugins/BlendImporter/Scripts/blender_export.py:82-90 | Selection leaves the objects as `SelectedObjects`. It raises `KeyError` exactly when a listed collection is missing. |
| ExportScript.Scene.SelectVisible | Plugins/BlendImporter/Scripts/blender_export.py:88-90 | Every visible object becomes selected; nothing else changes. |
| ExportScript.Scene.SelectCollections | Plugins/BlendImporter/Scripts/blender_export.py:83-86 | The visible members of the collections processed before any `KeyError` are selected. The loop raises iff some name is missing. |
| ExportScript.Scene.SelectMembers | Plugins/BlendImporter/Scripts/blender_export.py:84-86 | The visible objects of one collection become selected. |
| ExportScript.Scene.RunExport | Plugins/BlendImporter/Scripts/blender_export.py:54-113 | The whole script: it optionally fixes materials, where an exception stops it with the objects untouched. It optionally resets transforms, then selects, and then either calls the exporter with `ExportCall` or raises `KeyError`. |
| ImportDialog.KeptFromPreviousIsFilter | Plugins/BlendImporter/Source/BlendImporter/Private/SBlendAssetImportDialog.cpp:239-279 | Keeping the discovered collections found in the previous list, ignoring case, is an order-preserving filter of the discovered list. |
| ImportDialog.PreselectionWithOverlap | Plugins/BlendImporter/Source/BlendImporter/Private/SBlendAssetImportDialog.cpp:229-270 | If some discovered collection was enabled before, exactly the discovered ones found in the previous list are enabled, in discovered order. |
| ImportDialog.PreselectionWithoutOverlap | Plugins/BlendImporter/Source/BlendImporter/Private/SBlendAssetImportDialog.cpp:263-279 | If none overlap, every discovered collection is enabled. |
| ImportDialog.PreselectionEmptyIffNoCollections | Plugins/BlendImporter/Source/BlendImporter/Private/SBlendAssetImportDialog.cpp:227-292 | The preselection is empty iff no collections were discovered, and it is always a subsequence of them. |
| ImportDialog.ValidOnly | Plugins/BlendImporter/Source/BlendImporter/Private/SBlendAssetImportDialog.cpp:320-330 | Only check-box events for existing boxes are kept, every kept event is one of the user's, and a valid event list is kept whole. |
| ImportDialog.FindSimilar | Plugins/BlendImporter/Source/BlendImporter/Private/SBlendAssetImportDialog.cpp:229-237 | The first loop sets `bSimilarCollections` iff some discovered collection is in the previous list. |
| ImportDialog.CheckedCollections | Plugins/BlendImporter/Source/BlendImporter/Private/SBlendAssetImportDialog.cpp:239-280 | The second loop checks the previously enabled collections when there was overlap, and all of them otherwise. |
| ImportDialog.BlendAssetImportDialog.constructor | Plugins/BlendImporter/Source/BlendImporter/Private/SBlendAssetImportDialog.cpp:26-293 | After construction the dialog is open with the previous pivot selected, the preselection enabled and Cancel as the response; the material warning shows as asked, and the "no collections" note appears iff none were found. |
| ImportDialog.BlendAssetImportDialog.OnSelectionChanged | Plugins/BlendImporter/Source/BlendImporter/Private/SBlendAssetImportDialog.cpp:124-131 | The pivot combo's title becomes the item. Object pivot is set iff the item equals `Object`, ignoring case. Nothing else changes. |
| ImportDialog.BlendAssetImportDialog.OnCheckStateCollectionChanged | Plugins/BlendImporter/Source/BlendImporter/Private/SBlendAssetImportDialog.cpp:320-330 | Checking appends the collection, even if it is already there. Unchecking removes every entry equal to it, ignoring case. Nothing else changes. |
| ImportDialog.BlendAssetImportDialog.OnButtonClick | Plugins/BlendImporter/Source/BlendImporter/Private/SBlendAssetImportDialog.cpp:312-318 | A button sets the response to its ID and closes the dialog. |
| ImportDialog.BlendAssetImportDialog.ShowModal | Plugins/BlendImporter/Source/BlendImporter/Private/SBlendAssetImportDialog.cpp:296-300 | The modal loop applies the user's events in order and returns the response. |
| ImportDialog.NoButtonKeepsResponse | Plugins/BlendImporter/Source/BlendImporter/Private/SBlendAssetImportDialog.h:28 | Without a button click the dialog stays open and keeps its response, Cancel after construction. |
| ImportDialog.FirstButtonDecides | Plugins/BlendImporter/Source/BlendImporter/Private/SBlendAssetImportDialog.cpp:312-318 | The first button clicked decides the response and closes the dialog. |
| ImportDialog.PivotFollowsLastSelection | Plugins/BlendImporter/Source/BlendImporter/Private/SBlendAssetImportDialog.cpp:124-131 | After selecting an item, object pivot is on iff the item is `Object`, ignoring case. |
| ImportDialog.CheckThenUncheck | Plugins/BlendImporter/Source/BlendImporter/Private/SBlendAssetImportDialog.cpp:320-330 | Checking then unchecking a box leaves no entry of that collection. |
| ImportDialog.CheckTwiceDuplicates | Plugins/BlendImporter/Source/BlendImporter/Private/SBlendAssetImportDialog.cpp:322-325 | Checking a box twice appends the collection twice. |
| AssetFactory.LastSeparator | Plugins/BlendImporter/Source/BlendImporter/Private/BlendAssetFactory.cpp:492 | The position of the last `/` or `\`, or -1. |
| AssetFactory.LastDot | Plugins/BlendImporter/Source/BlendImporter/Private/BlendAssetFactory.cpp:547 | The position of the last `.`, or -1. |
| AssetFactory.FilenameParts | Plugins/BlendImporter/Source/BlendImporter/Private/BlendAssetFactory.cpp:492 | The clean file name is the separator-free tail of the path. It is base + `.` + extension when it has a dot, and the extension never contains a dot. |
| AssetFactory.CleanFilenameOfJoined | Plugins/BlendImporter/Source/BlendImporter/Private/BlendAssetFactory.cpp:492 | The clean file name of `dir/name` is `name`. |
| AssetFactory.LastDotBeforeExtension | Plugins/BlendImporter/Source/BlendImporter/Private/BlendAssetFactory.cpp:547 | In `name.ext` with a dot-free extension, the last dot is the one before it. |
| AssetFactory.NameAndExtension | Plugins/BlendImporter/Source/BlendImporter/Private/BlendAssetFactory.cpp:492 | `GetBaseFilename` and `GetExtension` of `dir/name.ext` are `name` and `ext`. |
| AssetFactory.SameNameSameOutput | Plugins/BlendImporter/Source/BlendImporter/Private/BlendAssetFactory.cpp:491-492 | Files of the same name in different folders export to the same FBX path. |
| AssetFactory.RepeatedExportSkipped | Plugins/BlendImporter/Source/BlendImporter/Private/BlendAssetFactory.cpp:496-517 | Right after an export of a file, the same file with the same time stamp and hash hits the cache, whatever the options, and leaves it unchanged. |
| AssetFactory.ChangedFileExported | Plugins/BlendImporter/Source/BlendImporter/Private/BlendAssetFactory.cpp:499-516 | A new time stamp or hash misses the cache, and the cache then records the new time stamp. |
| AssetFactory.BlendFileAnalyse | Plugins/BlendImporter/Source/BlendImporter/Private/BlendAssetFactory.cpp:445-485 | Fails when the analysis run fails, and otherwise parses its output from an empty analysis (`AnalysisOf`). |
| AssetFactory.AnalysedWarnings | Plugins/BlendImporter/Source/BlendImporter/Private/BlendAssetFactory.cpp:445-485 | A successful analysis's warnings are exactly the `M` line entries of the script's output, in order. |
| AssetFactory.BlendAssetFactory.constructor | Plugins/BlendImporter/Source/BlendImporter/Private/BlendAssetFactory.h:66-71 | A new factory holds the shared options and an empty cache. |
| AssetFactory.BlendAssetFactory.BlendFileExport | Plugins/BlendImporter/Source/BlendImporter/Private/BlendAssetFactory.cpp:487-541 | The output is temp dir + base name + `.fbx`. On a cache hit (same name ignoring case, time stamp and hash) it succeeds without running Blender. Otherwise it overwrites the cache first, sets the five variables, and succeeds iff the script ran to completion and the FBX exists. |
| AssetFactory.BlendAssetFactory.ChooseOptions | Plugins/BlendImporter/Source/BlendImporter/Private/BlendAssetFactory.cpp:161-177 | The dialog starts from the current options; Cancel leaves them untouched, otherwise they become the pivot and collections the dialog ends with. |
| AssetFactory.BlendAssetFactory.ExportAndImport | Plugins/BlendImporter/Source/BlendImporter/Private/BlendAssetFactory.cpp:179-236 | A failed export ends the import; otherwise the FBX output is imported, and an imported object carries the options text. The cache is updated as the export says. |
| AssetFactory.BlendAssetFactory.FactoryCreateFile | Plugins/BlendImporter/Source/BlendImporter/Private/BlendAssetFactory.cpp:99-236 | A failed or halted analysis ends the import. Options decoded from the asset's metadata are used without the dialog; otherwise the dialog's Cancel ends the import and its choice is exported. The outcome is then export failure, an imported object carrying the options text, or nothing imported. The message log opens iff the analysis found warnings or packed data and no asset is being replaced. The cache changes only when the export is reached. |
| AssetFactory.ReimportReusesOptions | Plugins/BlendImporter/Source/BlendImporter/Private/BlendAssetFactory.cpp:107-177 | Reimporting an asset whose metadata an import wrote skips the dialog and exports with the recorded pivot and collections. |
| AssetFactory.ReimportWithoutCollections | Plugins/BlendImporter/Source/BlendImporter/Private/BlendAssetFactory.cpp:107-177 | Recorded options with no collections keep the current collection list on reimport. |
| AssetFactory.ClosingDialogCancels | Plugins/BlendImporter/Source/BlendImporter/Private/BlendAssetFactory.cpp:161-173 | Closing the dialog without a button press cancels the import. |
| AssetFactory.DialogOkExports | Plugins/BlendImporter/Source/BlendImporter/Private/BlendAssetFactory.cpp:161-177 | When Ok is the first button pressed, the export uses the pivot and collections the dialog ends with. |
| AssetFactory.CanReimportBlendAsset | Plugins/BlendImporter/Source/BlendImporter/Private/BlendAssetFactory.cpp:543-556 | Without import data reimport is offered with no new files. With import data it is offered iff the first source file (or "" for none) has the extension `blend`, ignoring case. A refusal adds no files. An accepted asset's source files are appended. |
| AssetFactory.BlendSourceReimportable | Plugins/BlendImporter/Source/BlendImporter/Private/BlendAssetFactory.cpp:547-553 | A first source file with extension `blend`, in any letter case, makes the asset reimportable. |
| AssetFactory.OtherSourcesRefused | Plugins/BlendImporter/Source/BlendImporter/Private/BlendAssetFactory.cpp:547-551 | A `.blend1` backup, or an empty source list, is refused. |

## Left out

- Slate layout and styling of the dialog, `EditorAddModalWindow`, and message dialogs. The user's answers and actions are inputs.
- Process creation, pipes, `Sleep` and the clock in `RunScriptOnBlendFile`. What each turn of the loop observes is an input, including the clock as a real number.
- `GetBlenderExecutable`'s offer to open the project settings. It is UI; only the returned path is modelled.
- The Windows registry read in `PostInitProperties`. Its result is a parameter.
- MD5 hashing, file time stamps, `FPaths::FileExists`, `ConvertRelativePathToFull` and the temp-directory lookup. They are opaque values.
- Setting environment variables. `BlendFileExport` returns the variables as a map, and the export script reads that map.
- The FBX import through `UFbxFactory`, `AssetImportData` updates, metadata `SaveMetaData`/`LoadMetaData` storage, `ImportedAnimations`, the reimport dispatch by asset class, `SetReimportPaths`, `GetPriority`, `ConfigureProperties`, `CleanUp` and `AssetAddedEvent`. They belong to the engine's object model. Whether the import produced an object is an input of `FactoryCreateFile`.
- BlendImporter.cpp: module start-up, menus and `OpenFileInBlender`. It is engine glue.
- The log and message-log text. Only whether the log is opened is modelled.
- Blender's Python API itself: `export_scene.fbx`, `quit_blender`, `visible_get` (a field of each object) and `bpy.data`. The scenes the scripts see are datatypes.
- The export script's diagnostic `print`s and the fixed FBX options other than `path_mode` and `embed_textures`.
- Parent relations. Setting `matrix_world` is modelled as a reset per object, without the effect on children.
- Node links hold their source node by value, so a node graph is a tree. A node reached along two paths is two copies, and relinking the BSDF does not update the copies other links hold.
- `FString` case folding is ASCII only.
- UnrealString.IsWhitespace: ASCII whitespace only; `FChar::IsWhitespace` also accepts non-ASCII spaces such as U+3000.
- Python's own traceback output on an exception. An exception ends the script with its lines so far.
- ExportScript.FindLinkedTextureImageNode: its contract states only that what it returns is an image texture node; the path it follows is stated by `SearchFollowsGivenInput` and `ExportFindsAnalysedTexture`.
