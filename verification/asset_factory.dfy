/**
 * UBlendAssetFactory: the export-skip cache of BlendFileExport, the
 * control flow of FactoryCreateFile (metadata, analysis, dialog, export)
 * and the reimport checks.  The file system, Blender runs and the FBX
 * import are observations passed in by the caller.
 */
module AssetFactory {
  import opened Wrappers
  import opened UnrealString
  import ImportOptions
  import ImporterSettings
  import BlenderProcess
  import AnalysisParser
  import ImportDialog

  /** FMD5Hash: a digest, or the invalid hash of a file that could not be read. */
  datatype Md5Hash = InvalidHash | Digest(bytes: seq<bv8>)

  /** What the platform reports about the file being imported. */
  datatype FileFacts = FileFacts(
    fullPath: string,      // ConvertRelativePathToFull of the file name
    pluginDir: string,     // the plugin's base directory
    userTempDir: string,   // the full path of the user's temp directory, ending in a separator
    timeStamp: int,        // the file's time stamp, in ticks
    hash: Md5Hash)

  const AnalyseScript := "blender_analyse"
  const ExportScript := "blender_export"
  const FbxExtension := ".fbx"

  // ---------------------------------------------------------------------
  // FPaths helpers
  // ---------------------------------------------------------------------

  predicate IsPathSeparator(c: char) { c == '/' || c == '\\' }

  /** The index of the last character satisfying the separator test, or -1. */
  function LastSeparator(s: string): (i: int)
    ensures -1 <= i < |s|
    ensures i >= 0 ==> IsPathSeparator(s[i])
    ensures forall k :: i < k < |s| ==> !IsPathSeparator(s[k])
  {
    if |s| == 0 then -1
    else if IsPathSeparator(s[|s| - 1]) then |s| - 1
    else LastSeparator(s[..|s| - 1])
  }

  /** The index of the last '.', or -1. */
  function LastDot(s: string): (i: int)
    ensures -1 <= i < |s|
    ensures i >= 0 ==> s[i] == '.'
    ensures forall k :: i < k < |s| ==> s[k] != '.'
  {
    if |s| == 0 then -1
    else if s[|s| - 1] == '.' then |s| - 1
    else LastDot(s[..|s| - 1])
  }

  /** FPaths::GetCleanFilename: what follows the last path separator. */
  function CleanFilename(path: string): string {
    path[LastSeparator(path) + 1..]
  }

  /** FPaths::GetBaseFilename: the clean file name without its last extension. */
  function BaseFilename(path: string): string {
    var clean := CleanFilename(path);
    var dot := LastDot(clean);
    if dot == -1 then clean else clean[..dot]
  }

  /** FPaths::GetExtension without the dot: what follows the clean name's last '.', or "". */
  function Extension(path: string): string {
    var clean := CleanFilename(path);
    var dot := LastDot(clean);
    if dot == -1 then "" else clean[dot + 1..]
  }

  predicate PlainFileName(name: string) {
    forall k :: 0 <= k < |name| ==> !IsPathSeparator(name[k])
  }

  /**
   * The clean file name has no separator and ends the path; it is the base
   * name, a dot and the extension, or just the base name when it has no dot.
   */
  lemma FilenameParts(path: string)
    ensures PlainFileName(CleanFilename(path)) && path == path[..|path| - |CleanFilename(path)|] + CleanFilename(path)
    ensures '.' !in Extension(path)
    ensures var clean := CleanFilename(path);
            if '.' in clean then clean == BaseFilename(path) + "." + Extension(path)
            else BaseFilename(path) == clean && Extension(path) == ""
  {
    var clean := CleanFilename(path);
    var dot := LastDot(clean);
    if dot != -1 {
      assert clean == clean[..dot] + "." + clean[dot + 1..];
      var ext := clean[dot + 1..];
      forall j | 0 <= j < |ext|
        ensures ext[j] != '.'
      {
        assert ext[j] == clean[dot + 1 + j];
      }
    }
  }

  /** A path ending in a separator and a plain name has that name as its clean file name. */
  lemma CleanFilenameOfJoined(dir: string, name: string)
    requires PlainFileName(name)
    ensures CleanFilename(dir + "/" + name) == name
  {
    var p := dir + "/" + name;
    var i := LastSeparator(p);
    assert IsPathSeparator(p[|dir|]);
    assert p[|dir| + 1..] == name;
  }

  /** A '.' with no '.' after it is the last dot. */
  lemma LastDotAt(s: string, i: nat)
    requires i < |s| && s[i] == '.' && forall k :: i < k < |s| ==> s[k] != '.'
    ensures LastDot(s) == i
  {
    var d := LastDot(s);
    assert d >= 0 ==> s[d] == '.';
  }

  /** In "<name>.<ext>" with no '.' in the extension, the last dot is the one after the name. */
  lemma LastDotBeforeExtension(name: string, ext: string)
    requires '.' !in ext
    ensures LastDot(name + "." + ext) == |name|
  {
    var pre := name + ".";
    var clean := pre + ext;
    assert |pre| == |name| + 1 && pre[|name|] == '.';
    assert clean[|name|] == '.';
    forall k | |pre| <= k < |clean|
      ensures clean[k] != '.'
    {
      assert clean[k] == ext[k - |pre|];
    }
    LastDotAt(clean, |name|);
  }

  /**
   * "<dir>/<name>.<ext>" with a plain name and an extension free of '.'
   * has base file name <name> and extension <ext>.
   */
  lemma NameAndExtension(dir: string, name: string, ext: string)
    requires PlainFileName(name + "." + ext) && '.' !in ext
    ensures BaseFilename(dir + "/" + name + "." + ext) == name
    ensures Extension(dir + "/" + name + "." + ext) == ext
  {
    var clean := name + "." + ext;
    assert dir + "/" + name + "." + ext == dir + "/" + clean;
    CleanFilenameOfJoined(dir, clean);
    LastDotBeforeExtension(name, ext);
    assert clean[..|name|] == name;
    assert clean[|name| + 1..] == ext;
  }

  // ---------------------------------------------------------------------
  // BlendFileExport
  // ---------------------------------------------------------------------

  /** The FBX file Blender is asked to write: temp directory, base name, ".fbx". */
  function OutputFilenameFor(userTempDir: string, filename: string): string {
    userTempDir + BaseFilename(filename) + FbxExtension
  }

  /** Files of the same name in different folders export to the same FBX file. */
  lemma SameNameSameOutput(userTempDir: string, dir1: string, dir2: string, name: string)
    requires PlainFileName(name)
    ensures OutputFilenameFor(userTempDir, dir1 + "/" + name) == OutputFilenameFor(userTempDir, dir2 + "/" + name)
  {
    CleanFilenameOfJoined(dir1, name);
    CleanFilenameOfJoined(dir2, name);
  }

  /** The environment variables BlendFileExport sets for the export script. */
  function ExportVariables(outputFilename: string, useObjectPivot: bool, fixMaterials: bool,
                           enabledCollections: seq<string>, unpack: bool): map<string, string>
  {
    map["UNREAL_IMPORTER_OUTPUT_FILE" := outputFilename,
        "UNREAL_IMPORTER_EXPORT_OBJECT_PIVOT" := BoolText(useObjectPivot),
        "UNREAL_IMPORTER_FIX_MATERIALS" := BoolText(fixMaterials),
        "UNREAL_IMPORTER_ENABLED_COLLECTIONS" := Join(enabledCollections, ","),
        "UNREAL_IMPORTER_UNPACK" := BoolText(unpack)]
  }

  /** The four Previous* fields: what the last export that ran was made from. */
  datatype ExportCache = ExportCache(filename: string, optionsString: string, timeStamp: int, hash: Md5Hash)

  /** The export is skipped when the same file (names compared ignoring case) is unchanged. */
  predicate CacheHit(cache: ExportCache, filename: string, timeStamp: int, hash: Md5Hash) {
    EqualsIgnoreCase(filename, cache.filename) && timeStamp == cache.timeStamp && hash == cache.hash
  }

  /** The cache after a BlendFileExport call. */
  function CacheAfter(cache: ExportCache, filename: string, optionsString: string, timeStamp: int,
                      hash: Md5Hash): ExportCache
  {
    if CacheHit(cache, filename, timeStamp, hash) then cache
    else ExportCache(filename, optionsString, timeStamp, hash)
  }

  /**
   * Once a file has gone through BlendFileExport, another call for the same
   * unchanged file skips the export whatever the options now are and
   * whether or not the first export succeeded.
   */
  lemma RepeatedExportSkipped(cache: ExportCache, filename: string, options1: string, options2: string,
                              timeStamp: int, hash: Md5Hash)
    ensures var after := CacheAfter(cache, filename, options1, timeStamp, hash);
            CacheHit(after, filename, timeStamp, hash)
            && CacheAfter(after, filename, options2, timeStamp, hash) == after
  {
    if !CacheHit(cache, filename, timeStamp, hash) {
      assert EqualsIgnoreCase(filename, filename);
    }
  }

  /** A changed time stamp or hash always forces the export to run. */
  lemma ChangedFileExported(cache: ExportCache, filename: string, timeStamp: int, hash: Md5Hash)
    requires timeStamp != cache.timeStamp || hash != cache.hash
    ensures !CacheHit(cache, filename, timeStamp, hash)
    ensures CacheAfter(cache, filename, cache.optionsString, timeStamp, hash).timeStamp == timeStamp
  {
  }

  /**
   * What BlendFileAnalyse makes of the analysis script's run: a failed run,
   * or the parse of its output starting from empty out-parameters.
   */
  function AnalysisOf(settings: ImporterSettings.BlendImporterSettings, file: FileFacts,
                      run: BlenderProcess.Observations): AnalysisParser.AnalyseOutcome
    reads settings
  {
    var a := BlenderProcess.RunSpec(settings.GetBlenderExecutable(), BlenderProcess.SettingsFlags(settings),
                                    settings.unresponsiveWarningDuration, file.fullPath, file.pluginDir,
                                    AnalyseScript, run);
    if !a.succeeded then AnalysisParser.ScriptFailed
    else AnalysisParser.ParseLines(AnalysisParser.OutputLines(a.output), AnalysisParser.Analysis([], "", false))
  }

  /**
   * UBlendAssetFactory::BlendFileAnalyse: runs the analysis script and, if
   * Blender ran to completion, reads its output lines.
   */
  method BlendFileAnalyse(settings: ImporterSettings.BlendImporterSettings, file: FileFacts,
                          run: BlenderProcess.Observations)
    returns (r: AnalysisParser.AnalyseOutcome)
    ensures r == AnalysisOf(settings, file, run)
  {
    var succeeded, output, launched :=
      BlenderProcess.RunScriptOnBlendFile(settings, file.fullPath, file.pluginDir, AnalyseScript, run);
    if !succeeded {
      return AnalysisParser.ScriptFailed;
    }
    r := AnalysisParser.ParseAnalysisOutput(output, AnalysisParser.Analysis([], "", false));
  }

  /** The warnings an analysis reports are the entries of the 'M' lines Blender wrote, in order. */
  lemma AnalysedWarnings(settings: ImporterSettings.BlendImporterSettings, file: FileFacts,
                         run: BlenderProcess.Observations)
    ensures var a := BlenderProcess.RunSpec(settings.GetBlenderExecutable(), BlenderProcess.SettingsFlags(settings),
                                            settings.unresponsiveWarningDuration, file.fullPath, file.pluginDir,
                                            AnalyseScript, run);
            AnalysisOf(settings, file, run).Analysed? ==>
              AnalysisOf(settings, file, run).analysis.materialWarnings
              == AnalysisParser.WarningsOf(AnalysisParser.OutputLines(a.output))
  {
    var a := BlenderProcess.RunSpec(settings.GetBlenderExecutable(), BlenderProcess.SettingsFlags(settings),
                                    settings.unresponsiveWarningDuration, file.fullPath, file.pluginDir,
                                    AnalyseScript, run);
    if a.succeeded {
      var lines := AnalysisParser.OutputLines(a.output);
      var empty := AnalysisParser.Analysis([], "", false);
      if AnalysisParser.ParseLines(lines, empty).Analysed? {
        AnalysisParser.WarningsAreConcatenated(lines, empty);
        assert "" + AnalysisParser.WarningsOf(lines) == AnalysisParser.WarningsOf(lines);
      }
    }
  }

  /** The outcome of FactoryCreateFile (a null result comes with the reason). */
  datatype CreateOutcome =
    | AnalysisFailed
    | AnalysisHalted           // an 'M' line with two fields tripped the range check
    | Canceled
    | ExportFailed
    | NothingImported(fbxFile: string)
    | Imported(fbxFile: string, metadata: string)

  /** Whether LoadMetaData succeeds: the asset has the tag and FromString accepts its text. */
  predicate LoadedOptions(existingMetadata: Option<string>) {
    existingMetadata.Some? && ImportOptions.DecodeOptions(existingMetadata.value).Accepted?
  }

  /** The pivot flag and collection list of the options object once LoadMetaData has run. */
  function OptionsAfterLoad(existingMetadata: Option<string>, useObjectPivot: bool,
                            enabledCollections: seq<string>): (bool, seq<string>)
  {
    if !LoadedOptions(existingMetadata) then (useObjectPivot, enabledCollections)
    else
      var d := ImportOptions.DecodeOptions(existingMetadata.value);
      (d.useObjectPivot, match d.collections case None => enabledCollections case Some(names) => names)
  }

  /** How far FactoryCreateFile gets before the export, and with which options it exports. */
  datatype Stage =
    | StopAnalysisFailed
    | StopAnalysisHalted
    | StopCanceled
    | Export(useObjectPivot: bool, enabledCollections: seq<string>, isPacked: bool)

  /**
   * The analysis decides whether the import goes on; loaded options are
   * used as they are, otherwise the dialog decides, and its Cancel ends the
   * import.
   */
  function StageOf(analysed: AnalysisParser.AnalyseOutcome, existingMetadata: Option<string>,
                   useObjectPivot: bool, enabledCollections: seq<string>, events: seq<ImportDialog.UiEvent>): Stage
  {
    match analysed
    case ScriptFailed => StopAnalysisFailed
    case IndexOutOfRangeHalt => StopAnalysisHalted
    case Analysed(a) =>
      var (pivot, collections) := OptionsAfterLoad(existingMetadata, useObjectPivot, enabledCollections);
      if LoadedOptions(existingMetadata) then Export(pivot, collections, a.isPacked)
      else
        var d := ImportDialog.DialogOutcome(a.collections, pivot, collections, events);
        if d.userResponse == ImportDialog.Cancel then StopCanceled
        else Export(d.useObjectPivot, d.enabledCollections, a.isPacked)
  }

  /** Whether BlendFileExport reports success: a skipped export, or a completed run that left the FBX file. */
  predicate ExportSucceeds(cache: ExportCache, settings: ImporterSettings.BlendImporterSettings, filename: string,
                           file: FileFacts, run: BlenderProcess.Observations, outputExists: bool)
    reads settings
  {
    CacheHit(cache, filename, file.timeStamp, file.hash)
    || (outputExists &&
        BlenderProcess.RunSpec(settings.GetBlenderExecutable(), BlenderProcess.SettingsFlags(settings),
                               settings.unresponsiveWarningDuration, file.fullPath, file.pluginDir,
                               ExportScript, run).succeeded)
  }

  /** How an import that reached the export ends. */
  function ExportOutcome(exported: bool, fbxFile: string, metadata: string, mainObjectCreated: bool): CreateOutcome {
    if !exported then ExportFailed
    else if mainObjectCreated then Imported(fbxFile, metadata)
    else NothingImported(fbxFile)
  }

  class BlendAssetFactory {
    var importOptions: ImportOptions.BlendImportOptions
    var previousImportedFilename: string
    var previousImportOptionsString: string
    var previousImportedTimeStamp: int
    var previousImportedHash: Md5Hash

    function Cache(): ExportCache
      reads this
    {
      ExportCache(previousImportedFilename, previousImportOptionsString, previousImportedTimeStamp,
                  previousImportedHash)
    }

    /** The factory starts with an empty cache and the shared options object. */
    constructor (options: ImportOptions.BlendImportOptions)
      ensures importOptions == options
      ensures Cache() == ExportCache("", "", 0, InvalidHash)
    {
      importOptions := options;
      previousImportedFilename := "";
      previousImportOptionsString := "";
      previousImportedTimeStamp := 0;
      previousImportedHash := InvalidHash;
    }

    /**
     * BlendFileExport: unless the cache says the same unchanged file was
     * exported last time, records the file in the cache, sets the export
     * script's variables and runs it; succeeds if the export was skipped, or
     * if Blender ran to completion and the FBX file exists afterwards.
     */
    method BlendFileExport(settings: ImporterSettings.BlendImporterSettings, filename: string, unpack: bool,
                           file: FileFacts, run: BlenderProcess.Observations, outputExists: bool)
      returns (ok: bool, outputFilename: string, variables: map<string, string>)
      modifies this
      ensures importOptions == old(importOptions)
      ensures outputFilename == OutputFilenameFor(file.userTempDir, filename)
      ensures Cache() == CacheAfter(old(Cache()), filename, importOptions.ToString(), file.timeStamp, file.hash)
      ensures CacheHit(old(Cache()), filename, file.timeStamp, file.hash) ==> ok && variables == map[]
      ensures !CacheHit(old(Cache()), filename, file.timeStamp, file.hash) ==>
                variables == ExportVariables(outputFilename, importOptions.useObjectPivot, settings.IsFixMaterials(),
                                             importOptions.enabledCollections, unpack)
                && (ok <==> outputExists &&
                            BlenderProcess.RunSpec(settings.GetBlenderExecutable(), BlenderProcess.SettingsFlags(settings),
                                                   settings.unresponsiveWarningDuration, file.fullPath,
                                                   file.pluginDir, ExportScript, run).succeeded)
    {
      outputFilename := OutputFilenameFor(file.userTempDir, filename);
      variables := map[];
      var optionsString := importOptions.ToString();
      var fixMaterials := settings.IsFixMaterials();
      // The same file name (ignoring case), time stamp and hash as last time.
      if CacheHit(Cache(), filename, file.timeStamp, file.hash) {
        return true, outputFilename, variables;
      }
      previousImportedFilename := filename;
      previousImportedTimeStamp := file.timeStamp;
      previousImportedHash := file.hash;
      previousImportOptionsString := optionsString;

      variables := ExportVariables(outputFilename, importOptions.useObjectPivot, fixMaterials,
                                   importOptions.enabledCollections, unpack);

      var succeeded, output, launched :=
        BlenderProcess.RunScriptOnBlendFile(settings, file.fullPath, file.pluginDir, ExportScript, run);
      ok := succeeded && outputExists;
    }

    /**
     * The dialog step of FactoryCreateFile: shows the import dialog with the
     * current options preselected and, unless the user cancels, copies the
     * chosen pivot and collections into the options.
     */
    method ChooseOptions(collections: seq<string>, showMaterialWarning: bool, dialogEvents: seq<ImportDialog.UiEvent>)
      returns (canceled: bool)
      modifies importOptions
      ensures var d := ImportDialog.DialogOutcome(collections, old(importOptions.useObjectPivot),
                                                  old(importOptions.enabledCollections), dialogEvents);
              (canceled <==> d.userResponse == ImportDialog.Cancel)
              && if canceled then unchanged(importOptions)
                 else importOptions.useObjectPivot == d.useObjectPivot
                      && importOptions.enabledCollections == d.enabledCollections
    {
      var dialog := new ImportDialog.BlendAssetImportDialog(collections, importOptions, showMaterialWarning);
      var events := ImportDialog.ValidOnly(collections, dialogEvents);
      var response := dialog.ShowModal(events);
      if response == ImportDialog.AppReturnType.Cancel {
        return true;
      }
      importOptions.useObjectPivot := dialog.IsUseObjectPivot();
      importOptions.enabledCollections := dialog.GetEnabledCollections();
      canceled := false;
    }

    /**
     * The export and import step of FactoryCreateFile: exports the file
     * with the current options and, when the export succeeds, imports the
     * FBX file it produced.
     */
    method ExportAndImport(settings: ImporterSettings.BlendImporterSettings, filename: string, unpack: bool,
                           file: FileFacts, exportRun: BlenderProcess.Observations, outputExists: bool,
                           mainObjectCreated: bool)
      returns (outcome: CreateOutcome)
      modifies this
      ensures importOptions == old(importOptions)
      ensures outcome == ExportOutcome(ExportSucceeds(old(Cache()), settings, filename, file, exportRun, outputExists),
                                       OutputFilenameFor(file.userTempDir, filename), importOptions.ToString(),
                                       mainObjectCreated)
      ensures Cache() == CacheAfter(old(Cache()), filename, importOptions.ToString(), file.timeStamp, file.hash)
    {
      var exported, outputFilename, variables :=
        BlendFileExport(settings, filename, unpack, file, exportRun, outputExists);
      if !exported {
        return ExportFailed;
      }
      if mainObjectCreated {
        outcome := Imported(outputFilename, importOptions.ToString());
      } else {
        outcome := NothingImported(outputFilename);
      }
    }

    /**
     * FactoryCreateFile.  `existingMetadata` is the BLEND_IMPORT metadata of
     * the asset being replaced: None when there is no such asset, and
     * Some("") for an asset without the tag, whose GetValue gives "".  The
     * runs of the two scripts, the user's actions in the dialog, whether the
     * FBX file appears and whether the FBX import yields an object are
     * observations.  Returns how the import ended and whether the message
     * log was opened.
     */
    method FactoryCreateFile(settings: ImporterSettings.BlendImporterSettings, filename: string,
                             existingMetadata: Option<string>, file: FileFacts,
                             analyseRun: BlenderProcess.Observations, dialogEvents: seq<ImportDialog.UiEvent>,
                             exportRun: BlenderProcess.Observations, outputExists: bool, mainObjectCreated: bool)
      returns (outcome: CreateOutcome, messageLogOpened: bool)
      modifies this, importOptions
      ensures importOptions == old(importOptions)
      ensures var analysed := old(AnalysisOf(settings, file, analyseRun));
              messageLogOpened <==> analysed.Analysed? && existingMetadata.None?
                                    && (analysed.analysis.materialWarnings != "" || analysed.analysis.isPacked)
      ensures var stage := StageOf(old(AnalysisOf(settings, file, analyseRun)), existingMetadata,
                                   old(importOptions.useObjectPivot), old(importOptions.enabledCollections),
                                   dialogEvents);
              match stage
              case StopAnalysisFailed => outcome == AnalysisFailed
              case StopAnalysisHalted => outcome == AnalysisHalted
              case StopCanceled => outcome == Canceled
              case Export(pivot, collections, _) =>
                outcome == ExportOutcome(ExportSucceeds(old(Cache()), settings, filename, file, exportRun, outputExists),
                                         OutputFilenameFor(file.userTempDir, filename),
                                         importOptions.ToString(), mainObjectCreated)
      ensures var stage := StageOf(old(AnalysisOf(settings, file, analyseRun)), existingMetadata,
                                   old(importOptions.useObjectPivot), old(importOptions.enabledCollections),
                                   dialogEvents);
              if stage.Export? then
                importOptions.useObjectPivot == stage.useObjectPivot
                && importOptions.enabledCollections == stage.enabledCollections
                && Cache() == CacheAfter(old(Cache()), filename, importOptions.ToString(), file.timeStamp, file.hash)
              else
                (importOptions.useObjectPivot, importOptions.enabledCollections)
                  == OptionsAfterLoad(existingMetadata, old(importOptions.useObjectPivot),
                                      old(importOptions.enabledCollections))
                && Cache() == old(Cache())
    {
      ghost var pivot0, collections0 := importOptions.useObjectPivot, importOptions.enabledCollections;
      var loaded := false;
      if existingMetadata.Some? {
        loaded := importOptions.FromString(existingMetadata.value);
      }
      assert loaded == LoadedOptions(existingMetadata);
      assert (importOptions.useObjectPivot, importOptions.enabledCollections)
               == OptionsAfterLoad(existingMetadata, pivot0, collections0);

      var analysed := BlendFileAnalyse(settings, file, analyseRun);
      assert analysed == old(AnalysisOf(settings, file, analyseRun));
      ghost var stage := StageOf(analysed, existingMetadata, pivot0, collections0, dialogEvents);
      if analysed.ScriptFailed? {
        assert stage == StopAnalysisFailed;
        return AnalysisFailed, false;
      } else if analysed.IndexOutOfRangeHalt? {
        assert stage == StopAnalysisHalted;
        return AnalysisHalted, false;
      }
      var analysis := analysed.analysis;

      messageLogOpened := (analysis.materialWarnings != "" || analysis.isPacked) && existingMetadata.None?;

      if !loaded {
        var canceled := ChooseOptions(analysis.collections, analysis.materialWarnings != "", dialogEvents);
        if canceled {
          assert stage == StopCanceled;
          return Canceled, messageLogOpened;
        }
      }
      assert stage == Export(importOptions.useObjectPivot, importOptions.enabledCollections, analysis.isPacked);

      outcome := ExportAndImport(settings, filename, analysis.isPacked, file, exportRun, outputExists,
                                 mainObjectCreated);
    }
  }


  /**
   * Reimporting an asset whose metadata an earlier import wrote skips the
   * dialog and exports with the options recorded then (for a non-empty
   * list of plain collection names).
   */
  lemma ReimportReusesOptions(a: AnalysisParser.Analysis, useObjectPivot: bool, names: seq<string>,
                              currentPivot: bool, currentCollections: seq<string>, events: seq<ImportDialog.UiEvent>)
    requires |names| > 0
    requires forall k :: 0 <= k < |names| ==> names[k] != "" && ',' !in names[k] && ';' !in names[k]
    ensures StageOf(AnalysisParser.Analysed(a), Some(ImportOptions.OptionsText(useObjectPivot, names)),
                    currentPivot, currentCollections, events)
            == Export(useObjectPivot, names, a.isPacked)
  {
    ImportOptions.OptionsRoundTrip(useObjectPivot, names);
  }

  /** When no collection was enabled, the recorded text keeps the current collection list on reimport. */
  lemma ReimportWithoutCollections(a: AnalysisParser.Analysis, useObjectPivot: bool,
                                   currentPivot: bool, currentCollections: seq<string>,
                                   events: seq<ImportDialog.UiEvent>)
    ensures StageOf(AnalysisParser.Analysed(a), Some(ImportOptions.OptionsText(useObjectPivot, [])),
                    currentPivot, currentCollections, events)
            == Export(useObjectPivot, currentCollections, a.isPacked)
  {
    ImportOptions.EmptyListKeepsPrevious(useObjectPivot);
  }

  /** Closing the dialog without pressing a button cancels the import. */
  lemma ClosingDialogCancels(a: AnalysisParser.Analysis, existingMetadata: Option<string>,
                             useObjectPivot: bool, enabledCollections: seq<string>, events: seq<ImportDialog.UiEvent>)
    requires !LoadedOptions(existingMetadata)
    requires forall k :: 0 <= k < |events| ==> !events[k].ClickButton?
    ensures StageOf(AnalysisParser.Analysed(a), existingMetadata, useObjectPivot, enabledCollections, events)
            == StopCanceled
  {
    var valid := ImportDialog.ValidOnly(a.collections, events);
    assert ImportDialog.NoButtonBefore(valid, |valid|) by {
      forall j | 0 <= j < |valid|
        ensures !valid[j].ClickButton?
      {
        var k :| 0 <= k < |events| && events[k] == valid[j];
      }
    }
    ImportDialog.NoButtonKeepsResponse(a.collections,
      ImportDialog.InitialState(a.collections, useObjectPivot, enabledCollections), valid);
  }

  /**
   * When the dialog is shown and the first button the user presses is Ok,
   * the export runs with the pivot and collections the dialog ends with.
   */
  lemma DialogOkExports(a: AnalysisParser.Analysis, existingMetadata: Option<string>,
                        useObjectPivot: bool, enabledCollections: seq<string>, events: seq<ImportDialog.UiEvent>,
                        k: nat)
    requires !LoadedOptions(existingMetadata) && ImportDialog.ValidEvents(a.collections, events)
    requires k < |events| && events[k] == ImportDialog.ClickButton(ImportDialog.Ok)
    requires ImportDialog.NoButtonBefore(events, k)
    ensures var d := ImportDialog.RunEvents(a.collections,
                       ImportDialog.InitialState(a.collections, useObjectPivot, enabledCollections), events);
            StageOf(AnalysisParser.Analysed(a), existingMetadata, useObjectPivot, enabledCollections, events)
            == Export(d.useObjectPivot, d.enabledCollections, a.isPacked)
  {
    ImportDialog.FirstButtonDecides(a.collections,
      ImportDialog.InitialState(a.collections, useObjectPivot, enabledCollections), events, k);
  }

  /** The first recorded source file, or "" when the list is empty. */
  function FirstSource(files: seq<string>): string {
    if |files| > 0 then files[0] else ""
  }

  /**
   * CanReimportBlendAsset.  `sourceFiles` are the asset's recorded source
   * files (None: the asset has no import data); the result says whether
   * reimport is offered and the file list the caller gets.
   */
  function CanReimportBlendAsset(sourceFiles: Option<seq<string>>, outFilenames: seq<string>): (r: (bool, seq<string>))
    ensures sourceFiles.None? ==> r == (true, outFilenames)
    ensures sourceFiles.Some? ==> (r.0 <==> EqualsIgnoreCase(Extension(FirstSource(sourceFiles.value)), "blend"))
    ensures !r.0 ==> r.1 == outFilenames
    ensures r.0 && sourceFiles.Some? ==> r.1 == outFilenames + sourceFiles.value
  {
    match sourceFiles
    case None => (true, outFilenames)
    case Some(files) =>
      if !EqualsIgnoreCase(Extension(FirstSource(files)), "blend") then (false, outFilenames)
      else (true, outFilenames + files)
  }

  /** A .blend source file, in any letter case, makes an asset reimportable. */
  lemma BlendSourceReimportable(dir: string, name: string, ext: string, rest: seq<string>)
    requires PlainFileName(name + "." + ext) && '.' !in ext && EqualsIgnoreCase(ext, "blend")
    ensures CanReimportBlendAsset(Some([dir + "/" + name + "." + ext] + rest), []).0
  {
    NameAndExtension(dir, name, ext);
  }

  /** Other extensions (a Blender backup ".blend1", an ".fbx") and an empty source list are refused. */
  lemma OtherSourcesRefused(dir: string, name: string)
    requires PlainFileName(name + ".blend1")
    ensures !CanReimportBlendAsset(Some([dir + "/" + name + ".blend1"]), []).0
    ensures !CanReimportBlendAsset(Some([]), []).0
  {
    assert name + "." + "blend1" == name + ".blend1";
    NameAndExtension(dir, name, "blend1");
    assert |"blend1"| != |"blend"|;
  }
}
