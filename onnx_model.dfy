/**
 * The two `os.path` functions the model repository uses, on POSIX paths.
 */
module PosixPath {
  /** `os.path.basename`: everything after the last '/'. */
  function Basename(p: string): (b: string)
    ensures '/' !in b
    ensures |b| <= |p| && p[|p| - |b|..] == b
    ensures |b| < |p| ==> p[|p| - |b| - 1] == '/'
    decreases |p|
  {
    if |p| == 0 || p[|p| - 1] == '/' then "" else Basename(p[..|p| - 1]) + [p[|p| - 1]]
  }

  /** `os.path.join(a, b)` for two components. */
  function Join(a: string, b: string): (p: string)
    ensures |b| <= |p| && p[|p| - |b|..] == b
    ensures (|b| == 0 || b[0] != '/') ==> a <= p
    ensures |b| > 0 && b[0] == '/' ==> p == b
  {
    if |b| > 0 && b[0] == '/' then b
    else if a == "" || a[|a| - 1] == '/' then a + b
    else a + "/" + b
  }

  /** A directory without a trailing slash and a file name are joined by one '/'. */
  lemma JoinBasename(dir: string, path: string)
    requires dir != "" && dir[|dir| - 1] != '/'
    ensures Join(dir, Basename(path)) == dir + "/" + Basename(path)
  {
    var b := Basename(path);
    if |b| > 0 {
      assert b[0] in b;
    }
  }

  /** Appended to a directory that is empty or ends in '/', a name without '/' is the base name. */
  lemma BasenameAfterSeparator(dir: string, name: string)
    requires dir == "" || dir[|dir| - 1] == '/'
    requires '/' !in name
    ensures Basename(dir + name) == name
  {
    var p := dir + name;
    var b := Basename(p);
    // b cannot reach back over the separator ending dir, nor stop at a '/' inside name
    assert |b| == |name|;
    assert b == p[|p| - |name|..] == name;
  }

  /** The base name of `dir/name` is `name` when `name` has no '/'. */
  lemma BasenameOfJoined(dir: string, name: string)
    requires '/' !in name
    ensures Basename(dir + "/" + name) == name
  {
    BasenameAfterSeparator(dir + "/", name);
  }

  /** A key under a prefix is cached in the cache directory under its last component. */
  lemma CachePathExample()
    ensures Join("/tmp/models", Basename("models/nose_v2.onnx")) == "/tmp/models/nose_v2.onnx"
  {
    var name := "nose_v2.onnx";
    assert '/' !in name;
    BasenameOfJoined("models", name);
    assert "models/nose_v2.onnx" == "models" + "/" + name;
    JoinBasename("/tmp/models", "models/nose_v2.onnx");
  }
}

/**
 * The ONNX Runtime adapter of the model port (src/infrastructure/ml/onnx_model.py).
 *
 * ONNX Runtime is the pair of calls in `Runtime`: opening an inference session on a
 * file, and running a session. Whether a file exists is the function `fileExists`, and
 * the optional downloader is a function from (object key, local path) to the path it
 * wrote. The adapter's state is a class whose fields only `LoadModel` changes; the
 * functions `Load`, `Extract` and `Info` state what its methods do to and with that state.
 */
module OnnxModel {
  import opened Wrappers
  import opened Exceptions
  import opened NoseImages
  import opened Embeddings
  import opened ImagePreprocessing
  import opened ModelRepository
  import opened PosixPath

  /** One entry of `session.get_inputs()` / `get_outputs()`: its name and the text of its shape. */
  datatype NodeArg = NodeArg(name: string, shape: string)

  /** An `InferenceSession`: its inputs, outputs and execution providers. */
  datatype Session = Session(inputs: seq<NodeArg>, outputs: seq<NodeArg>, providers: seq<string>)

  datatype Runtime = Runtime(
    /** `ort.InferenceSession(path, providers=...)`. */
    createSession: (string, seq<string>) -> Result<Session>,
    /** `session.run([output_name], {input_name: array})`: the list of outputs. */
    run: (Session, Option<string>, Option<string>, NdArray) -> Result<seq<NdArray>>)

  /** The constructor arguments. The downloader is `download_model(object_key, local_path)`. */
  datatype Settings = Settings(
    modelPath: string,
    inputSize: int,
    inputChannels: int,
    modelDownloader: Option<(string, string) -> Result<string>>,
    ncpModelKey: Option<string>,
    modelCacheDir: string)

  /** The constructor's defaults for the optional arguments. */
  function DefaultSettings(modelPath: string): (s: Settings)
    ensures s.inputSize == 96 && s.inputChannels == 1 && s.modelCacheDir == "/tmp/models"
    ensures s.modelPath == modelPath && s.modelDownloader.None? && s.ncpModelKey.None?
  {
    Settings(modelPath, 96, 1, None, None, "/tmp/models")
  }

  /** The adapter's own ImagePreprocessor: target size and channels given, crop at its defaults. */
  function PreprocessorConfig(settings: Settings): (c: Config)
    ensures c.targetSize == settings.inputSize && c.channels == settings.inputChannels
    ensures c.centerCropRatio == DefaultConfig.centerCropRatio && c.enableCrop == DefaultConfig.enableCrop
  {
    Config(settings.inputSize, settings.inputChannels, 0.6, true)
  }

  const CpuProvider := "CPUExecutionProvider"
  const IndexOutOfRange := "list index out of range"
  const DownloadFailedPrefix := "model download from NCP Object Storage failed: "
  const FileNotFoundPrefix := "model file not found: "
  const LoadFailedPrefix := "model load failed: "
  const NotLoadedMessage := "model is not loaded; call load_model() first"
  const ExtractionFailedPrefix := "embedding extraction failed: "

  /** The mutable fields: _session, _input_name, _output_name, _model_loaded, _actual_model_path. */
  datatype ModelState = ModelState(
    session: Option<Session>,
    inputName: Option<string>,
    outputName: Option<string>,
    loaded: bool,
    actualModelPath: Option<string>)

  /** The state `__init__` leaves. */
  const Unloaded := ModelState(None, None, None, false, None)

  /** What every reachable state satisfies: a loaded model has a session, both names and a path. */
  predicate StateInvariant(s: ModelState)
  {
    s.loaded ==> s.session.Some? && s.inputName.Some? && s.outputName.Some? && s.actualModelPath.Some?
  }

  /** The download path is taken when a downloader and a non-empty object key are both given. */
  predicate UsesDownload(settings: Settings)
  {
    settings.modelDownloader.Some? && settings.ncpModelKey.Some? && settings.ncpModelKey.value != ""
  }

  /**
   * Where a downloaded model is cached: `join(model_cache_dir, basename(key))`, a path inside
   * the cache directory whose own base name is the key's.
   */
  function CachePath(settings: Settings): (p: string)
    requires UsesDownload(settings)
    ensures settings.modelCacheDir <= p
    ensures Basename(p) == Basename(settings.ncpModelKey.value)
  {
    var dir, name := settings.modelCacheDir, Basename(settings.ncpModelKey.value);
    if dir == "" || dir[|dir| - 1] == '/' then
      BasenameAfterSeparator(dir, name);
      Join(dir, name)
    else
      BasenameOfJoined(dir, name);
      JoinBasename(dir, settings.ncpModelKey.value);
      Join(dir, name)
  }

  /** The first part of `load_model`: the path to load from, or the download failure. */
  function ResolveModelPath(settings: Settings): (r: Result<string>)
    ensures !UsesDownload(settings) ==> r == Ok(settings.modelPath)
    ensures UsesDownload(settings) ==>
      var d := settings.modelDownloader.value(settings.ncpModelKey.value, CachePath(settings));
      (d.Ok? ==> r == Ok(d.value)) &&
      (d.Err? ==> r == Err(ModelNotLoadedError(DownloadFailedPrefix + d.error.message)))
  {
    if UsesDownload(settings) then
      match settings.modelDownloader.value(settings.ncpModelKey.value, CachePath(settings))
      case Ok(path) => Ok(path)
      case Err(e) => Err(ModelNotLoadedError(DownloadFailedPrefix + e.message))
    else Ok(settings.modelPath)
  }

  /** The new state and the outcome of one `load_model` call. */
  datatype LoadOutcome = LoadOutcome(state: ModelState, result: Result<()>)

  /** A failure inside the session block: `ModelNotLoadedError(f"...: {e}")`. */
  function LoadFailed(e: Error): Result<()>
  {
    Err(ModelNotLoadedError(LoadFailedPrefix + e.message))
  }

  /**
   * `load_model`, field by field: the actual path is written once resolved, the session
   * once created, the input and output names once read, and `loaded` last.
   */
  function Load(settings: Settings, runtime: Runtime, fileExists: string -> bool, s: ModelState): (o: LoadOutcome)
    ensures o.result.Err? ==> o.result.error.ModelNotLoadedError?
    ensures o.state.loaded <==> s.loaded || o.result.Ok?
    ensures StateInvariant(s) ==> StateInvariant(o.state)
    ensures o.result.Ok? ==>
      o.state.session.Some? &&
      var session := o.state.session.value;
      |session.inputs| > 0 && |session.outputs| > 0 &&
      o.state.inputName == Some(session.inputs[0].name) &&
      o.state.outputName == Some(session.outputs[0].name) &&
      o.state.actualModelPath.Some? && fileExists(o.state.actualModelPath.value) &&
      runtime.createSession(o.state.actualModelPath.value, [CpuProvider]) == Ok(session)
  {
    match ResolveModelPath(settings)
    case Err(e) => LoadOutcome(s, Err(e))
    case Ok(path) =>
      var s1 := s.(actualModelPath := Some(path));
      if !fileExists(path) then LoadOutcome(s1, Err(ModelNotLoadedError(FileNotFoundPrefix + path)))
      else
        match runtime.createSession(path, [CpuProvider])
        case Err(e) => LoadOutcome(s1, LoadFailed(e))
        case Ok(session) =>
          var s2 := s1.(session := Some(session));
          if |session.inputs| == 0 then LoadOutcome(s2, LoadFailed(IndexError(IndexOutOfRange)))
          else
            var s3 := s2.(inputName := Some(session.inputs[0].name));
            if |session.outputs| == 0 then LoadOutcome(s3, LoadFailed(IndexError(IndexOutOfRange)))
            else LoadOutcome(s3.(outputName := Some(session.outputs[0].name), loaded := true), Ok(()))
  }

  /** The path choice: the downloader's result on the download path, `model_path` otherwise. */
  lemma LoadPathChoice(settings: Settings, runtime: Runtime, fileExists: string -> bool, s: ModelState)
    ensures var o := Load(settings, runtime, fileExists, s);
      !UsesDownload(settings) ==> o.state.actualModelPath == Some(settings.modelPath)
    ensures var o := Load(settings, runtime, fileExists, s);
      var d := if UsesDownload(settings) then
        settings.modelDownloader.value(settings.ncpModelKey.value, CachePath(settings)) else Ok("");
      UsesDownload(settings) && d.Ok? ==> o.state.actualModelPath == Some(d.value)
    ensures var o := Load(settings, runtime, fileExists, s);
      var d := if UsesDownload(settings) then
        settings.modelDownloader.value(settings.ncpModelKey.value, CachePath(settings)) else Ok("");
      UsesDownload(settings) && d.Err? ==>
        o == LoadOutcome(s, Err(ModelNotLoadedError(DownloadFailedPrefix + d.error.message)))
  {
    var o := Load(settings, runtime, fileExists, s);
    match ResolveModelPath(settings)
    case Ok(path) =>
      assert o.state.actualModelPath == Some(path);
    case Err(e) =>
      assert o == LoadOutcome(s, Err(e));
  }

  /** A resolved path naming no file fails the load and leaves everything but the path as it was. */
  lemma LoadMissingFile(settings: Settings, runtime: Runtime, fileExists: string -> bool, s: ModelState)
    requires ResolveModelPath(settings).Ok?
    requires !fileExists(ResolveModelPath(settings).value)
    ensures var path := ResolveModelPath(settings).value;
      Load(settings, runtime, fileExists, s) ==
        LoadOutcome(s.(actualModelPath := Some(path)), Err(ModelNotLoadedError(FileNotFoundPrefix + path)))
  {
  }

  /** From the fresh state the model ends up loaded exactly when the load succeeds. */
  lemma LoadFromFresh(settings: Settings, runtime: Runtime, fileExists: string -> bool)
    ensures var o := Load(settings, runtime, fileExists, Unloaded);
      (o.state.loaded <==> o.result.Ok?) && StateInvariant(o.state)
  {
  }

  /**
   * Nothing resets the loaded flag, so a reload that fails after creating its session leaves
   * the adapter healthy, on the new session, with the previous load's output name (and, when
   * the new session has no inputs, the previous input name as well).
   */
  lemma FailedReloadKeepsStaleNames(settings: Settings, runtime: Runtime, fileExists: string -> bool,
                                    s: ModelState, path: string, session: Session)
    requires StateInvariant(s) && s.loaded
    requires ResolveModelPath(settings) == Ok(path) && fileExists(path)
    requires runtime.createSession(path, [CpuProvider]) == Ok(session)
    requires |session.inputs| == 0 || |session.outputs| == 0
    ensures var o := Load(settings, runtime, fileExists, s);
      o.result.Err? && Healthy(o.state) && o.state.session == Some(session) &&
      o.state.outputName == s.outputName &&
      (|session.inputs| == 0 ==> o.state.inputName == s.inputName) &&
      (|session.inputs| > 0 ==> o.state.inputName == Some(session.inputs[0].name))
  {
  }

  /**
   * A first load that fails after creating its session leaves a session without the loaded
   * flag: the adapter is not healthy, and `get_model_info` then raises IndexError.
   */
  lemma FailedFirstLoadLeavesSession(settings: Settings, runtime: Runtime, fileExists: string -> bool,
                                     path: string, session: Session)
    requires ResolveModelPath(settings) == Ok(path) && fileExists(path)
    requires runtime.createSession(path, [CpuProvider]) == Ok(session)
    requires |session.inputs| == 0 || |session.outputs| == 0
    ensures var o := Load(settings, runtime, fileExists, Unloaded);
      o.result.Err? && o.state.session == Some(session) && !o.state.loaded && !Healthy(o.state) &&
      Info(settings, o.state) == Err(IndexError(IndexOutOfRange))
  {
  }

  /** `is_healthy`. */
  predicate Healthy(s: ModelState)
  {
    s.loaded && s.session.Some?
  }

  /** In a reachable state health is exactly the loaded flag; the fresh state is not healthy. */
  lemma HealthyIffLoaded(s: ModelState)
    requires StateInvariant(s)
    ensures Healthy(s) <==> s.loaded
    ensures !Healthy(Unloaded) && StateInvariant(Unloaded)
  {
  }

  /** The body of the `try` in `extract_embedding`: preprocess, run, flatten the first output. */
  function Infer(runtime: Runtime, config: Config, pil: Pil, session: Session,
                 inputName: Option<string>, outputName: Option<string>, image: NoseImage): (r: Result<Embedding>)
    ensures Preprocess(pil, config, image.imageData).Err? ==> r == Err(Preprocess(pil, config, image.imageData).error)
    ensures Preprocess(pil, config, image.imageData).Ok? ==>
      var run := runtime.run(session, outputName, inputName, Preprocess(pil, config, image.imageData).value);
      (run.Err? ==> r == Err(run.error)) &&
      (run.Ok? && |run.value| == 0 ==> r == Err(IndexError(IndexOutOfRange))) &&
      (run.Ok? && |run.value| > 0 ==>
        (r.Ok? <==> |run.value[0].data| > 0) &&
        (r.Ok? ==> r.value.vector == run.value[0].data) &&
        (r.Err? ==> r.error == ValueError(EmptyEmbeddingMessage)))
  {
    var input :- Preprocess(pil, config, image.imageData);
    var outputs :- runtime.run(session, outputName, inputName, input);
    if |outputs| == 0 then Err(IndexError(IndexOutOfRange)) else NewEmbedding(outputs[0].data)
  }

  /** `extract_embedding` in state `s`. */
  function Extract(settings: Settings, runtime: Runtime, pil: Pil, s: ModelState, image: NoseImage): (r: Result<Embedding>)
    ensures !Healthy(s) ==> r == Err(ModelNotLoadedError(NotLoadedMessage))
    ensures Healthy(s) && r.Err? ==>
      var cause := Infer(runtime, PreprocessorConfig(settings), pil, s.session.value, s.inputName, s.outputName, image);
      cause.Err? && r.error == InferenceError(ExtractionFailedPrefix + cause.error.message, Some(cause.error))
    ensures r.Ok? ==> Healthy(s) && Embeddings.Valid(r.value)
    ensures r.Ok? ==>
      var input := Preprocess(pil, PreprocessorConfig(settings), image.imageData);
      input.Ok? &&
      var outputs := runtime.run(s.session.value, s.outputName, s.inputName, input.value);
      outputs.Ok? && |outputs.value| > 0 && r.value.vector == outputs.value[0].data
  {
    if !Healthy(s) then Err(ModelNotLoadedError(NotLoadedMessage))
    else
      match Infer(runtime, PreprocessorConfig(settings), pil, s.session.value, s.inputName, s.outputName, image)
      case Ok(embedding) => Ok(embedding)
      case Err(e) => Err(InferenceError(ExtractionFailedPrefix + e.message, Some(e)))
  }

  /** Every failure of `extract_embedding` is ModelNotLoadedError or InferenceError. */
  lemma ExtractErrorKinds(settings: Settings, runtime: Runtime, pil: Pil, s: ModelState, image: NoseImage)
    requires Extract(settings, runtime, pil, s, image).Err?
    ensures var e := Extract(settings, runtime, pil, s, image).error;
      e.ModelNotLoadedError? || (e.InferenceError? && e.originalError.Some?)
  {
  }

  /**
   * An image the preprocessor rejects reaches the caller as InferenceError, with the
   * preprocessor's InvalidImageError kept as the original error.
   */
  lemma RejectedImageIsInferenceError(settings: Settings, runtime: Runtime, pil: Pil, s: ModelState, image: NoseImage)
    requires Healthy(s)
    requires pil.open(image.imageData).Err?
    ensures var invalid := InvalidImageError(PreprocessFailedPrefix + pil.open(image.imageData).error.message);
      Extract(settings, runtime, pil, s, image) ==
        Err(InferenceError(ExtractionFailedPrefix + invalid.message, Some(invalid)))
  {
    UndecodableImage(pil, PreprocessorConfig(settings), image.imageData);
  }

  /** An empty model output reaches the caller as InferenceError wrapping the Embedding's ValueError. */
  lemma EmptyOutputIsInferenceError(settings: Settings, runtime: Runtime, pil: Pil, s: ModelState, image: NoseImage)
    requires Healthy(s)
    requires Preprocess(pil, PreprocessorConfig(settings), image.imageData).Ok?
    requires var input := Preprocess(pil, PreprocessorConfig(settings), image.imageData).value;
      var outputs := runtime.run(s.session.value, s.outputName, s.inputName, input);
      outputs.Ok? && |outputs.value| > 0 && outputs.value[0].data == []
    ensures Extract(settings, runtime, pil, s, image) ==
      Err(InferenceError(ExtractionFailedPrefix + EmptyEmbeddingMessage, Some(ValueError(EmptyEmbeddingMessage))))
  {
  }

  function ShapeText(nodes: seq<NodeArg>): string
    requires |nodes| > 0
  {
    nodes[0].shape
  }

  /** `get_model_info` in state `s`; with a session but no input or output it raises IndexError. */
  function Info(settings: Settings, s: ModelState): (r: Result<ModelInfo>)
    ensures s.session.None? ==> r == Ok(SessionlessInfo(settings.modelPath, settings.ncpModelKey))
    ensures s.session.Some? ==>
      (r.Err? <==> |s.session.value.inputs| == 0 || |s.session.value.outputs| == 0)
    ensures r.Err? ==> r.error == IndexError(IndexOutOfRange)
    ensures r.Ok? && s.session.Some? ==>
      r.value.SessionInfo? && r.value.loaded == s.loaded && r.value.modelPath == settings.modelPath &&
      r.value.actualModelPath == s.actualModelPath && r.value.ncpModelKey == settings.ncpModelKey &&
      r.value.inputName == s.inputName && r.value.outputName == s.outputName &&
      r.value.providers == s.session.value.providers &&
      r.value.inputShape == s.session.value.inputs[0].shape &&
      r.value.outputShape == s.session.value.outputs[0].shape
  {
    match s.session
    case None => Ok(SessionlessInfo(settings.modelPath, settings.ncpModelKey))
    case Some(session) =>
      if |session.inputs| == 0 || |session.outputs| == 0 then Err(IndexError(IndexOutOfRange))
      else Ok(SessionInfo(s.loaded, settings.modelPath, s.actualModelPath, settings.ncpModelKey,
                          s.inputName, ShapeText(session.inputs), s.outputName, ShapeText(session.outputs),
                          session.providers))
  }

  /** In a reachable state the reported "loaded" entry is the health flag. */
  lemma InfoReportsHealth(settings: Settings, s: ModelState)
    requires StateInvariant(s)
    requires Info(settings, s).Ok?
    ensures Info(settings, s).value.Loaded() == Healthy(s)
  {
  }

  /** The adapter in state `s`, seen through the port. */
  function AsPort(settings: Settings, runtime: Runtime, pil: Pil, s: ModelState): (p: ModelPort)
    ensures p.isHealthy == Ok(Healthy(s))
    ensures p.modelInfo == Info(settings, s)
    ensures forall image :: p.extractEmbedding(image) == Extract(settings, runtime, pil, s, image)
  {
    ModelPort(image => Extract(settings, runtime, pil, s, image), Ok(Healthy(s)), Info(settings, s))
  }

  /** ONNXModelRepository. */
  class OnnxModelRepository {
    const settings: Settings
    const preprocessor: Config
    var session: Option<Session>
    var inputName: Option<string>
    var outputName: Option<string>
    var modelLoaded: bool
    var actualModelPath: Option<string>

    function State(): ModelState
      reads this
    {
      ModelState(session, inputName, outputName, modelLoaded, actualModelPath)
    }

    ghost predicate Valid()
      reads this
    {
      StateInvariant(State()) && preprocessor == PreprocessorConfig(settings)
    }

    constructor(settings: Settings)
      ensures this.settings == settings && State() == Unloaded && Valid()
    {
      this.settings := settings;
      preprocessor := PreprocessorConfig(settings);
      session := None;
      inputName := None;
      outputName := None;
      modelLoaded := false;
      actualModelPath := None;
    }

    method LoadModel(runtime: Runtime, fileExists: string -> bool) returns (r: Result<()>)
      requires Valid()
      modifies this
      ensures Valid()
      ensures LoadOutcome(State(), r) == Load(settings, runtime, fileExists, old(State()))
      ensures r.Err? ==> r.error.ModelNotLoadedError?
      ensures modelLoaded <==> old(modelLoaded) || r.Ok?
    {
      if UsesDownload(settings) {
        var downloaded := settings.modelDownloader.value(settings.ncpModelKey.value, CachePath(settings));
        if downloaded.Err? {
          return Err(ModelNotLoadedError(DownloadFailedPrefix + downloaded.error.message));
        }
        actualModelPath := Some(downloaded.value);
      } else {
        actualModelPath := Some(settings.modelPath);
      }
      var path := actualModelPath.value;
      if !fileExists(path) {
        return Err(ModelNotLoadedError(FileNotFoundPrefix + path));
      }
      var created := runtime.createSession(path, [CpuProvider]);
      if created.Err? {
        return LoadFailed(created.error);
      }
      session := Some(created.value);
      if |created.value.inputs| == 0 {
        return LoadFailed(IndexError(IndexOutOfRange));
      }
      inputName := Some(created.value.inputs[0].name);
      if |created.value.outputs| == 0 {
        return LoadFailed(IndexError(IndexOutOfRange));
      }
      outputName := Some(created.value.outputs[0].name);
      modelLoaded := true;
      return Ok(());
    }

    method ExtractEmbedding(runtime: Runtime, pil: Pil, image: NoseImage) returns (r: Result<Embedding>)
      requires Valid()
      ensures r == Extract(settings, runtime, pil, State(), image)
      ensures !modelLoaded ==> r == Err(ModelNotLoadedError(NotLoadedMessage))
    {
      if !modelLoaded || session.None? {
        return Err(ModelNotLoadedError(NotLoadedMessage));
      }
      var inference := Infer(runtime, preprocessor, pil, session.value, inputName, outputName, image);
      if inference.Err? {
        return Err(InferenceError(ExtractionFailedPrefix + inference.error.message, Some(inference.error)));
      }
      return inference;
    }

    method IsHealthy() returns (healthy: bool)
      requires Valid()
      ensures healthy == Healthy(State())
      ensures healthy <==> modelLoaded
    {
      return modelLoaded && session.Some?;
    }

    method GetModelInfo() returns (r: Result<ModelInfo>)
      requires Valid()
      ensures r == Info(settings, State())
      ensures r.Ok? ==> r.value.Loaded() == Healthy(State())
    {
      if session.None? {
        return Ok(SessionlessInfo(settings.modelPath, settings.ncpModelKey));
      }
      var current := session.value;
      if |current.inputs| == 0 || |current.outputs| == 0 {
        return Err(IndexError(IndexOutOfRange));
      }
      return Ok(SessionInfo(modelLoaded, settings.modelPath, actualModelPath, settings.ncpModelKey,
                            inputName, ShapeText(current.inputs), outputName, ShapeText(current.outputs),
                            current.providers));
    }
  }
}
