/**
 * The model port (src/domain/repositories/model_repository.py).
 *
 * The abstract class declares three coroutines. Their outcomes, as seen by a
 * caller holding a repository in a given state, are bundled into one value:
 * the use cases take a `ModelPort` and the ONNX adapter builds one from its state.
 */
module ModelRepository {
  import opened Wrappers
  import opened Exceptions
  import opened NoseImages
  import opened Embeddings

  /**
   * The dictionary `get_model_info` returns. Without a session it has the three keys
   * loaded (always False), model_path and ncp_model_key; with one, it has all nine.
   * Shapes are the `str(...)` of the runtime's shape lists.
   */
  datatype ModelInfo =
    | SessionlessInfo(modelPath: string, ncpModelKey: Option<string>)
    | SessionInfo(
        loaded: bool,
        modelPath: string,
        actualModelPath: Option<string>,
        ncpModelKey: Option<string>,
        inputName: Option<string>,
        inputShape: string,
        outputName: Option<string>,
        outputShape: string,
        providers: seq<string>)
  {
    /** The "loaded" entry of the dictionary. */
    function Loaded(): (b: bool)
      ensures SessionlessInfo? ==> !b
      ensures SessionInfo? ==> b == loaded
    {
      if SessionlessInfo? then false else loaded
    }
  }

  /** extract_embedding, is_healthy and get_model_info, each returning or raising. */
  datatype ModelPort = ModelPort(
    extractEmbedding: NoseImage -> Result<Embedding>,
    isHealthy: Result<bool>,
    modelInfo: Result<ModelInfo>)
}
