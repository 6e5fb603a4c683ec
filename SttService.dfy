/**
 * The speech-to-text service: its configuration, the selected model size
 * and the backend name, model selection and configuration with validation,
 * the enumeration of the supported models, and the backend dispatch of
 * `transcribe` in a build without the local whisper backend.
 */
module SttService {
  import opened Common
  import opened AppConfig
  import opened CoreTypes

  /** The errors the service reports (`STTError` and the configuration's `InvalidValue`). */
  datatype ServiceError =
    | ModelNotFound(what: string)
    | BackendInit(what: string)
    | InvalidConfigValue(what: string)

  /** `STTModel`. */
  datatype SttModel = SttModel(
    name: string, size: string, file_path: string, file_size: nat, languages: seq<string>,
    version: string, downloaded: bool, download_progress: Option<real>)

  /** The model entry `get_models` lists for one supported size. */
  function ModelEntry(size: string): (m: SttModel)
    ensures m.name == "whisper-" + size && m.size == size && !m.downloaded
    ensures m.languages == SupportedLanguages && m.file_size == 0
  {
    SttModel("whisper-" + size, size, "", 0, SupportedLanguages, "1", false, None)
  }

  /** `get_models`: one entry per supported size, in the same order. */
  function GetModels(): (r: seq<SttModel>)
    ensures |r| == |SupportedSttModels|
    ensures forall i :: 0 <= i < |r| ==>
      r[i].size == SupportedSttModels[i] && r[i].name == "whisper-" + SupportedSttModels[i] && !r[i].downloaded
  {
    seq(|SupportedSttModels|, i requires 0 <= i < |SupportedSttModels| => ModelEntry(SupportedSttModels[i]))
  }

  class SttServiceState {
    var config: SttConfig
    var selected_model: string
    var backend: string

    /** The selected model is always one of the supported sizes. */
    predicate Valid()
      reads this
    {
      selected_model in SupportedSttModels
    }

    /** `STTService::new`: the default configuration, model "base", backend "local". */
    constructor ()
      ensures Valid()
      ensures config == NewSttConfig() && selected_model == "base" && backend == "local"
    {
      config := NewSttConfig();
      selected_model := NewSttConfig().model_size;
      backend := NewSttConfig().backend;
    }

    /** `select_model`: only a supported size is accepted and remembered. */
    method SelectModel(model_size: string) returns (r: Result<(), ServiceError>)
      requires Valid()
      modifies this
      ensures Valid()
      ensures r.Ok? <==> model_size in SupportedSttModels
      ensures r.Ok? ==> selected_model == model_size
      ensures r.Err? ==> r.error == ModelNotFound(model_size) && selected_model == old(selected_model)
      ensures config == old(config) && backend == old(backend)
    {
      if model_size !in SupportedSttModels {
        return Err(ModelNotFound(model_size));
      }
      selected_model := model_size;
      r := Ok(());
    }

    /**
     * `apply_config`: an unsupported model is rejected with nothing changed;
     * an unsupported language is only warned about. Otherwise the backend,
     * the selected model and the configuration are all replaced.
     */
    method ApplyConfig(cfg: SttConfig) returns (r: Result<(), ServiceError>)
      requires Valid()
      modifies this
      ensures Valid()
      ensures r.Ok? <==> cfg.model_size in SupportedSttModels
      ensures r.Ok? ==> backend == cfg.backend && selected_model == cfg.model_size && config == cfg
      ensures r.Err? ==>
        r.error == InvalidConfigValue("Unsupported STT model: " + cfg.model_size)
        && config == old(config) && selected_model == old(selected_model) && backend == old(backend)
    {
      if cfg.model_size !in SupportedSttModels {
        return Err(InvalidConfigValue("Unsupported STT model: " + cfg.model_size));
      }
      backend := cfg.backend;
      selected_model := cfg.model_size;
      config := cfg;
      r := Ok(());
    }

    /**
     * `transcribe`: dispatch on the backend name. Without the local whisper
     * backend compiled in, the "local" backend reports that the feature is
     * disabled; any other name is unsupported.
     */
    method Transcribe(audio: seq<real>) returns (r: Result<SttResult, ServiceError>)
      ensures r.Err? && r.error.BackendInit?
      ensures backend == "local" ==>
        r.error == BackendInit("local backend requested but 'local-stt' feature is disabled")
      ensures backend != "local" ==> r.error == BackendInit("Unsupported STT backend: " + backend)
    {
      if backend == "local" {
        r := Err(BackendInit("local backend requested but 'local-stt' feature is disabled"));
      } else {
        r := Err(BackendInit("Unsupported STT backend: " + backend));
      }
    }
  }

  /**
   * A new service selects "base"; selecting "huge" fails and keeps "base";
   * selecting "small" succeeds.
   */
  method SelectionScenario() returns (first: string, failed: bool, after: string)
    ensures first == "base" && failed && after == "small"
  {
    var service := new SttServiceState();
    first := service.selected_model;
    assert "huge" !in SupportedSttModels;
    var r := service.SelectModel("huge");
    failed := r.Err?;
    var _ := service.SelectModel("small");
    after := service.selected_model;
  }
}
