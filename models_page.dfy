/** The model management page: the list of model versions, the detail panel of one model, and
    the per-model update check, each falling back to built-in sample data where the server
    gives none. */
module ModelsPage {
  import opened JsText
  import opened ApiClient

  const ParasiteKind := "parasite"
  const MnistKind := "mnist"

  /** A row of the model list; every field besides the three that name it may be missing. */
  datatype ModelInfo = ModelInfo(kind: string, name: string, version: string, description: Option<string>,
                                 accuracy: Option<real>, size: Option<string>, lastUpdated: Option<string>,
                                 isLatest: Option<bool>, hasUpdate: Option<bool>)

  /** The detail panel's record. */
  datatype ModelMetadata = ModelMetadata(kind: string, name: string, version: string, description: string,
                                         accuracy: real, size: string, trainingDate: string, parameters: nat,
                                         framework: string, inputShape: string, outputClasses: seq<string>,
                                         precision: real, recall: real, f1Score: real)

  /** The parts of the three responses the page reads. */
  datatype ModelsBody = ModelsBody(success: bool, models: Option<seq<ModelInfo>>)
  datatype MetadataBody = MetadataBody(success: bool, metadata: Option<ModelMetadata>)
  datatype UpdateBody = UpdateBody(success: bool, hasUpdate: Option<bool>)

  const ListErrorMessage := "Model listesi yüklenirken bir hata oluştu. API endpoint'i henüz mevcut olmayabilir."

  const ParasiteMobilenet :=
    ModelInfo(ParasiteKind, "parasite-mobilenet", "1.0.0", Some("Parazit tanı modeli - MobileNet tabanlı"),
              Some(92.5), Some("15.2 MB"), Some("2023-09-01T10:00:00Z"), Some(true), Some(false))
  const MnistConvnet :=
    ModelInfo(MnistKind, "mnist-convnet", "1.0.0", Some("El yazısı rakam tanıma modeli - CNN tabanlı"),
              Some(98.7), Some("8.5 MB"), Some("2023-08-15T14:30:00Z"), Some(true), Some(true))
  const ParasiteResnet :=
    ModelInfo(ParasiteKind, "parasite-resnet", "0.9.0", Some("Parazit tanı modeli - ResNet tabanlı (eski versiyon)"),
              Some(89.2), Some("45.8 MB"), Some("2023-07-20T09:15:00Z"), Some(false), Some(false))

  /** The sample list shown when the server answers without a list. */
  const SampleModels := [ParasiteMobilenet, MnistConvnet, ParasiteResnet]

  /** The sample list shown when the request fails. */
  const FailureModels := [ParasiteMobilenet, MnistConvnet]

  /** The failure list is the answered-without-list sample minus its older parasite model;
      in both, exactly the digit model is flagged as having an update and every model but
      the old one is the latest. */
  lemma SampleModelsAgree()
    ensures FailureModels == SampleModels[..2]
    ensures forall i :: 0 <= i < |SampleModels| ==>
              (SampleModels[i].hasUpdate == Some(true) <==> SampleModels[i].kind == MnistKind)
    ensures forall i :: 0 <= i < |SampleModels| ==>
              (SampleModels[i].isLatest == Some(true) <==> SampleModels[i].version == "1.0.0")
  {
  }

  const SampleTrainingDate := "2023-09-01T10:00:00Z"
  const SampleFramework := "TensorFlow Lite"
  const ParasiteClasses := ["Neosporosis", "Echinococcosis", "Coenurosis"]
  const DigitClasses := ["0", "1", "2", "3", "4", "5", "6", "7", "8", "9"]

  /** The sample detail record for a model the server has no record of: the model's own
      kind, name and version, and the figures of the parasite model for kind `parasite`,
      of the digit model for any other kind. */
  function SampleMetadata(kind: string, name: string, version: string): (r: ModelMetadata)
    ensures r.kind == kind && r.name == name && r.version == version
    ensures r.framework == SampleFramework && r.trainingDate == SampleTrainingDate
    ensures kind == ParasiteKind ==>
              r.accuracy == 92.5 && r.size == "15.2 MB" && r.parameters == 3200000 && r.inputShape == "224x224x3"
              && r.outputClasses == ParasiteClasses
              && r.description == "Parazit tanı modeli detayları"
              && r.precision == 0.925 && r.recall == 0.918 && r.f1Score == 0.921
    ensures kind != ParasiteKind ==>
              r.accuracy == 98.7 && r.size == "8.5 MB" && r.parameters == 1800000 && r.inputShape == "28x28x1"
              && r.outputClasses == DigitClasses
              && r.description == "MNIST rakam tanıma modeli detayları"
              && r.precision == 0.987 && r.recall == 0.985 && r.f1Score == 0.986
  {
    if kind == ParasiteKind then
      ModelMetadata(kind, name, version, "Parazit tanı modeli detayları", 92.5, "15.2 MB", SampleTrainingDate,
                    3200000, SampleFramework, "224x224x3", ParasiteClasses, 0.925, 0.918, 0.921)
    else
      ModelMetadata(kind, name, version, "MNIST rakam tanıma modeli detayları", 98.7, "8.5 MB", SampleTrainingDate,
                    1800000, SampleFramework, "28x28x1", DigitClasses, 0.987, 0.985, 0.986)
  }

  /** `${type}-${name}-${version}`: the key of a model while its update check runs. */
  function CheckKey(kind: string, name: string, version: string): (r: string)
    ensures |r| == |kind| + |name| + |version| + 2
    ensures r[..|kind|] == kind && r[|kind|] == '-' && r[|r| - |version| - 1] == '-' && r[|r| - |version|..] == version
  {
    kind + "-" + name + "-" + version
  }

  /** Kinds and versions without a dash (like `parasite`, `mnist` and `1.0.0`) make the key
      name one model only: equal keys mean equal kind, name and version. */
  lemma CheckKeyInjective(k1: string, n1: string, v1: string, k2: string, n2: string, v2: string)
    requires '-' !in k1 && '-' !in k2 && '-' !in v1 && '-' !in v2
    requires CheckKey(k1, n1, v1) == CheckKey(k2, n2, v2)
    ensures k1 == k2 && n1 == n2 && v1 == v2
  {
    var s := CheckKey(k1, n1, v1);
    var m := |s|;
    NoDashPrefix(s, k1);
    NoDashPrefix(s, k2);
    assert |k1| == |k2|;
    NoDashSuffix(s, v1);
    NoDashSuffix(s, v2);
    assert |v1| == |v2|;
    assert n1 == s[|k1| + 1..m - |v1| - 1];
    assert n2 == s[|k2| + 1..m - |v2| - 1];
  }

  /** A dash-free prefix of a key has no dash at any of its positions. */
  lemma NoDashPrefix(s: string, p: string)
    requires |p| <= |s| && s[..|p|] == p && '-' !in p
    ensures forall i :: 0 <= i < |p| ==> s[i] != '-'
  {
    forall i | 0 <= i < |p| ensures s[i] != '-' {
      assert s[i] == p[i];
    }
  }

  lemma NoDashSuffix(s: string, p: string)
    requires |p| <= |s| && s[|s| - |p|..] == p && '-' !in p
    ensures forall i :: |s| - |p| <= i < |s| ==> s[i] != '-'
  {
    forall i | |s| - |p| <= i < |s| ensures s[i] != '-' {
      assert s[i] == p[i - (|s| - |p|)];
    }
  }

  /** A dash in the kind lets two different models share a key, so a running check also
      disables the other model's button. */
  lemma CheckKeyCollides()
    ensures CheckKey("a-b", "c", "1") == CheckKey("a", "b-c", "1")
  {
  }

  /** Whether a row's check button is disabled while `checking` runs. */
  predicate CheckDisabled(checking: Option<string>, m: ModelInfo) {
    checking == Some(CheckKey(m.kind, m.name, m.version))
  }

  /** A model names the triple `(kind, name, version)`. */
  predicate SameModel(m: ModelInfo, kind: string, name: string, version: string) {
    m.kind == kind && m.name == name && m.version == version
  }

  /** The list after an update check: every row naming the checked model takes the answer's
      flag, every other row is kept, and the order is kept. */
  function UpdatedModels(models: seq<ModelInfo>, kind: string, name: string, version: string,
                         hasUpdate: Option<bool>): (r: seq<ModelInfo>)
    ensures |r| == |models|
    ensures forall i :: 0 <= i < |r| ==>
              r[i] == if SameModel(models[i], kind, name, version) then models[i].(hasUpdate := hasUpdate) else models[i]
  {
    seq(|models|, i requires 0 <= i < |models| =>
      if SameModel(models[i], kind, name, version) then models[i].(hasUpdate := hasUpdate) else models[i])
  }

  /** Taking an answer changes no field but the update flag, and taking the same answer twice
      changes nothing more; a list without the model is left as it is. */
  lemma UpdatedModelsSpec(models: seq<ModelInfo>, kind: string, name: string, version: string, hasUpdate: Option<bool>)
    ensures var r := UpdatedModels(models, kind, name, version, hasUpdate);
            (forall i :: 0 <= i < |r| ==> r[i].(hasUpdate := None) == models[i].(hasUpdate := None))
            && UpdatedModels(r, kind, name, version, hasUpdate) == r
    ensures (forall i :: 0 <= i < |models| ==> !SameModel(models[i], kind, name, version))
            ==> UpdatedModels(models, kind, name, version, hasUpdate) == models
  {
  }

  /** `getModelIcon`. */
  function ModelIcon(kind: string): (r: string)
    ensures kind == ParasiteKind ==> r == "tabler:bug"
    ensures kind == MnistKind ==> r == "tabler:numbers"
    ensures kind != ParasiteKind && kind != MnistKind ==> r == "tabler:cpu"
  {
    if kind == ParasiteKind then "tabler:bug" else if kind == MnistKind then "tabler:numbers" else "tabler:cpu"
  }

  /** `getModelColor`. */
  function ModelColor(kind: string): (r: string)
    ensures kind == ParasiteKind ==> r == "success"
    ensures kind == MnistKind ==> r == "info"
    ensures kind != ParasiteKind && kind != MnistKind ==> r == "primary"
  {
    if kind == ParasiteKind then "success" else if kind == MnistKind then "info" else "primary"
  }

  /** Icon and colour sort kinds the same way: two kinds share an icon exactly when they
      share a colour. */
  lemma IconAndColorAgree(a: string, b: string)
    ensures ModelIcon(a) == ModelIcon(b) <==> ModelColor(a) == ModelColor(b)
  {
  }

  /** The model page's state. */
  class ModelsView {
    var loading: bool
    var models: seq<ModelInfo>
    var selectedModel: Option<ModelMetadata>
    var loadingMetadata: bool
    var checkingUpdates: Option<string>
    var error: Option<string>

    constructor ()
      ensures loading && models == [] && selectedModel.None? && !loadingMetadata
      ensures checkingUpdates.None? && error.None?
    {
      loading := true;
      models := [];
      selectedModel := None;
      loadingMetadata := false;
      checkingUpdates := None;
      error := None;
    }

    /** `fetchModels`, the request settling as `outcome`: the server's list when it gives one,
        the three-model sample when it answers without one, and the two-model sample with a
        warning when the request fails. */
    method FetchModels(outcome: Outcome<ModelsBody>)
      modifies this
      ensures outcome.Ok? && outcome.data.success && outcome.data.models.Some? ==> models == outcome.data.models.value
      ensures outcome.Ok? && !(outcome.data.success && outcome.data.models.Some?) ==> models == SampleModels
      ensures outcome.Err? ==> models == FailureModels
      ensures error == if outcome.Err? then Some(ListErrorMessage) else None
      ensures !loading
      ensures selectedModel == old(selectedModel) && loadingMetadata == old(loadingMetadata)
      ensures checkingUpdates == old(checkingUpdates)
    {
      loading := true;
      error := None;
      match outcome {
        case Ok(body) =>
          if body.success && body.models.Some? {
            models := body.models.value;
          } else {
            models := SampleModels;
          }
        case Err(_) =>
          error := Some(ListErrorMessage);
          models := FailureModels;
      }
      loading := false;
    }

    /** `fetchModelMetadata`, the request settling as `outcome`: the server's record when it
        gives one, the sample record for the model when it answers without one; a failed
        request keeps the panel as it was. */
    method FetchModelMetadata(kind: string, name: string, version: string, outcome: Outcome<MetadataBody>)
      modifies this
      ensures outcome.Ok? && outcome.data.success && outcome.data.metadata.Some? ==> selectedModel == outcome.data.metadata
      ensures outcome.Ok? && !(outcome.data.success && outcome.data.metadata.Some?) ==>
                selectedModel == Some(SampleMetadata(kind, name, version))
      ensures outcome.Err? ==> selectedModel == old(selectedModel)
      ensures !loadingMetadata
      ensures models == old(models) && loading == old(loading) && checkingUpdates == old(checkingUpdates)
      ensures error == old(error)
    {
      loadingMetadata := true;
      if outcome.Ok? {
        if outcome.data.success && outcome.data.metadata.Some? {
          selectedModel := outcome.data.metadata;
        } else {
          selectedModel := Some(SampleMetadata(kind, name, version));
        }
      }
      loadingMetadata := false;
    }

    /** `checkModelUpdate`, the request settling as `outcome`. While it runs, the buttons whose
        model key is `heldKey` are disabled; a successful answer sets the update flag of the
        rows naming the model; afterwards no check runs. */
    method CheckModelUpdate(kind: string, name: string, version: string, outcome: Outcome<UpdateBody>)
      returns (heldKey: string)
      modifies this
      ensures heldKey == CheckKey(kind, name, version)
      ensures models == if outcome.Ok? && outcome.data.success
                        then UpdatedModels(old(models), kind, name, version, outcome.data.hasUpdate)
                        else old(models)
      ensures checkingUpdates.None?
      ensures loading == old(loading) && selectedModel == old(selectedModel)
      ensures loadingMetadata == old(loadingMetadata) && error == old(error)
    {
      checkingUpdates := Some(CheckKey(kind, name, version));
      heldKey := checkingUpdates.value;
      if outcome.Ok? && outcome.data.success {
        models := UpdatedModels(models, kind, name, version, outcome.data.hasUpdate);
      }
      checkingUpdates := None;
    }

    /** Closing the warning. */
    method DismissError()
      modifies this
      ensures error.None?
      ensures loading == old(loading) && models == old(models) && selectedModel == old(selectedModel)
      ensures loadingMetadata == old(loadingMetadata) && checkingUpdates == old(checkingUpdates)
    {
      error := None;
    }
  }

  /** While the check of a model with a dash-free kind and version runs, exactly the rows of
      that model are disabled among rows whose kinds and versions are dash-free too. */
  lemma CheckDisablesOnlyThatModel(m: ModelInfo, kind: string, name: string, version: string)
    requires '-' !in m.kind && '-' !in m.version && '-' !in kind && '-' !in version
    ensures CheckDisabled(Some(CheckKey(kind, name, version)), m) <==> SameModel(m, kind, name, version)
  {
    if CheckDisabled(Some(CheckKey(kind, name, version)), m) {
      CheckKeyInjective(m.kind, m.name, m.version, kind, name, version);
    }
  }
}
