/** The prediction rule of the Streamlit app: the model registry built at
    start-up, the texture encoding of the input form, the two label tables
    and the rule that turns a feature record into a pair of labels. */
module Prediction {

  /** The five-field feature record handed to a classifier, in the column
      order Texture, Moisture (%), Organic Matter (%), pH, Electrical
      Conductivity (dS/m). The readings only pass through, so they are reals. */
  datatype Features = Features(
    texture: int,
    moisture: real,
    organicMatter: real,
    ph: real,
    conductivity: real)

  /** A loaded classifier, seen only through its predict capability. */
  type Classifier = Features -> int

  /** The loaded models, keyed by name. */
  type Registry = map<string, Classifier>

  datatype Family = RandomForest | LogisticRegression

  /** Registry key of the family's soil-quality classifier. */
  function SoilKey(family: Family): string
  {
    match family
    case RandomForest => "rf_soil_quality"
    case LogisticRegression => "rf_soil_quality_LG"
  }

  /** Registry key of the family's industrial-use classifier. */
  function UseKey(family: Family): string
  {
    match family
    case RandomForest => "rf_industrial_use"
    case LogisticRegression => "rf_industrial_use_LG"
  }

  /** The name a history record carries for the family. */
  function FamilyName(family: Family): string
  {
    match family
    case RandomForest => "RandomForest"
    case LogisticRegression => "Logistic Regression"
  }

  /** Which file each registry key is loaded from. */
  const ModelFiles: map<string, string> := map[
    "rf_soil_quality" := "rf_soil_quality_model.pkl",
    "rf_industrial_use" := "rf_industrial_use_model.pkl",
    "rf_soil_quality_LG" := "rf_soil_quality_model_LG.pkl",
    "rf_industrial_use_LG" := "rf_industrial_use_model_LG.pkl"]

  /** Builds the registry from the model files on disk (file name to the
      classifier it holds), trying the four names in turn and skipping every
      file that does not exist. */
  method LoadModels(disk: map<string, Classifier>) returns (models: Registry)
    ensures models.Keys <= ModelFiles.Keys
    ensures forall k :: k in ModelFiles ==> (k in models <==> ModelFiles[k] in disk)
    ensures forall k :: k in models ==> models[k] == disk[ModelFiles[k]]
    ensures forall family :: IsAvailable(models, family) <==>
      ModelFiles[SoilKey(family)] in disk && ModelFiles[UseKey(family)] in disk
  {
    models := map[];
    if "rf_soil_quality_model.pkl" in disk {
      models := models["rf_soil_quality" := disk["rf_soil_quality_model.pkl"]];
    }
    if "rf_industrial_use_model.pkl" in disk {
      models := models["rf_industrial_use" := disk["rf_industrial_use_model.pkl"]];
    }
    if "rf_soil_quality_model_LG.pkl" in disk {
      models := models["rf_soil_quality_LG" := disk["rf_soil_quality_model_LG.pkl"]];
    }
    if "rf_industrial_use_model_LG.pkl" in disk {
      models := models["rf_industrial_use_LG" := disk["rf_industrial_use_model_LG.pkl"]];
    }
  }

  /** A family can predict only when both of its classifiers are loaded. */
  predicate IsAvailable(models: Registry, family: Family)
  {
    SoilKey(family) in models && UseKey(family) in models
  }

  /** The select box options, in the order they are offered. */
  const TextureOptions: seq<Texture> := [Clayey, Sandy, SandyLoam, Loamy]

  datatype Texture = Clayey | Sandy | SandyLoam | Loamy
  {
    /** The option shown in the texture select box. */
    function Name(): string
    {
      match this
      case Clayey => "Clayey"
      case Sandy => "Sandy"
      case SandyLoam => "Sandy Loam"
      case Loamy => "Loamy"
    }

    /** The integer the select box option is encoded to. */
    function Code(): int
    {
      match this
      case Clayey => 0
      case Sandy => 1
      case SandyLoam => 2
      case Loamy => 3
    }
  }

  /** The encoding is one-to-one and its range is exactly 0..3 (the i-th
      option is encoded as i), so a classifier sees four distinct texture
      values. */
  lemma TextureEncodingIsInjective()
    ensures forall t: Texture, u: Texture :: t.Code() == u.Code() ==> t == u
    ensures forall t: Texture :: 0 <= t.Code() <= 3
    ensures forall t: Texture :: t in TextureOptions
    ensures forall i :: 0 <= i < |TextureOptions| ==> TextureOptions[i].Code() == i
    ensures forall t: Texture, u: Texture :: t.Name() == u.Name() ==> t == u
  {
    forall t: Texture ensures t in TextureOptions {
      assert TextureOptions[t.Code()] == t;
    }
  }

  const SoilQualityMapping: map<int, string> := map[0 := "Poor", 1 := "Moderate", 2 := "Good"]
  const IndustrialUseMapping: map<int, string> := map[0 := "Agriculture", 1 := "Construction", 2 := "Landscaping"]

  const Unknown: string := "Unknown"
  const NotLoaded: string := "Model not loaded"

  /** A table lookup with the "Unknown" default, as dict.get(k, "Unknown"). */
  function Label(table: map<int, string>, c: int): (r: string)
    ensures c in table ==> r == table[c]
    ensures c !in table ==> r == Unknown
  {
    if c in table then table[c] else Unknown
  }

  /** The soil-quality label is total: classes 0, 1, 2 get their own
      distinct names and every other integer reads "Unknown". */
  lemma SoilQualityLabels(c: int, d: int)
    ensures Label(SoilQualityMapping, c) ==
      (if c == 0 then "Poor" else if c == 1 then "Moderate" else if c == 2 then "Good" else Unknown)
    ensures Label(SoilQualityMapping, c) == Unknown <==> c !in {0, 1, 2}
    ensures c != d && c in {0, 1, 2} ==> Label(SoilQualityMapping, c) != Label(SoilQualityMapping, d)
  {
  }

  /** The industrial-use label is total in the same way. */
  lemma IndustrialUseLabels(c: int, d: int)
    ensures Label(IndustrialUseMapping, c) ==
      (if c == 0 then "Agriculture" else if c == 1 then "Construction" else if c == 2 then "Landscaping" else Unknown)
    ensures Label(IndustrialUseMapping, c) == Unknown <==> c !in {0, 1, 2}
    ensures c != d && c in {0, 1, 2} ==> Label(IndustrialUseMapping, c) != Label(IndustrialUseMapping, d)
  {
  }

  /** The record the form builds from its inputs. */
  function FeaturesOf(texture: Texture, moisture: real, organicMatter: real, ph: real, conductivity: real): (f: Features)
    ensures f.texture == texture.Code() && 0 <= f.texture <= 3
  {
    Features(texture.Code(), moisture, organicMatter, ph, conductivity)
  }

  /** Both predict_soil_quality_industrial_use variants: the sentinel pair
      unless both classifiers of the family are loaded, otherwise each
      classifier's class mapped through its label table. */
  function Predict(models: Registry, family: Family, f: Features): (r: (string, string))
    ensures r.0 == NotLoaded <==> !IsAvailable(models, family)
    ensures r.1 == NotLoaded <==> !IsAvailable(models, family)
    ensures !IsAvailable(models, family) ==> r == (NotLoaded, NotLoaded)
    ensures IsAvailable(models, family) ==>
      (r.0 in SoilQualityMapping.Values || r.0 == Unknown) &&
      (r.1 in IndustrialUseMapping.Values || r.1 == Unknown)
  {
    if SoilKey(family) in models && UseKey(family) in models then
      var quality := models[SoilKey(family)](f);
      var use := models[UseKey(family)](f);
      (Label(SoilQualityMapping, quality), Label(IndustrialUseMapping, use))
    else
      (NotLoaded, NotLoaded)
  }

  /** A prediction reads only the two classifiers of its own family:
      registries that agree on those give the same answer. */
  lemma PredictReadsOnlyItsFamily(m1: Registry, m2: Registry, family: Family, f: Features)
    requires SoilKey(family) in m1 <==> SoilKey(family) in m2
    requires UseKey(family) in m1 <==> UseKey(family) in m2
    requires SoilKey(family) in m1 ==> m1[SoilKey(family)] == m2[SoilKey(family)]
    requires UseKey(family) in m1 ==> m1[UseKey(family)] == m2[UseKey(family)]
    ensures Predict(m1, family, f) == Predict(m2, family, f)
  {
  }

  /** With both classifiers loaded, the labels are exactly those of the
      classes the two classifiers return for the record. */
  lemma PredictWhenLoaded(models: Registry, family: Family, f: Features)
    requires IsAvailable(models, family)
    ensures Predict(models, family, f) ==
      (Label(SoilQualityMapping, models[SoilKey(family)](f)), Label(IndustrialUseMapping, models[UseKey(family)](f)))
  {
  }

  /** A worked case: Sandy Loam with the form's default readings, and
      Random Forest classifiers that answer classes 2 and 0, reads
      ("Good", "Agriculture"). */
  lemma PredictSandyLoamExample(quality: Classifier, use: Classifier)
    requires quality(FeaturesOf(SandyLoam, 20.0, 2.5, 7.0, 1.0)) == 2
    requires use(FeaturesOf(SandyLoam, 20.0, 2.5, 7.0, 1.0)) == 0
    ensures Predict(map["rf_soil_quality" := quality, "rf_industrial_use" := use],
                    RandomForest, FeaturesOf(SandyLoam, 20.0, 2.5, 7.0, 1.0)) == ("Good", "Agriculture")
  {
  }

  /** The entry appended to the prediction history. */
  datatype PredictionRecord = PredictionRecord(
    timestamp: string,
    model: string,
    texture: string,
    moisture: real,
    organicMatter: real,
    ph: real,
    conductivity: real,
    soilQuality: string,
    industrialUse: string)
}
