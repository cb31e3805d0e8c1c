/** The record normaliser and the corpus builder: one parsed measurement file
    becomes one flat record, or is skipped. */
module Normaliser {
  import opened Json
  import opened Stats
  import opened Wrappers

  const SceneKeys: set<string> :=
    {"scene_count", "transition_count", "scene_duration_mean", "scene_duration_std"}
  const CharacterKeys: set<string> :=
    {"person_count_mean", "person_count_max", "character_consistency", "entry_exit_total"}
  const VisualKeys: set<string> := {"unique_object_count", "persistent_object_count"}
  const AtmosphereKeys: set<string> := {"brightness_mean", "brightness_std", "contrast_mean"}
  const ActionKeys: set<string> := {"intensity_mean", "intensity_max", "peak_count"}
  const TemporalKeys: set<string> := {"change_score_mean", "temporal_density"}

  /** Metrics copied from a signal section with `section.get(key, 0) or 0`. */
  const PlainMetricKeys: set<string> :=
    SceneKeys + CharacterKeys + VisualKeys + AtmosphereKeys + ActionKeys + TemporalKeys

  /** Every metric column of a normalised record. */
  const MetricKeys: set<string> := PlainMetricKeys + {"objects_per_frame_mean", "dominant_colors"}

  /** The key of the raw section a plain metric is read from. */
  function SectionName(k: string): string {
    if k in SceneKeys then "scene_signals"
    else if k in CharacterKeys then "character_signals"
    else if k in VisualKeys then "visual_signals"
    else if k in AtmosphereKeys then "atmosphere_signals"
    else if k in ActionKeys then "action_signals"
    else "temporal_signals"
  }

  /** `data.get(key, {}) or {}`. None stands for the AttributeError raised by
      the following `.get` when the value is truthy but not an object. */
  function SectionOf(data: Object, key: string): (r: Option<Object>)
    ensures r.None? <==> key in data && Truthy(data[key]) && !data[key].Obj?
    ensures r.Some? ==> r.value == (if key in data && data[key].Obj? then data[key].fields else map[])
  {
    var v := Or(Get(data, key, Obj(map[])), Obj(map[]));
    if v.Obj? then Some(v.fields) else None
  }

  /** The seven sub-objects, each already defaulted to `{}`. */
  datatype Sections = Sections(
    scene: Object,
    character: Object,
    visual: Object,
    atmosphere: Object,
    action: Object,
    temporal: Object,
    metadata: Object)

  /** The seven lookups of lines 38-44. None when one of the sections is
      truthy but not an object, so that the first `.get` on it raises; the
      lookups themselves never raise, and `extract_metrics` only reaches the
      `.get`s of the six signal sections after the tier/dataset test. */
  function ReadSections(data: Object): Option<Sections> {
    var scene := SectionOf(data, "scene_signals");
    var character := SectionOf(data, "character_signals");
    var visual := SectionOf(data, "visual_signals");
    var atmosphere := SectionOf(data, "atmosphere_signals");
    var action := SectionOf(data, "action_signals");
    var temporal := SectionOf(data, "temporal_signals");
    var metadata := SectionOf(data, "metadata");
    if scene.None? || character.None? || visual.None? || atmosphere.None?
       || action.None? || temporal.None? || metadata.None?
    then None
    else Some(Sections(scene.value, character.value, visual.value, atmosphere.value,
                       action.value, temporal.value, metadata.value))
  }

  /** The section a plain metric is read from. */
  function Pick(secs: Sections, k: string): Object {
    if k in SceneKeys then secs.scene
    else if k in CharacterKeys then secs.character
    else if k in VisualKeys then secs.visual
    else if k in AtmosphereKeys then secs.atmosphere
    else if k in ActionKeys then secs.action
    else secs.temporal
  }

  lemma PickIsNamedSection(data: Object, k: string)
    requires ReadSections(data).Some?
    ensures SectionOf(data, SectionName(k)).Some?
    ensures Pick(ReadSections(data).value, k) == SectionOf(data, SectionName(k)).value
  {
    var secs := ReadSections(data).value;
    if k in SceneKeys {
      assert Pick(secs, k) == secs.scene && SectionName(k) == "scene_signals";
    } else if k in CharacterKeys {
      assert Pick(secs, k) == secs.character && SectionName(k) == "character_signals";
    } else if k in VisualKeys {
      assert Pick(secs, k) == secs.visual && SectionName(k) == "visual_signals";
    } else if k in AtmosphereKeys {
      assert Pick(secs, k) == secs.atmosphere && SectionName(k) == "atmosphere_signals";
    } else if k in ActionKeys {
      assert Pick(secs, k) == secs.action && SectionName(k) == "action_signals";
    } else {
      assert Pick(secs, k) == secs.temporal && SectionName(k) == "temporal_signals";
    }
  }

  /** `section.get(key, 0) or 0` */
  function MetricValue(section: Object, key: string): (v: Value)
    ensures key !in section || !Truthy(section[key]) ==> v == Num(0.0)
    ensures key in section && Truthy(section[key]) ==> v == section[key]
  {
    Or(Get(section, key, Num(0.0)), Num(0.0))
  }

  /** A list element numpy converts to a number: a number, or a boolean. */
  predicate IsNumeric(v: Value) {
    v.Num? || v.Bool?
  }

  /** The number numpy reads for a numeric element (`True` is 1, `False` 0). */
  function NumericValue(v: Value): real
    requires IsNumeric(v)
  {
    if v.Num? then v.x else if v.b then 1.0 else 0.0
  }

  predicate AllNumbers(items: seq<Value>) {
    forall i :: 0 <= i < |items| ==> IsNumeric(items[i])
  }

  function Numbers(items: seq<Value>): (xs: seq<real>)
    requires AllNumbers(items)
    ensures |xs| == |items| && forall i :: 0 <= i < |items| ==> xs[i] == NumericValue(items[i])
  {
    seq(|items|, i requires 0 <= i < |items| => NumericValue(items[i]))
  }

  /** `safe_mean(lst)`: 0.0 for a falsy argument, else `np.nanmean`, and 0.0
      again when numpy raises. A list of numbers and booleans has the
      arithmetic mean of their numeric values, a single number or `True` is
      its own mean. A flat list holding a null, a string or an object makes
      numpy raise, and so does a string or an object on its own. */
  function SafeMean(lst: Value): (r: real)
    ensures !Truthy(lst) ==> r == 0.0
    ensures lst.Num? ==> r == lst.x
    ensures lst.Bool? ==> r == (if lst.b then 1.0 else 0.0)
    ensures lst.Arr? && lst.items != [] && AllNumbers(lst.items) ==>
              r == Mean(Numbers(lst.items)) &&
              Min(Numbers(lst.items)) <= r <= Max(Numbers(lst.items))
    ensures lst.Arr? && (forall i :: 0 <= i < |lst.items| ==> !lst.items[i].Arr?) &&
              !AllNumbers(lst.items) ==>
              r == 0.0
    ensures lst.Str? || lst.Obj? ==> r == 0.0
  {
    if !Truthy(lst) then 0.0
    else
      match lst
      case Num(x) => x
      case Bool(_) => 1.0
      case Arr(items) =>
        if AllNumbers(items) then
          MeanBetween(Numbers(items));
          Mean(Numbers(items))
        else 0.0
      case _ => 0.0
  }

  /** `len(atmos.get('dominant_colors', []) or [])`. None stands for the
      TypeError `len` raises on a number or a boolean. */
  function DominantColors(atmosphere: Object): (n: Option<nat>)
    ensures "dominant_colors" !in atmosphere ==> n == Some(0)
    ensures "dominant_colors" in atmosphere && atmosphere["dominant_colors"].Null? ==> n == Some(0)
    ensures "dominant_colors" in atmosphere && atmosphere["dominant_colors"].Arr? ==>
              n == Some(|atmosphere["dominant_colors"].items|)
  {
    var v := Or(Get(atmosphere, "dominant_colors", Arr([])), Arr([]));
    if v.Num? || v.Bool? then None else Some(Length(v))
  }

  /** Python's `len` of a list, string or dict. */
  function Length(v: Value): nat {
    match v
    case Arr(items) => |items|
    case Str(s) => |s|
    case Obj(fields) => |fields|
    case _ => 0
  }

  /** A flat measurement record (the dict returned by `extract_metrics`). */
  datatype Record = Record(
    videoId: Value,
    fps: Value,
    frameCount: Value,
    duration: Value,
    dataset: Value,
    tier: Value,
    studyType: Value,
    sourceFps: Value,
    metrics: map<string, Value>)

  /** The outcome of `extract_metrics`: a record, `None`, or an exception. */
  datatype Extraction = Extracted(record: Record) | Rejected | Raised

  function PlainMetrics(secs: Sections): (m: map<string, Value>)
    ensures m.Keys == PlainMetricKeys
  {
    map k | k in PlainMetricKeys :: MetricValue(Pick(secs, k), k)
  }

  /** The metadata object as `extract_metrics` sees it. */
  function Meta(data: Object): Object {
    if "metadata" in data && data["metadata"].Obj? then data["metadata"].fields else map[]
  }

  /** The record is rejected exactly when the metadata section is an object
      (or falsy) and `metadata.tier` or `metadata.dataset` is missing or falsy,
      whatever the signal sections hold; a metadata section that is truthy but
      not an object raises, and so does, once the test has passed, a signal
      section of that kind or an uncountable colour list. Otherwise a record
      is extracted: it carries the file's identifiers (frame count and
      duration defaulting to 0), tier and dataset, and every metric column. */
  function ExtractMetrics(data: Object): (e: Extraction)
    ensures e.Rejected? <==>
              SectionOf(data, "metadata").Some? &&
              (!Truthy(Get(Meta(data), "tier", Null)) || !Truthy(Get(Meta(data), "dataset", Null)))
    ensures SectionOf(data, "metadata").None? ==> e.Raised?
    ensures !e.Rejected? && ReadSections(data).None? ==> e.Raised?
    ensures SectionOf(data, "metadata").Some? &&
            Truthy(Get(Meta(data), "tier", Null)) && Truthy(Get(Meta(data), "dataset", Null)) &&
            ReadSections(data).Some? && DominantColors(ReadSections(data).value.atmosphere).Some? ==>
              e.Extracted?
    ensures e.Extracted? ==>
              e.record.videoId == Get(data, "video_id", Null) && e.record.fps == Get(data, "fps", Null) &&
              e.record.frameCount == Get(data, "frame_count", Num(0.0)) &&
              e.record.duration == Get(data, "duration", Num(0.0))
    ensures e.Extracted? ==>
              ReadSections(data).Some? &&
              e.record.tier == Get(Meta(data), "tier", Null) && Truthy(e.record.tier) &&
              e.record.dataset == Get(Meta(data), "dataset", Null) && Truthy(e.record.dataset) &&
              e.record.metrics.Keys == MetricKeys
  {
    match SectionOf(data, "metadata")
    case None => Raised
    case Some(meta) =>
      var tier := Get(meta, "tier", Null);
      var dataset := Get(meta, "dataset", Null);
      if !Truthy(tier) || !Truthy(dataset) then Rejected
      else
        match ReadSections(data)
        case None => Raised
        case Some(secs) =>
          match DominantColors(secs.atmosphere)
          case None => Raised
          case Some(colours) =>
            var metrics := PlainMetrics(secs)
              ["objects_per_frame_mean" := Num(SafeMean(Get(secs.visual, "objects_per_frame", Arr([]))))]
              ["dominant_colors" := Num(colours as real)];
            Extracted(Record(
              Get(data, "video_id", Null),
              Get(data, "fps", Null),
              Get(data, "frame_count", Num(0.0)),
              Get(data, "duration", Num(0.0)),
              dataset,
              tier,
              Get(secs.metadata, "study_type", Str("core")),
              Get(secs.metadata, "source_fps", Num(0.0)),
              metrics))
  }

  /** A missing or null section, or a missing or null metric in it, reads as 0. */
  lemma MissingMetricReadsZero(data: Object, k: string)
    requires ExtractMetrics(data).Extracted? && k in PlainMetricKeys
    requires var name := SectionName(k);
             name !in data || data[name].Null? ||
             (data[name].Obj? && (k !in data[name].fields || data[name].fields[k].Null?))
    ensures ExtractMetrics(data).record.metrics[k] == Num(0.0)
  {
    PlainMetricOfRecord(data, k);
  }

  lemma ExtrasAreNotPlain()
    ensures "objects_per_frame_mean" !in PlainMetricKeys
    ensures "dominant_colors" !in PlainMetricKeys
  {
    NotAKey("objects_per_frame_mean");
    NotAKey("dominant_colors");
  }

  /** No plain metric name starts with 'd' or 'o'. */
  lemma NotAKey(k: string)
    requires |k| > 0 && (k[0] == 'd' || k[0] == 'o')
    ensures k !in SceneKeys && k !in CharacterKeys && k !in VisualKeys
    ensures k !in AtmosphereKeys && k !in ActionKeys && k !in TemporalKeys
  {
  }

  /** A plain metric of the record is the value looked up in its named section. */
  lemma PlainMetricOfRecord(data: Object, k: string)
    requires ExtractMetrics(data).Extracted? && k in PlainMetricKeys
    ensures SectionOf(data, SectionName(k)).Some?
    ensures ExtractMetrics(data).record.metrics[k] == MetricValue(SectionOf(data, SectionName(k)).value, k)
  {
    var secs := ReadSections(data).value;
    PickIsNamedSection(data, k);
    ExtrasAreNotPlain();
    assert k != "objects_per_frame_mean" && k != "dominant_colors";
    assert ExtractMetrics(data).record.metrics[k] == PlainMetrics(secs)[k];
  }

  /** A metric present in its section is copied unchanged unless it is falsy. */
  lemma PresentMetricCopied(data: Object, k: string)
    requires ExtractMetrics(data).Extracted? && k in PlainMetricKeys
    requires var name := SectionName(k);
             name in data && data[name].Obj? && k in data[name].fields && Truthy(data[name].fields[k])
    ensures ExtractMetrics(data).record.metrics[k] == data[SectionName(k)].fields[k]
  {
    PlainMetricOfRecord(data, k);
  }

  /** Every metric leaf that is a number, null or absent gives a numeric cell:
      the normalised record never holds a null metric. */
  lemma MetricsAreNumbers(data: Object)
    requires ExtractMetrics(data).Extracted?
    requires forall k :: k in PlainMetricKeys && SectionName(k) in data && data[SectionName(k)].Obj? &&
                         k in data[SectionName(k)].fields ==>
                           data[SectionName(k)].fields[k].Null? || data[SectionName(k)].fields[k].Num?
    ensures forall k :: k in ExtractMetrics(data).record.metrics ==> ExtractMetrics(data).record.metrics[k].Num?
  {
    var r := ExtractMetrics(data).record;
    forall k | k in r.metrics ensures r.metrics[k].Num? {
      if k in PlainMetricKeys {
        PlainMetricOfRecord(data, k);
      } else {
        assert k == "objects_per_frame_mean" || k == "dominant_colors";
      }
    }
  }

  /** `study_type` defaults to 'core' and `source_fps` to 0 when absent. */
  lemma MetadataDefaults(data: Object)
    requires ExtractMetrics(data).Extracted?
    ensures "study_type" !in Meta(data) ==> ExtractMetrics(data).record.studyType == Str("core")
    ensures "study_type" in Meta(data) ==> ExtractMetrics(data).record.studyType == Meta(data)["study_type"]
    ensures "source_fps" !in Meta(data) ==> ExtractMetrics(data).record.sourceFps == Num(0.0)
  {
    var r := ExtractMetrics(data).record;
    MetaIsSection(data);
    assert r.studyType == Get(Meta(data), "study_type", Str("core"));
    assert r.sourceFps == Get(Meta(data), "source_fps", Num(0.0));
  }

  /** The metadata section read by `extract_metrics` is `Meta(data)`. */
  lemma MetaIsSection(data: Object)
    requires ReadSections(data).Some?
    ensures ReadSections(data).value.metadata == Meta(data)
  {
  }

  /** `dominant_colors` is the length of the colour list, 0 when it is absent or null. */
  lemma DominantColorsIsCount(data: Object)
    requires ExtractMetrics(data).Extracted?
    ensures var atmos := SectionOf(data, "atmosphere_signals").value;
            "dominant_colors" in atmos && atmos["dominant_colors"].Arr? ==>
              ExtractMetrics(data).record.metrics["dominant_colors"] == Num(|atmos["dominant_colors"].items| as real)
    ensures var atmos := SectionOf(data, "atmosphere_signals").value;
            ("dominant_colors" !in atmos || atmos["dominant_colors"].Null?) ==>
              ExtractMetrics(data).record.metrics["dominant_colors"] == Num(0.0)
  {
  }

  /** The result of reading one file: the decoded JSON, or a read/parse failure. */
  datatype Input = Loaded(data: Value) | Unreadable

  /** One iteration of the loop body, with the `try/except` folded in: a
      decoded value that is not an object makes `data.get` raise. */
  function Normalise(f: Input): Extraction {
    match f
    case Unreadable => Raised
    case Loaded(v) => if v.Obj? then ExtractMetrics(v.fields) else Raised
  }

  /** The records kept from a sequence of files, in order. */
  function Kept(files: seq<Input>): seq<Record> {
    if files == [] then []
    else
      var init := Kept(files[..|files| - 1]);
      match Normalise(files[|files| - 1])
      case Extracted(r) => init + [r]
      case _ => init
  }

  /** The number of files skipped. */
  function Skips(files: seq<Input>): nat {
    if files == [] then 0
    else Skips(files[..|files| - 1]) + (if Normalise(files[|files| - 1]).Extracted? then 0 else 1)
  }

  /** Every file yields exactly one record or one skip. */
  lemma {:induction false} RecordsPlusSkips(files: seq<Input>)
    ensures |Kept(files)| + Skips(files) == |files|
  {
    if files != [] {
      RecordsPlusSkips(files[..|files| - 1]);
    }
  }

  /** Every kept record carries a truthy tier and dataset. */
  lemma {:induction false} KeptRecordsIdentified(files: seq<Input>)
    ensures forall r :: r in Kept(files) ==> Truthy(r.tier) && Truthy(r.dataset)
  {
    if files != [] {
      KeptRecordsIdentified(files[..|files| - 1]);
    }
  }

  lemma ProcessStep(files: seq<Input>, i: nat)
    requires i < |files|
    ensures Normalise(files[i]).Extracted? ==>
              Kept(files[..i + 1]) == Kept(files[..i]) + [Normalise(files[i]).record] &&
              Skips(files[..i + 1]) == Skips(files[..i])
    ensures !Normalise(files[i]).Extracted? ==>
              Kept(files[..i + 1]) == Kept(files[..i]) && Skips(files[..i + 1]) == Skips(files[..i]) + 1
  {
    var prefix := files[..i + 1];
    assert prefix[..i] == files[..i];
    assert prefix[i] == files[i];
  }

  /** `process_all_results` over the already-read files: it returns the
      records and the skip count it prints. */
  method ProcessAllResults(files: seq<Input>) returns (records: seq<Record>, skipped: nat)
    ensures records == Kept(files) && skipped == Skips(files)
    ensures |records| + skipped == |files|
  {
    records, skipped := [], 0;
    var i := 0;
    while i < |files|
      invariant 0 <= i <= |files|
      invariant records == Kept(files[..i]) && skipped == Skips(files[..i])
    {
      var metrics := Normalise(files[i]);
      ProcessStep(files, i);
      if metrics.Extracted? {
        records := records + [metrics.record];
      } else {
        skipped := skipped + 1;
      }
      i := i + 1;
    }
    assert files[..i] == files;
    RecordsPlusSkips(files);
  }
}
