/** The persisted user preferences kept under one browser storage key: validation of
    what is read back, and the save helpers that read, merge one field and write back. */
module Settings {
  import opened Js

  datatype Effort = Low | Medium | High
  datatype Summary = Auto | Detailed | NoSummary

  /** `ReasoningConfig`: how hard the model reasons and how its reasoning is summarised. */
  datatype ReasoningConfig = ReasoningConfig(effort: Effort, summary: Summary)

  /** `PersistedSettings`: every field is optional. */
  datatype PersistedSettings = PersistedSettings(
    selectedModel: Option<string>,
    reasoningConfig: Option<ReasoningConfig>,
    selectedTheme: Option<string>)

  const NoSettings: PersistedSettings := PersistedSettings(None, None, None)

  /** A JSON value as `JSON.parse` produces it (numbers are not needed here and are
      kept abstract as integers). */
  datatype Json =
    | JNull
    | JBool(b: bool)
    | JNumber(n: int)
    | JString(s: string)
    | JArray(items: seq<Json>)
    | JObject(fields: map<string, Json>)

  /** The text found under the storage key, classified by what `JSON.parse` makes of
      it: the empty string, text that does not parse, or the encoding of a value. */
  datatype StoredText = EmptyText | Malformed | Encoded(value: Json)

  // ---------------------------------------------------------------------------
  // Enum names as they appear in the JSON text

  function EffortName(e: Effort): string {
    match e
    case Low => "low"
    case Medium => "medium"
    case High => "high"
  }

  function SummaryName(s: Summary): string {
    match s
    case Auto => "auto"
    case Detailed => "detailed"
    case NoSummary => "none"
  }

  /** `['low', 'medium', 'high'].includes(v)`: only those three strings are accepted,
      and each is read back as the effort it names. */
  function ParseEffort(v: Option<Json>): (r: Option<Effort>)
    ensures r.Some? <==> v.Some? && v.value.JString? && v.value.s in {"low", "medium", "high"}
    ensures r.Some? ==> v == Some(JString(EffortName(r.value)))
  {
    if v == Some(JString("low")) then Some(Low)
    else if v == Some(JString("medium")) then Some(Medium)
    else if v == Some(JString("high")) then Some(High)
    else None
  }

  /** `['auto', 'detailed', 'none'].includes(v)`. */
  function ParseSummary(v: Option<Json>): (r: Option<Summary>)
    ensures r.Some? <==> v.Some? && v.value.JString? && v.value.s in {"auto", "detailed", "none"}
    ensures r.Some? ==> v == Some(JString(SummaryName(r.value)))
  {
    if v == Some(JString("auto")) then Some(Auto)
    else if v == Some(JString("detailed")) then Some(Detailed)
    else if v == Some(JString("none")) then Some(NoSummary)
    else None
  }

  // ---------------------------------------------------------------------------
  // Validation of a parsed value

  /** `parsed.key` for a parsed value: a property of an object, or `undefined`. */
  function Property(j: Json, key: string): Option<Json> {
    if j.JObject? && key in j.fields then Some(j.fields[key]) else None
  }

  /** The `reasoningConfig` check: present, an object, and both enums valid. */
  function ValidateReasoning(v: Option<Json>): (r: Option<ReasoningConfig>)
    ensures r.Some? <==>
      && v.Some? && v.value.JObject?
      && ParseEffort(Property(v.value, "reasoningEffort")).Some?
      && ParseSummary(Property(v.value, "reasoningSummary")).Some?
    ensures r.Some? ==>
      && Property(v.value, "reasoningEffort") == Some(JString(EffortName(r.value.effort)))
      && Property(v.value, "reasoningSummary") == Some(JString(SummaryName(r.value.summary)))
  {
    if v.None? || !v.value.JObject? then None
    else
      var e := ParseEffort(Property(v.value, "reasoningEffort"));
      var s := ParseSummary(Property(v.value, "reasoningSummary"));
      if e.Some? && s.Some? then Some(ReasoningConfig(e.value, s.value)) else None
  }

  /** The field-by-field validation of `loadSettings`: a model or theme is kept only
      when it is a string, a reasoning configuration only when both of its enums are
      valid; anything that is not an object yields no settings at all. */
  function Validate(parsed: Json): (r: PersistedSettings)
    ensures r.selectedModel.Some? <==> Property(parsed, "selectedModel").Some? && Property(parsed, "selectedModel").value.JString?
    ensures r.selectedModel.Some? ==> Property(parsed, "selectedModel") == Some(JString(r.selectedModel.value))
    ensures r.selectedTheme.Some? <==> Property(parsed, "selectedTheme").Some? && Property(parsed, "selectedTheme").value.JString?
    ensures r.selectedTheme.Some? ==> Property(parsed, "selectedTheme") == Some(JString(r.selectedTheme.value))
    ensures r.reasoningConfig == ValidateReasoning(Property(parsed, "reasoningConfig"))
    ensures !parsed.JObject? ==> r == NoSettings
  {
    var model := Property(parsed, "selectedModel");
    var theme := Property(parsed, "selectedTheme");
    PersistedSettings(
      if model.Some? && model.value.JString? then Some(model.value.s) else None,
      ValidateReasoning(Property(parsed, "reasoningConfig")),
      if theme.Some? && theme.value.JString? then Some(theme.value.s) else None)
  }

  /** `loadSettings`: no settings on the server, when nothing (or the empty string) is
      stored, or when the stored text does not parse; otherwise the validated value. */
  function LoadSettings(isBrowser: bool, slot: Option<StoredText>): (r: PersistedSettings)
    ensures !isBrowser || slot.None? || slot == Some(EmptyText) || slot == Some(Malformed) ==> r == NoSettings
    ensures isBrowser && slot.Some? && slot.value.Encoded? ==> r == Validate(slot.value.value)
  {
    if !isBrowser then NoSettings
    else match slot
      case None => NoSettings
      case Some(EmptyText) => NoSettings
      case Some(Malformed) => NoSettings
      case Some(Encoded(parsed)) => Validate(parsed)
  }

  // ---------------------------------------------------------------------------
  // Serialisation

  function ReasoningToJson(c: ReasoningConfig): Json {
    JObject(map["reasoningEffort" := JString(EffortName(c.effort)), "reasoningSummary" := JString(SummaryName(c.summary))])
  }

  /** `JSON.stringify(settings)` as a value: an object with exactly the fields that
      are present, each under its own name; absent fields are omitted. */
  function ToJson(s: PersistedSettings): (r: Json)
    ensures r.JObject?
    ensures r.fields.Keys <= {"selectedModel", "reasoningConfig", "selectedTheme"}
    ensures "selectedModel" in r.fields <==> s.selectedModel.Some?
    ensures s.selectedModel.Some? ==> r.fields["selectedModel"] == JString(s.selectedModel.value)
    ensures "reasoningConfig" in r.fields <==> s.reasoningConfig.Some?
    ensures s.reasoningConfig.Some? ==> r.fields["reasoningConfig"] == ReasoningToJson(s.reasoningConfig.value)
    ensures "selectedTheme" in r.fields <==> s.selectedTheme.Some?
    ensures s.selectedTheme.Some? ==> r.fields["selectedTheme"] == JString(s.selectedTheme.value)
  {
    var m1: map<string, Json> := if s.selectedModel.Some? then map["selectedModel" := JString(s.selectedModel.value)] else map[];
    var m2 := if s.reasoningConfig.Some? then m1["reasoningConfig" := ReasoningToJson(s.reasoningConfig.value)] else m1;
    var m3 := if s.selectedTheme.Some? then m2["selectedTheme" := JString(s.selectedTheme.value)] else m2;
    JObject(m3)
  }

  /** What is written is what is read back: validation accepts every field that
      `saveSettings` writes, unchanged. */
  lemma {:induction false} ValidateToJson(s: PersistedSettings)
    ensures Validate(ToJson(s)) == s
  {
    var j := ToJson(s);
    if s.reasoningConfig.Some? {
      var c := s.reasoningConfig.value;
      var rc := ReasoningToJson(c);
      assert Property(j, "reasoningConfig") == Some(rc);
      assert Property(rc, "reasoningEffort") == Some(JString(EffortName(c.effort)));
      assert Property(rc, "reasoningSummary") == Some(JString(SummaryName(c.summary)));
      assert ParseEffort(Some(JString(EffortName(c.effort)))) == Some(c.effort) by {
        match c.effort { case Low => case Medium => case High => }
      }
      assert ParseSummary(Some(JString(SummaryName(c.summary)))) == Some(c.summary) by {
        match c.summary { case Auto => case Detailed => case NoSummary => }
      }
    } else {
      assert "reasoningConfig" !in j.fields;
    }
  }

  // ---------------------------------------------------------------------------
  // The storage slot

  /** The `tanchat-settings` entry of the browser's local storage. */
  class SettingsStorage {
    /** `typeof window !== 'undefined'`: false while rendering on the server. */
    const isBrowser: bool
    /** The text under the key, or nothing. */
    var slot: Option<StoredText>

    constructor (isBrowser: bool, slot: Option<StoredText>)
      ensures this.isBrowser == isBrowser && this.slot == slot
    {
      this.isBrowser := isBrowser;
      this.slot := slot;
    }

    /** `loadSettings()` against the current slot. */
    function Load(): PersistedSettings
      reads this
    {
      LoadSettings(isBrowser, slot)
    }

    /** `saveSettings`: writes the encoding of `s` (nothing on the server), after which
        loading returns exactly `s`. */
    method SaveSettings(s: PersistedSettings)
      modifies this
      ensures slot == if isBrowser then Some(Encoded(ToJson(s))) else old(slot)
      ensures isBrowser ==> Load() == s
    {
      if isBrowser {
        slot := Some(Encoded(ToJson(s)));
        ValidateToJson(s);
      }
    }

    /** `clearSettings`: removes the key (nothing on the server); loading then yields
        no settings. */
    method ClearSettings()
      modifies this
      ensures slot == if isBrowser then None else old(slot)
      ensures Load() == NoSettings
    {
      if isBrowser {
        slot := None;
      }
    }

    /** `saveSelectedModel`: only the model changes; the other validated fields are kept. */
    method SaveSelectedModel(modelId: string)
      modifies this
      ensures isBrowser ==> Load() == old(Load()).(selectedModel := Some(modelId))
      ensures !isBrowser ==> slot == old(slot)
    {
      var current := Load();
      SaveSettings(current.(selectedModel := Some(modelId)));
    }

    /** `saveReasoningConfig`: only the reasoning configuration changes. */
    method SaveReasoningConfig(config: ReasoningConfig)
      modifies this
      ensures isBrowser ==> Load() == old(Load()).(reasoningConfig := Some(config))
      ensures !isBrowser ==> slot == old(slot)
    {
      var current := Load();
      SaveSettings(current.(reasoningConfig := Some(config)));
    }

    /** `saveSelectedTheme`: only the theme changes. */
    method SaveSelectedTheme(themeId: string)
      modifies this
      ensures isBrowser ==> Load() == old(Load()).(selectedTheme := Some(themeId))
      ensures !isBrowser ==> slot == old(slot)
    {
      var current := Load();
      SaveSettings(current.(selectedTheme := Some(themeId)));
    }
  }

  /** A merge helper changes one field and nothing else: starting from any slot content,
      saving a model keeps the stored reasoning configuration and theme as validated. */
  lemma SaveModelKeepsOtherFields(slot: Option<StoredText>, modelId: string)
    ensures var after := LoadSettings(true, Some(Encoded(ToJson(LoadSettings(true, slot).(selectedModel := Some(modelId))))));
      && after.selectedModel == Some(modelId)
      && after.reasoningConfig == LoadSettings(true, slot).reasoningConfig
      && after.selectedTheme == LoadSettings(true, slot).selectedTheme
  {
    ValidateToJson(LoadSettings(true, slot).(selectedModel := Some(modelId)));
  }
}
