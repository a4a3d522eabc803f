/**
  The map service as an object: the fields its handlers update in place, and
  one method per handler. Each handler is stated against the function of the
  `Editing` module that describes it, so every property proved there holds of
  the object too; the display of the history playback lives here only.
 */
module ZoneEditor {
  import opened Wrappers
  import opened Text
  import Labels
  import opened Templates
  import Translation
  import Popup
  import opened Export
  import Timeline
  import opened Editing

  /** The mode the service starts in. */
  const ConfigurationMode: string := "GPS-ALERTS-CONFIGURATION-MODE"

  /** The mode in which the recorded positions are played back. */
  const HistoryPlaybackMode: string := "GPS-HISTORY-PLAYBACK-MODE"

  /**
    What the page shows outside the zones: the map element's `data-map-mode`
    and `data-history-loaded` attributes (absent until first written), whether
    the shapes and labels, the close-replay control, the draw toolbar and the
    button container are hidden, and the timeline control (absent, or present
    and shown or not).
   */
  datatype View = View(mapMode: Option<string>, historyLoaded: Option<bool>, shapesHidden: bool,
                       closeReplayHidden: bool, timelineControl: Option<bool>, drawToolbarHidden: bool,
                       buttonsHidden: bool)

  /** The state the zone handlers leave alone: the recorded document, the mode, the view and the replay. */
  datatype Page = Page(initialGeoJsonState: Option<string>, mode: string, view: View,
                             positions: seq<Timeline.Moment>, slider: Option<Timeline.Slider>)

  /** The notification of a failed label check in each copy of the service. */
  function FailureNotice(generation: Popup.Generation, message: Outcome): Notice
  {
    match generation
    case Current => Notice(message, "danger")
    case Legacy => Notice(Value("Labels validation failed..."), "FAILURE")
  }

  /** No label is the empty string. */
  predicate NoneEmpty(labels: seq<string>)
  {
    forall j | 0 <= j < |labels| :: labels[j] != ""
  }

  lemma NoneEmptyAppend(a: seq<string>, b: seq<string>)
    ensures NoneEmpty(a + b) <==> NoneEmpty(a) && NoneEmpty(b)
  {
    if NoneEmpty(a) && NoneEmpty(b) {
      forall j | 0 <= j < |a + b| ensures (a + b)[j] != "" {
        if j >= |a| {
          assert (a + b)[j] == b[j - |a|];
        }
      }
    }
    if NoneEmpty(a + b) {
      forall j | 0 <= j < |a| ensures a[j] != "" {
        assert (a + b)[j] == a[j];
      }
      forall j | 0 <= j < |b| ensures b[j] != "" {
        assert (a + b)[|a| + j] == b[j];
      }
    }
  }

  class MapService {
    /** Which copy of the service this is. */
    const generation: Popup.Generation
    const translator: Translation.TranslationService
    /** `JSON.parse(geojson).features`, `None` where it throws. */
    const parse: string -> Option<seq<Imported>>
    /** `JSON.stringify` of a feature collection. */
    const stringify: seq<Feature> -> string
    /** The engine's rendering of a number inside a template string. */
    const numberText: real -> string
    /** The notification `_emitEvent` sends when the labels are not valid. */
    const failure: Notice

    /** The circles of the shapes group, in layer-id order, with their popups and inputs. */
    var zones: seq<Zone>
    /** Whether the circle draw tool is enabled. */
    var circleTool: bool
    /** `_initialShapes`: created events still to be absorbed without an emit. */
    var initialShapes: nat
    /** The events dispatched on `document`, in order. */
    var events: seq<string>
    /** The notifications sent, in order. */
    var notices: seq<Notice>
    /** Whether the `app-map__button` buttons carry the disabled class. */
    var buttonsDisabled: bool
    /** The next Leaflet id. */
    var nextId: nat
    /** `_initialGeoJsonState`. */
    var initialGeoJsonState: Option<string>
    /** `_mode`. */
    var mode: string
    var view: View
    /** The features of the timeline in the positions-history group. */
    var positions: seq<Timeline.Moment>
    /** The timeline slider control's settings, once one was made. */
    var slider: Option<Timeline.Slider>

    /** The editing state as the `Editing` functions see it. */
    function State(): Editor
      reads this
    {
      Editor(zones, circleTool, initialShapes, events, notices, buttonsDisabled, nextId)
    }

    /** The rest of the state. */
    function PageState(): Page
      reads this
    {
      Page(initialGeoJsonState, mode, view, positions, slider)
    }

    /** What the handlers read but never change. */
    function Context(): Env
    {
      Env(generation, translator.language, failure, numberText)
    }

    /** Whether `isMapDirty()` would answer true: the recorded document differs from the export. */
    function Dirty(): bool
      reads this
    {
      initialGeoJsonState != Some(ExportText(zones, stringify))
    }

    /**
      The constructor: no zones, the circle tool on, nothing pending, the
      configuration mode, and the failure notification of this copy (the
      translator's language never changes, so its message is fixed).
     */
    constructor(generation: Popup.Generation, translator: Translation.TranslationService,
                parse: string -> Option<seq<Imported>>, stringify: seq<Feature> -> string,
                numberText: real -> string)
      ensures this.generation == generation && this.translator == translator
      ensures this.parse == parse && this.stringify == stringify && this.numberText == numberText
      ensures failure == FailureNotice(generation, Translate(Translation.Lookup(translator.language, "zones_validation_failure"), None))
      ensures State() == Editor([], true, 0, [], [], false, 0)
      ensures PageState() == Page(None, ConfigurationMode, View(None, None, false, true, None, false, false), [], None)
    {
      var message := translator.TranslateString("zones_validation_failure", None);
      this.generation := generation;
      this.translator := translator;
      this.parse := parse;
      this.stringify := stringify;
      this.numberText := numberText;
      this.failure := FailureNotice(generation, message);
      zones := [];
      circleTool := true;
      initialShapes := 0;
      events := [];
      notices := [];
      buttonsDisabled := false;
      nextId := 0;
      initialGeoJsonState := None;
      mode := ConfigurationMode;
      view := View(None, None, false, true, None, false, false);
      positions := [];
      slider := None;
    }

    // -------------------------------------------------------------------------
    // Label checks and styles
    // -------------------------------------------------------------------------

    /** `_checkLabelsAreValid()`: no duplicate and, scanning the inputs, none empty. */
    method CheckLabelsAreValid() returns (valid: bool)
      ensures valid == Labels.LabelsAreValid(Inputs(zones))
    {
      var noDuplicates := |Labels.Duplicates(Inputs(zones))| == 0;
      var notEmpty := true;
      var i := 0;
      while i < |zones|
        invariant 0 <= i <= |zones|
        invariant notEmpty == NoneEmpty(Inputs(zones[..i]))
      {
        var tail := if zones[i].input.Some? then [zones[i].input.value.value] else [];
        assert zones[..i + 1] == zones[..i] + [zones[i]];
        InputsAppend(zones[..i], [zones[i]]);
        assert [zones[i]][1..] == [];
        assert Inputs([zones[i]]) == tail;
        assert Inputs(zones[..i + 1]) == Inputs(zones[..i]) + tail;
        NoneEmptyAppend(Inputs(zones[..i]), tail);
        assert NoneEmpty(tail) <==> !(zones[i].input.Some? && zones[i].input.value.value == "") by {
          if zones[i].input.Some? {
            assert tail[0] == zones[i].input.value.value;
          }
        }
        if zones[i].input.Some? && zones[i].input.value.value == "" {
          notEmpty := false;
        }
        i := i + 1;
      }
      assert zones[..|zones|] == zones;
      valid := notEmpty && noDuplicates;
    }

    /** `_toggleLabelsValidStyles(isValid)`: each input's mark set or cleared in turn. */
    method ToggleLabelsValidStyles(isValid: bool)
      modifies this
      ensures State() == old(State()).(zones := Styled(old(zones), isValid))
      ensures PageState() == old(PageState())
    {
      var duplicates := Labels.Duplicates(Inputs(zones));
      ghost var restyled := RestyledAll(zones, isValid, duplicates);
      var i := 0;
      while i < |zones|
        invariant 0 <= i <= |zones| == |restyled|
        invariant forall j | 0 <= j < i :: zones[j] == restyled[j]
        invariant forall j | i <= j < |zones| :: zones[j] == old(zones)[j]
        invariant State() == old(State()).(zones := zones) && PageState() == old(PageState())
      {
        zones := zones[i := Restyled(zones[i], isValid, duplicates)];
        i := i + 1;
      }
      assert zones == restyled;
    }

    /** `_emitEvent(type)`: styles and buttons by the validity, then the event or the failure notification. */
    method EmitEvent(event: string)
      modifies this
      ensures State() == Gate(old(State()), Context(), event)
      ensures PageState() == old(PageState())
    {
      var valid := CheckLabelsAreValid();
      ToggleLabelsValidStyles(valid);
      buttonsDisabled := !valid;
      if valid {
        events := events + [event];
      } else {
        notices := notices + [failure];
      }
    }

    /**
      `_onKeyUp(event)`: on Enter, blurring the label input of the zone
      `focused` runs its `onfocusout`, the saving `_labelArea` with the distance
      its popup was built with; then the marks follow the validity of the
      inputs, and the buttons stay.
     */
    method OnKeyUp(enter: bool, focused: Option<nat>)
      modifies this
      ensures State() == KeyUp(old(State()), Context(), enter, focused)
      ensures PageState() == old(PageState())
    {
      if enter && focused.Some? {
        var k := FindZone(zones, focused.value);
        if k.Some? && zones[k.value].popup.Some? {
          var committed := LabelArea(focused.value, zones[k.value].popup.value.distance, true);
        }
      }
      var valid := CheckLabelsAreValid();
      ToggleLabelsValidStyles(valid);
    }

    // -------------------------------------------------------------------------
    // Popups and the draw events
    // -------------------------------------------------------------------------

    /** The label `_initPopup` falls back on: the guessed index, spelt by the copy's rule. */
    method GuessLabel() returns (r: Option<string>)
      ensures r == DefaultLabel(Context(), Inputs(zones), |zones|)
    {
      match generation
      case Current =>
        var index := Labels.GuessZoneIndex(Inputs(zones), |zones|);
        if index.None? {
          return None;
        }
        var t := translator.TranslateString("ZONE", Some([("index", NatText(index.value))]));
        DefaultLabelIsTranslated(Context(), Inputs(zones), |zones|);
        r := Some(t.text);
      case Legacy =>
        var index := Labels.GuessZoneIndexLegacy(Inputs(zones), |zones|);
        r := if index.None? then None else Some("zone " + NatText(index.value));
    }

    /** `_initPopup(layer)` for the zone at `k`; `false` where it throws, having changed nothing. */
    method InitPopup(k: nat) returns (ok: bool)
      requires k < |zones|
      modifies this
      ensures var r := Editing.InitPopup(old(zones), k, Context());
        && ok == r.Some? && zones == (if ok then r.value else old(zones))
      ensures State() == old(State()).(zones := zones) && PageState() == old(PageState())
    {
      var zoneLabel := zones[k].properties.zoneLabel;
      if zoneLabel.None? || zoneLabel.value == "" {
        zoneLabel := GuessLabel();
        if zoneLabel.None? {
          return false;
        }
      }
      zones := zones[k := WithPopup(zones[k], Context(), zoneLabel.value)];
      ok := true;
    }

    /**
      The start of `_drawCreatedEvent`: the circle added to the group with the
      next id and its properties set, and the tool disabled at the maximum.
     */
    method AddCircle(center: Position, radius: real, imported: Option<Properties>)
      modifies this
      ensures State() == Added(old(State()), center, radius, imported)
      ensures |zones| == |old(zones)| + 1
      ensures PageState() == old(PageState())
    {
      zones := zones + [Zone(nextId, center, radius, CircleProperties(imported, radius), None, None, true)];
      nextId := nextId + 1;
      if |zones| >= MaxNumberOfCircles {
        circleTool := false;
      }
    }

    /** The end of `_drawCreatedEvent`: one pending import absorbed, or the gate passed. */
    method Settle()
      modifies this
      ensures State() == Settled(old(State()), Context())
      ensures PageState() == old(PageState())
    {
      if initialShapes > 0 {
        initialShapes := initialShapes - 1;
      } else {
        EmitEvent(MapEdited);
      }
    }

    /**
      `_drawCreatedEvent` for a circle at `center` of `radius`: added with the
      next id, the tool disabled at the maximum, the popup opened, then one
      pending import absorbed or the gate passed; `false` where it throws.
     */
    method DrawCreated(center: Position, radius: real, imported: Option<Properties>) returns (ok: bool)
      modifies this
      ensures var r := Created(old(State()), Context(), center, radius, imported);
        State() == r.editor && ok == r.completed
      ensures PageState() == old(PageState())
    {
      AddCircle(center, radius, imported);
      ok := InitPopup(|zones| - 1);
      if ok {
        Settle();
      }
    }

    /** `_drawDeletedEvent` once Leaflet has taken the `removed` layers out of the group. */
    method DrawDeleted(removed: set<nat>)
      modifies this
      ensures State() == Deleted(old(State()), Context(), removed)
      ensures PageState() == old(PageState())
    {
      zones := Remaining(zones, removed);
      if |zones| < MaxNumberOfCircles {
        circleTool := true;
      }
      EmitEvent(MapEdited);
    }

    /** `_drawEditedEvent`: only the gate. */
    method DrawEdited()
      modifies this
      ensures State() == Edited(old(State()), Context())
      ensures PageState() == old(PageState())
    {
      EmitEvent(MapEdited);
    }

    /** `_labelArea(id, distance, save)`; `false` where the zone or its input is missing. */
    method LabelArea(id: nat, distance: Popup.DistanceArg, save: bool) returns (ok: bool)
      modifies this
      ensures var r := Commit(old(State()), Context(), id, distance, save);
        State() == r.editor && ok == r.completed
      ensures PageState() == old(PageState())
    {
      var k := FindZone(zones, id);
      if k.None? || zones[k.value].input.None? {
        return false;
      }
      var zoneLabel := zones[k.value].input.value.value;
      zones := zones[k.value := Relabelled(zones[k.value], Context(), zoneLabel, distance)];
      ok := true;
      if save {
        EmitEvent(MapEdited);
      }
    }

    /** `_drawEditedResizeEvent` once Leaflet gave the circle of this id its new radius. */
    method DrawEditedResize(id: nat, radius: real) returns (ok: bool)
      modifies this
      ensures var r := Commit(old(State()).(zones := Resized(old(zones), id, radius)), Context(), id, Popup.Metres(radius), false);
        State() == r.editor && ok == r.completed
      ensures PageState() == old(PageState())
    {
      zones := Resized(zones, id, radius);
      ok := LabelArea(id, Popup.Metres(radius), false);
    }

    /** `_regenerateTooltips` (on `draw:editstop`): each circle on the map committed without saving. */
    method RegenerateTooltips() returns (ok: bool)
      modifies this
      ensures var r := RegenerateFrom(old(zones), 0, Context()); zones == r.zones && ok == r.completed
      ensures State() == old(State()).(zones := zones) && PageState() == old(PageState())
    {
      var i := 0;
      while i < |zones|
        invariant 0 <= i <= |zones|
        invariant RegenerateFrom(zones, i, Context()) == RegenerateFrom(old(zones), 0, Context())
        invariant State() == old(State()).(zones := zones) && PageState() == old(PageState())
      {
        if IsCircleOnMap(zones[i]) {
          ok := LabelArea(zones[i].id, Popup.False, false);
          if !ok {
            return;
          }
        }
        i := i + 1;
      }
      ok := true;
    }

    /**
      The `try` block of `_recoverStateBeforeDeletion` for the zone at `k`: the
      label read back from the popup text is stored and the popup opened again;
      where either throws, the layer is taken off the map.
     */
    method RecoverZone(k: nat)
      requires k < |zones|
      modifies this
      ensures zones == RecoverAt(old(zones), k, Context())
      ensures State() == old(State()).(zones := zones) && PageState() == old(PageState())
    {
      var recovered := Recovered(Context(), zones[k]);
      if recovered.None? {
        zones := zones[k := zones[k].(onMap := false)];
        return;
      }
      zones := zones[k := zones[k].(properties := zones[k].properties.(zoneLabel := recovered))];
      var shown := InitPopup(k);
      if !shown {
        zones := zones[k := zones[k].(onMap := false)];
      }
    }

    /** `_recoverStateBeforeDeletion` (on `draw:deletestop`): circles without an input get their popup back. */
    method RecoverStateBeforeDeletion()
      modifies this
      ensures zones == RecoverFrom(old(zones), 0, Context())
      ensures State() == old(State()).(zones := zones) && PageState() == old(PageState())
    {
      var i := 0;
      while i < |zones|
        invariant 0 <= i <= |zones|
        invariant RecoverFrom(zones, i, Context()) == RecoverFrom(old(zones), 0, Context())
        invariant State() == old(State()).(zones := zones) && PageState() == old(PageState())
      {
        if IsCircleOnMap(zones[i]) && zones[i].input.None? {
          RecoverZone(i);
        }
        i := i + 1;
      }
    }

    // -------------------------------------------------------------------------
    // Import, export and the recorded state
    // -------------------------------------------------------------------------

    /**
      One element of the `forEach` of `_importGeoJSON`: a point feature is
      counted, then a circle fires the created event while the tool is on,
      with Leaflet's default radius where it has none, and anything else
      throws; any other element is skipped.
     */
    method ImportFeature(f: Imported) returns (ok: bool)
      modifies this
      ensures var r := ImportOne(old(State()), Context(), f); State() == r.editor && ok == r.completed
      ensures PageState() == old(PageState())
    {
      if !(f.isFeature && f.isPoint) {
        return true;
      }
      initialShapes := initialShapes + 1;
      if f.properties.drawtype != Some(CircleType) || !circleTool {
        return false;
      }
      ok := DrawCreated(f.position, ImportedRadius(f.properties), Some(f.properties));
    }

    /** `_checkLabelsAreValid()` followed by both toggles, as at the end of an import. */
    method ApplyStyles()
      modifies this
      ensures State() == Styles(old(State()))
      ensures PageState() == old(PageState())
    {
      var valid := CheckLabelsAreValid();
      ToggleLabelsValidStyles(valid);
      buttonsDisabled := !valid;
    }

    /** `_importGeoJSON(geojson)`; `false` where a feature throws, leaving the state as far as it got. */
    method Import(geojson: Option<string>) returns (ok: bool)
      modifies this
      ensures var r := Editing.Import(old(State()), Context(), geojson, parse);
        State() == r.editor && ok == r.completed
      ensures PageState() == old(PageState())
    {
      if !TruthyText(geojson) {
        return true;
      }
      var parsed := parse(geojson.value);
      if parsed.None? {
        return true;
      }
      var features := parsed.value;
      circleTool := true;
      ghost var start := State();
      var i := 0;
      while i < |features|
        invariant 0 <= i <= |features|
        invariant ImportAll(State(), Context(), features[i..]) == ImportAll(start, Context(), features)
        invariant PageState() == old(PageState())
      {
        assert features[i..][0] == features[i] && features[i..][1..] == features[i + 1..];
        ok := ImportFeature(features[i]);
        if !ok {
          return;
        }
        i := i + 1;
      }
      ApplyStyles();
      ok := true;
    }

    /** `generateMap(el, geoJSON)`: a truthy document is recorded and imported. */
    method GenerateMap(geoJSON: Option<string>) returns (ok: bool)
      modifies this
      ensures var r := Editing.Import(old(State()), Context(), geoJSON, parse);
        State() == r.editor && ok == r.completed
      ensures PageState() == old(PageState()).(initialGeoJsonState := if TruthyText(geoJSON) then geoJSON else old(initialGeoJsonState))
    {
      if TruthyText(geoJSON) {
        initialGeoJsonState := geoJSON;
      }
      ok := Import(geoJSON);
    }

    /**
      `exportGeoJSON()`: the features of the group with the radii repaired,
      written back into the zones' shared properties, as text.
     */
    method ExportGeoJSON() returns (json: string)
      modifies this
      ensures json == ExportText(old(zones), stringify)
      ensures State() == old(State()).(zones := RepairedZones(old(zones)))
      ensures PageState() == old(PageState())
    {
      var out := Export.RepairRadii(ExportFeatures(zones), ExportLayers(zones));
      var i := 0;
      while i < |zones|
        invariant 0 <= i <= |zones| == |old(zones)| == |out|
        invariant forall j | 0 <= j < i :: zones[j] == old(zones)[j].(properties := out[j].properties)
        invariant forall j | i <= j < |zones| :: zones[j] == old(zones)[j]
        invariant State() == old(State()).(zones := zones) && PageState() == old(PageState())
      {
        zones := zones[i := zones[i].(properties := out[i].properties)];
        i := i + 1;
      }
      json := stringify(out);
    }

    /** `isMapDirty()`: the recorded document differs from a fresh export; exporting does not change the answer. */
    method IsMapDirty() returns (dirty: bool)
      modifies this
      ensures dirty == old(Dirty()) && dirty == Dirty()
      ensures State() == old(State()).(zones := RepairedZones(old(zones)))
      ensures PageState() == old(PageState())
    {
      var json := ExportGeoJSON();
      ExportStable(old(zones), stringify);
      dirty := initialGeoJsonState != Some(json);
    }

    /** `updateInitialGeoJsonState()`: the export is recorded, after which the map is not dirty. */
    method UpdateInitialGeoJsonState()
      modifies this
      ensures initialGeoJsonState == Some(ExportText(old(zones), stringify))
      ensures !Dirty()
      ensures State() == old(State()).(zones := RepairedZones(old(zones)))
      ensures PageState() == old(PageState()).(initialGeoJsonState := initialGeoJsonState)
    {
      var json := ExportGeoJSON();
      ExportStable(old(zones), stringify);
      initialGeoJsonState := Some(json);
    }

    /** `resetMap()`: every layer and label removed, then the recorded document imported again. */
    method ResetMap() returns (ok: bool)
      modifies this
      ensures var r := Editing.Import(old(State()).(zones := []), Context(), old(initialGeoJsonState), parse);
        State() == r.editor && ok == r.completed
      ensures PageState() == old(PageState())
    {
      zones := [];
      ok := Import(initialGeoJsonState);
    }

    // -------------------------------------------------------------------------
    // History playback (current copy only)
    // -------------------------------------------------------------------------

    /**
      `switchAlertsConfigurationToHistoryMode(mode, _)`: the mode recorded on the
      map element; in the playback mode the shapes, labels, draw toolbar and
      buttons are hidden, the close-replay control and any timeline control
      shown and the history marked not loaded; in any other mode the reverse,
      and the replayed positions cleared.
     */
    method SwitchMode(newMode: string)
      requires generation == Popup.Current
      modifies this
      ensures var playback := newMode == HistoryPlaybackMode;
        && mode == newMode
        && view == View(Some(newMode), if playback then Some(false) else old(view.historyLoaded), playback,
                        !playback, if old(view.timelineControl).Some? then Some(playback) else None,
                        playback, playback)
        && positions == (if playback then old(positions) else [])
      ensures State() == old(State())
      ensures initialGeoJsonState == old(initialGeoJsonState) && slider == old(slider)
    {
      mode := newMode;
      var playback := mode == HistoryPlaybackMode;
      view := view.(mapMode := Some(mode));
      if playback {
        view := view.(historyLoaded := Some(false));
      }
      view := view.(shapesHidden := playback, closeReplayHidden := !playback);
      if view.timelineControl.Some? {
        view := view.(timelineControl := Some(playback));
      }
      view := view.(drawToolbarHidden := playback, buttonsHidden := playback);
      if !playback {
        positions := [];
      }
    }

    /**
      `initTimeLine(start, end)` once the positions of the period arrived: with
      positions, the replay of their five-minute buckets under a new slider of
      one step per whole hour; without, no timeline control, no replay and a
      warning with the `no_data_for_given_period` text.
     */
    method InitTimeLine(samples: seq<Timeline.Sample>)
      requires generation == Popup.Current
      modifies this
      ensures |samples| > 0 ==>
        && positions == Timeline.Moments(samples) && slider == Some(Timeline.SliderFor(samples))
        && view == old(view).(timelineControl := Some(true), historyLoaded := Some(true))
        && notices == old(notices)
      ensures |samples| == 0 ==>
        && positions == [] && slider == old(slider)
        && view == old(view).(timelineControl := None)
        && notices == old(notices) + [Notice(Translate(Translation.Lookup(translator.language, "no_data_for_given_period"), None), "warning")]
      ensures State() == old(State()).(notices := notices)
      ensures initialGeoJsonState == old(initialGeoJsonState) && mode == old(mode)
    {
      if |samples| > 0 {
        var features := Timeline.Bucket(samples);
        view := view.(timelineControl := Some(true));
        slider := Some(Timeline.SliderFor(samples));
        positions := features;
        view := view.(historyLoaded := Some(true));
      } else {
        view := view.(timelineControl := None);
        positions := [];
        var message := translator.TranslateString("no_data_for_given_period", None);
        notices := notices + [Notice(message, "warning")];
      }
    }
  }
}
