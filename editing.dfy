/**
  The zone-editing state of the map service as a value, and what each of its
  handlers does to it. The shapes group becomes a sequence of zones in layer-id
  order; the label input of a zone (present while its popup is open in the page)
  is a field of the zone; the circle tool, the one-shot import counter, the
  dispatched events, the notifications and the state of the action buttons
  complete the state. A handler that throws part-way is a `Run` that did not
  complete, holding the state as far as the handler got.
 */
module Editing {
  import opened Wrappers
  import opened Text
  import Labels
  import opened Templates
  import Translation
  import Popup
  import opened Export

  /** `_MAX_NUMBER_OF_CIRCLES`. */
  const MaxNumberOfCircles: nat := 10

  /** `L.Draw.Circle.TYPE`. */
  const CircleType: string := "circle"

  /** The one event type the service dispatches. */
  const MapEdited: string := "mapEdited"

  /** A label input: its value, and whether it carries the `--not-valid` class. */
  datatype LabelInput = LabelInput(value: string, invalid: bool)

  /**
    The content of a bound popup, kept as the arguments `_createPopUpContent`
    was called with: the label, the `distance` argument, and the layer's radius
    at that moment. `PopupText` renders it.
   */
  datatype Content = Content(zoneLabel: string, distance: Popup.DistanceArg, radius: real)

  /**
    A circle of the shapes group: its Leaflet id, centre and radius, its
    `feature.properties`, the content of its bound popup, its label input while
    the popup is open, and whether it is still on the map (`layer.remove()`
    takes it off the map but leaves it in the group).
   */
  datatype Zone = Zone(id: nat, center: Position, radius: real, properties: Properties,
                       popup: Option<Content>, input: Option<LabelInput>, onMap: bool)

  /** One `notify(message, level)` call. */
  datatype Notice = Notice(message: Outcome, level: string)

  /**
    What the handlers read but never change: the copy of the service, the
    translator's language, the notification the emit gate sends when the
    labels are not valid, and the engine's rendering of a number.
   */
  datatype Env = Env(generation: Popup.Generation, language: Translation.Language, failure: Notice,
                     numberText: real -> string)

  /** The state the editing handlers change. */
  datatype Editor = Editor(zones: seq<Zone>, circleTool: bool, initialShapes: nat, events: seq<string>,
                           notices: seq<Notice>, buttonsDisabled: bool, nextId: nat)

  /** The state after a handler, and whether it returned normally (`false`: it threw there). */
  datatype Run = Run(editor: Editor, completed: bool)

  /** A sequence of zones after a loop over them, and whether the loop ran to its end. */
  datatype Pass = Pass(zones: seq<Zone>, completed: bool)

  /** An element of the `features` array of an imported document. */
  datatype Imported = Imported(isFeature: bool, isPoint: bool, position: Position, properties: Properties)

  // ---------------------------------------------------------------------------
  // Ids and the label inputs of the page
  // ---------------------------------------------------------------------------

  /** Leaflet ids are handed out in increasing order, so the group lists its layers by increasing id. */
  predicate IdsIncreasing(zones: seq<Zone>, nextId: nat)
  {
    (forall i, j | 0 <= i < j < |zones| :: zones[i].id < zones[j].id)
    && forall i | 0 <= i < |zones| :: zones[i].id < nextId
  }

  /** Two zone sequences that differ at most in the fields of each zone other than its id. */
  predicate SameIds(a: seq<Zone>, b: seq<Zone>)
  {
    |a| == |b| && forall i | 0 <= i < |a| :: a[i].id == b[i].id
  }

  /** The values of `querySelectorAll('[id^="…-zone-label-"]')`: the open label inputs, in zone order. */
  function Inputs(zones: seq<Zone>): (labels: seq<string>)
    ensures |labels| <= |zones|
  {
    if |zones| == 0 then []
    else (if zones[0].input.Some? then [zones[0].input.value.value] else []) + Inputs(zones[1..])
  }

  /** The inputs of two runs of zones, one after the other. */
  lemma {:induction false} InputsAppend(a: seq<Zone>, b: seq<Zone>)
    ensures Inputs(a + b) == Inputs(a) + Inputs(b)
    decreases |a|
  {
    if |a| == 0 {
      assert a + b == b;
    } else {
      var head := if a[0].input.Some? then [a[0].input.value.value] else [];
      assert (a + b)[0] == a[0];
      assert (a + b)[1..] == a[1..] + b;
      InputsAppend(a[1..], b);
      calc {
        Inputs(a + b);
        head + Inputs(a[1..] + b);
        head + (Inputs(a[1..]) + Inputs(b));
        (head + Inputs(a[1..])) + Inputs(b);
        Inputs(a) + Inputs(b);
      }
    }
  }

  /** Zones whose open inputs hold the same values, pairwise, show the same input values. */
  lemma {:induction false} InputsSameValues(a: seq<Zone>, b: seq<Zone>)
    requires |a| == |b|
    requires forall i | 0 <= i < |a| ::
               a[i].input.Some? == b[i].input.Some? && (a[i].input.Some? ==> a[i].input.value.value == b[i].input.value.value)
    ensures Inputs(a) == Inputs(b)
    decreases |a|
  {
    if |a| > 0 {
      InputsSameValues(a[1..], b[1..]);
    }
  }

  /** The `--not-valid` flags of the open label inputs, in the same order. */
  function Marks(zones: seq<Zone>): (marks: seq<bool>)
  {
    if |zones| == 0 then []
    else (if zones[0].input.Some? then [zones[0].input.value.invalid] else []) + Marks(zones[1..])
  }

  /** `getLayer(id)`: the position of the zone with this id. */
  function FindZone(zones: seq<Zone>, id: nat): (r: Option<nat>)
    ensures r.Some? ==> r.value < |zones| && zones[r.value].id == id
    ensures r.Some? ==> forall j | 0 <= j < r.value :: zones[j].id != id
    ensures r.None? ==> forall j | 0 <= j < |zones| :: zones[j].id != id
  {
    if |zones| == 0 then None
    else if zones[0].id == id then Some(0)
    else
      match FindZone(zones[1..], id)
      case None => None
      case Some(j) => Some(j + 1)
  }

  /** A circle that `map.eachLayer` visits and whose `drawtype` is `'circle'`. */
  predicate IsCircleOnMap(z: Zone)
  {
    z.onMap && z.properties.drawtype == Some(CircleType)
  }

  // ---------------------------------------------------------------------------
  // The validity styles, the buttons and the emit gate
  // ---------------------------------------------------------------------------

  /** One input after `_toggleLabelsValidStyles(isValid)`, given the reported duplicates. */
  function Restyled(z: Zone, isValid: bool, duplicates: seq<string>): Zone
  {
    match z.input
    case None => z
    case Some(i) => z.(input := Some(i.(invalid := !isValid && Labels.MarkedInvalid(i.value, duplicates))))
  }

  function RestyledAll(zones: seq<Zone>, isValid: bool, duplicates: seq<string>): (r: seq<Zone>)
    ensures |r| == |zones|
    ensures forall i | 0 <= i < |zones| :: r[i] == Restyled(zones[i], isValid, duplicates)
  {
    seq(|zones|, i requires 0 <= i < |zones| => Restyled(zones[i], isValid, duplicates))
  }

  /**
    `_toggleLabelsValidStyles(isValid)`: the input values stay, and the marks
    become exactly `InvalidMarks` of those values — all cleared when valid, set
    on the empty and the colliding inputs otherwise. Nothing else changes.
   */
  function Styled(zones: seq<Zone>, isValid: bool): (r: seq<Zone>)
    ensures SameIds(r, zones)
    ensures forall i | 0 <= i < |zones| ::
              r[i].(input := zones[i].input) == zones[i] && r[i].input.Some? == zones[i].input.Some?
    ensures Inputs(r) == Inputs(zones)
    ensures Marks(r) == Labels.InvalidMarks(Inputs(zones), isValid)
  {
    var d := Labels.Duplicates(Inputs(zones));
    var r := RestyledAll(zones, isValid, d);
    RestyledInputs(zones, isValid, d);
    RestyledMarks(zones, isValid, d);
    r
  }

  lemma {:induction false} RestyledInputs(zones: seq<Zone>, isValid: bool, d: seq<string>)
    ensures Inputs(RestyledAll(zones, isValid, d)) == Inputs(zones)
    decreases |zones|
  {
    if |zones| > 0 {
      var r := RestyledAll(zones, isValid, d);
      RestyledInputs(zones[1..], isValid, d);
      assert r[1..] == RestyledAll(zones[1..], isValid, d);
    }
  }

  lemma {:induction false} RestyledMarks(zones: seq<Zone>, isValid: bool, d: seq<string>)
    ensures var labels := Inputs(zones);
      Marks(RestyledAll(zones, isValid, d))
      == seq(|labels|, j requires 0 <= j < |labels| => !isValid && Labels.MarkedInvalid(labels[j], d))
    decreases |zones|
  {
    if |zones| > 0 {
      var r := RestyledAll(zones, isValid, d);
      RestyledMarks(zones[1..], isValid, d);
      assert r[1..] == RestyledAll(zones[1..], isValid, d);
    }
  }

  /** `_toggleLabelsValidStyles(v)` then `_toggleButtonsState(v)` for the validity `v` of the inputs. */
  function Styles(e: Editor): (r: Editor)
  {
    var valid := Labels.LabelsAreValid(Inputs(e.zones));
    e.(zones := Styled(e.zones, valid), buttonsDisabled := !valid)
  }

  /**
    `_emitEvent(type)`: with valid labels, marks cleared, buttons enabled and
    the event dispatched; otherwise inputs marked, buttons disabled and a
    `danger` notification instead of the event.
   */
  function Gate(e: Editor, env: Env, event: string): (r: Editor)
  {
    var s := Styles(e);
    if Labels.LabelsAreValid(Inputs(e.zones)) then s.(events := e.events + [event])
    else s.(notices := e.notices + [env.failure])
  }

  // ---------------------------------------------------------------------------
  // The label popup (`_initPopup`)
  // ---------------------------------------------------------------------------

  /**
    The default label of a new zone when its properties hold none; `None` when
    computing it throws. The current copy asks the translator for the `ZONE`
    entry with the guessed index (the key it should name, where it names the
    missing `zone`: see `DefaultLabelAsWritten`); the earlier copy writes
    `zone <index>` itself.
   */
  function DefaultLabel(env: Env, labels: seq<string>, shapeCount: nat): (r: Option<string>)
    ensures env.generation == Popup.Current ==>
      (r.Some? <==> Labels.GuessZoneIndex(labels, shapeCount).Some?)
    ensures env.generation == Popup.Legacy ==>
      (r.Some? <==> Labels.GuessZoneIndexLegacy(labels, shapeCount).Some?)
  {
    match env.generation
    case Current =>
      (match Labels.GuessZoneIndex(labels, shapeCount)
       case None => None
       case Some(k) => Some(Translation.ZonePrefix(env.language) + NatText(k)))
    case Legacy =>
      (match Labels.GuessZoneIndexLegacy(labels, shapeCount)
       case None => None
       case Some(k) => Some("zone " + NatText(k)))
  }

  /**
    The default label as the current copy writes it: the lower-case key `zone`,
    which no table defines, so `undefined.split(…)` throws.
   */
  function DefaultLabelAsWritten(language: Translation.Language, labels: seq<string>, shapeCount: nat): Option<string>
  {
    match Labels.GuessZoneIndex(labels, shapeCount)
    case None => None
    case Some(k) =>
      match Translate(Translation.Lookup(language, "zone"), Some([("index", NatText(k))]))
      case Value(t) => Some(t)
      case _ => None
  }

  /** The text `_createPopUpContent(id, label, distance)` returns for a content of the zone with this id. */
  function PopupText(env: Env, id: nat, c: Content): string
  {
    Popup.PopupContent(env.generation, id, c.zoneLabel, c.distance, c.radius, env.numberText)
  }

  /** The label `_recoverStateBeforeDeletion` reads back from the zone's popup content, if it finds one. */
  function Recovered(env: Env, z: Zone): Option<string>
  {
    if z.popup.Some? then Popup.RecoverLabel(PopupText(env, z.id, z.popup.value)) else None
  }

  /** The label the popup shows: the zone's own when truthy, the default label otherwise. */
  function PopupLabel(zones: seq<Zone>, k: nat, env: Env): Option<string>
    requires k < |zones|
  {
    var own := zones[k].properties.zoneLabel;
    if own.Some? && own.value != "" then own else DefaultLabel(env, Inputs(zones), |zones|)
  }

  /** A zone whose new popup, built with `label` and no distance, is open with its fresh input. */
  function WithPopup(z: Zone, env: Env, zoneLabel: string): (r: Zone)
    ensures r.(popup := z.popup, input := z.input) == z
    ensures r.input == Some(LabelInput(zoneLabel, false)) && r.popup.Some?
  {
    z.(popup := Some(Content(zoneLabel, Popup.Undefined, z.radius)),
       input := Some(LabelInput(zoneLabel, false)))
  }

  /** `_initPopup(layer)` for the zone at `k`; `None` when the label cannot be computed. */
  function InitPopup(zones: seq<Zone>, k: nat, env: Env): (r: Option<seq<Zone>>)
    requires k < |zones|
    ensures r.Some? <==> PopupLabel(zones, k, env).Some?
    ensures r.Some? ==> SameIds(r.value, zones)
    ensures r.Some? ==> forall i | 0 <= i < |zones| ::
              r.value[i].(popup := zones[i].popup, input := zones[i].input) == zones[i]
    ensures r.Some? ==> forall i | 0 <= i < |zones| && i != k :: r.value[i] == zones[i]
  {
    match PopupLabel(zones, k, env)
    case None => None
    case Some(l) => Some(zones[k := WithPopup(zones[k], env, l)])
  }

  // ---------------------------------------------------------------------------
  // Created, deleted and edited events
  // ---------------------------------------------------------------------------

  /** `feature.properties` after `_drawCreatedEvent` and `_setFeatureProperties` for a circle. */
  function CircleProperties(imported: Option<Properties>, radius: real): Properties
  {
    var props := if imported.Some? then imported.value else Properties(None, None, None);
    props.(radius := Some(radius), drawtype := Some(CircleType))
  }

  /** Two zones that agree on everything but their popup and label input. */
  predicate SameShape(a: Zone, b: Zone)
  {
    a.id == b.id && a.center == b.center && a.radius == b.radius && a.properties == b.properties && a.onMap == b.onMap
  }

  /** The gate touches only the label inputs of the zones, the buttons, the events and the notifications. */
  lemma GateChangesOnlyMarks(e: Editor, env: Env, event: string)
    ensures var r := Gate(e, env, event);
      && |r.zones| == |e.zones|
      && (forall i | 0 <= i < |e.zones| :: r.zones[i].(input := e.zones[i].input) == e.zones[i])
      && r.circleTool == e.circleTool && r.initialShapes == e.initialShapes && r.nextId == e.nextId
      && ((r.events == e.events + [event] && r.notices == e.notices)
          || (r.events == e.events && r.notices == e.notices + [env.failure]))
  {
  }

  /** The state `_drawCreatedEvent` reaches before opening the popup: the circle added with a fresh id. */
  function Added(e: Editor, center: Position, radius: real, imported: Option<Properties>): Editor
  {
    var z := Zone(e.nextId, center, radius, CircleProperties(imported, radius), None, None, true);
    var zones := e.zones + [z];
    e.(zones := zones, nextId := e.nextId + 1,
       circleTool := if |zones| >= MaxNumberOfCircles then false else e.circleTool)
  }

  /**
    The end of `_drawCreatedEvent` once the popup is open: one pending import
    absorbed, or, with none pending, the emit gate passed. Only the inputs'
    marks, the counter, the buttons, the events and the notifications change.
   */
  function Settled(e: Editor, env: Env): (r: Editor)
    ensures |r.zones| == |e.zones| && forall i | 0 <= i < |e.zones| :: SameShape(r.zones[i], e.zones[i])
    ensures r.nextId == e.nextId && r.circleTool == e.circleTool
    ensures e.initialShapes > 0 ==>
              r.initialShapes == e.initialShapes - 1 && r.events == e.events && r.notices == e.notices
    ensures e.initialShapes == 0 ==>
              && r.initialShapes == 0
              && ((r.events == e.events + [MapEdited] && r.notices == e.notices)
                  || (r.events == e.events && r.notices == e.notices + [env.failure]))
  {
    if e.initialShapes > 0 then e.(initialShapes := e.initialShapes - 1)
    else
      GateChangesOnlyMarks(e, env, MapEdited);
      Gate(e, env, MapEdited)
  }

  /**
    `_drawCreatedEvent` for a circle at `center` of `radius`, carrying the
    imported feature's properties when it comes from an import: added to the
    group, its properties set, the tool disabled at the maximum, its popup
    opened, then one pending import absorbed or the emit gate passed.
   */
  function Created(e: Editor, env: Env, center: Position, radius: real, imported: Option<Properties>): (r: Run)
  {
    var added := Added(e, center, radius, imported);
    match InitPopup(added.zones, |added.zones| - 1, env)
    case None => Run(added, false)
    case Some(zs) => Run(Settled(added.(zones := zs), env), true)
  }

  /** The zones left once the layers with the `removed` ids are gone, in their order. */
  function Remaining(zones: seq<Zone>, removed: set<nat>): (r: seq<Zone>)
    ensures |r| <= |zones|
    ensures forall z | z in r :: z in zones && z.id !in removed
    ensures forall z | z in zones && z.id !in removed :: z in r
  {
    if |zones| == 0 then []
    else
      var rest := Remaining(zones[1..], removed);
      assert forall z | z in zones :: z == zones[0] || z in zones[1..];
      if zones[0].id in removed then rest else [zones[0]] + rest
  }

  /** `_drawDeletedEvent` once Leaflet has taken the `removed` layers out of the group. */
  function Deleted(e: Editor, env: Env, removed: set<nat>): Editor
  {
    var zones := Remaining(e.zones, removed);
    Gate(e.(zones := zones, circleTool := if |zones| < MaxNumberOfCircles then true else e.circleTool), env, MapEdited)
  }

  /** `_drawEditedEvent`: the bound `_setFeatureProperties` is never called, so only the gate runs. */
  function Edited(e: Editor, env: Env): Editor
  {
    Gate(e, env, MapEdited)
  }

  // ---------------------------------------------------------------------------
  // Label commit, resize, tooltips and recovery
  // ---------------------------------------------------------------------------

  /** The zone after `_labelArea` rewrote it with `zoneLabel` and the `distance` argument. */
  function Relabelled(z: Zone, env: Env, zoneLabel: string, distance: Popup.DistanceArg): Zone
  {
    z.(properties := z.properties.(zoneLabel := Some(zoneLabel)),
       popup := if z.popup.Some? then Some(Content(zoneLabel, distance, z.radius)) else None,
       input := if z.popup.Some? then Some(LabelInput(zoneLabel, false)) else z.input)
  }

  /**
    `_labelArea(id, distance, _)` without the save: the value of the zone's
    input becomes its label and its popup is rebuilt; `None` when there is no
    such input or zone, where the handler throws.
   */
  function LabelArea(zones: seq<Zone>, id: nat, distance: Popup.DistanceArg, env: Env): (r: Option<seq<Zone>>)
    ensures r.Some? ==> SameIds(r.value, zones)
  {
    match FindZone(zones, id)
    case None => None
    case Some(k) =>
      match zones[k].input
      case None => None
      case Some(i) => Some(zones[k := Relabelled(zones[k], env, i.value, distance)])
  }

  /** `_labelArea(id, distance, save)`: the commit, then the gate when `save`. */
  function Commit(e: Editor, env: Env, id: nat, distance: Popup.DistanceArg, save: bool): Run
  {
    match LabelArea(e.zones, id, distance, env)
    case None => Run(e, false)
    case Some(zs) => Run(if save then Gate(e.(zones := zs), env, MapEdited) else e.(zones := zs), true)
  }

  /**
    The `onfocusout` of the label input of the zone `id`, as `blur()` fires it:
    `_labelArea(id, distance, true)` with the distance the popup was built with.
    Without such an input nothing happens.
   */
  function Blurred(e: Editor, env: Env, id: nat): Editor
  {
    match FindZone(e.zones, id)
    case None => e
    case Some(k) =>
      match e.zones[k].popup
      case None => e
      case Some(c) => Commit(e, env, id, c.distance, true).editor
  }

  /**
    `_onKeyUp(event)`: Enter blurs the focused element, which for the label
    input of the zone `focused` commits its label and saves; then the marks
    follow the validity of the inputs. The buttons are left as they are.
   */
  function KeyUp(e: Editor, env: Env, enter: bool, focused: Option<nat>): Editor
  {
    var b := if enter && focused.Some? then Blurred(e, env, focused.value) else e;
    b.(zones := Styled(b.zones, Labels.LabelsAreValid(Inputs(b.zones))))
  }

  /** The zones with the one of this id given a new radius, as Leaflet's resize leaves them. */
  function Resized(zones: seq<Zone>, id: nat, radius: real): (r: seq<Zone>)
    ensures SameIds(r, zones)
  {
    match FindZone(zones, id)
    case None => zones
    case Some(k) => zones[k := zones[k].(radius := radius)]
  }

  /** `_regenerateTooltips` from the zone at `i` on: each circle on the map is committed with `false`. */
  function RegenerateFrom(zones: seq<Zone>, i: nat, env: Env): (r: Pass)
    requires i <= |zones|
    ensures SameIds(r.zones, zones)
    decreases |zones| - i
  {
    if i == |zones| then Pass(zones, true)
    else if IsCircleOnMap(zones[i]) then
      match LabelArea(zones, zones[i].id, Popup.False, env)
      case None => Pass(zones, false)
      case Some(zs) => RegenerateFrom(zs, i + 1, env)
    else RegenerateFrom(zones, i + 1, env)
  }

  /**
    The `try` block of `_recoverStateBeforeDeletion` for the zone at `k`: the
    label read back from its popup is stored and the popup opened again; when
    that throws, the layer leaves the map (the label stays stored).
   */
  function RecoverAt(zones: seq<Zone>, k: nat, env: Env): (r: seq<Zone>)
    requires k < |zones|
    ensures SameIds(r, zones)
  {
    var z := zones[k];
    var recovered := Recovered(env, z);
    match recovered
    case None => zones[k := z.(onMap := false)]
    case Some(l) =>
      var zs := zones[k := z.(properties := z.properties.(zoneLabel := Some(l)))];
      match InitPopup(zs, k, env)
      case None => zs[k := zs[k].(onMap := false)]
      case Some(r) => r
  }

  /** `_recoverStateBeforeDeletion` from the zone at `i` on: circles on the map without an input are recovered. */
  function RecoverFrom(zones: seq<Zone>, i: nat, env: Env): (r: seq<Zone>)
    requires i <= |zones|
    ensures SameIds(r, zones)
    decreases |zones| - i
  {
    if i == |zones| then zones
    else if IsCircleOnMap(zones[i]) && zones[i].input.None? then RecoverFrom(RecoverAt(zones, i, env), i + 1, env)
    else RecoverFrom(zones, i + 1, env)
  }

  // ---------------------------------------------------------------------------
  // Import (`_importGeoJSON`)
  // ---------------------------------------------------------------------------

  /**
    One element of `features`: a circle point counts one pending import and
    fires the created event with its radius, or with Leaflet's default radius
    when it has none (once the tool is off the circle draw mode is gone, so
    reading its handler throws); any other point counts one too and then
    throws, as the marker draw mode is disabled; anything else is skipped.
   */
  function ImportOne(e: Editor, env: Env, f: Imported): Run
  {
    if !(f.isFeature && f.isPoint) then Run(e, true)
    else
      var counted := e.(initialShapes := e.initialShapes + 1);
      if f.properties.drawtype == Some(CircleType) then
        if !e.circleTool then Run(counted, false)
        else Created(counted, env, f.position, ImportedRadius(f.properties), Some(f.properties))
      else Run(counted, false)
  }

  /** The `forEach` over the features, stopping at the first one that throws. */
  function ImportAll(e: Editor, env: Env, features: seq<Imported>): Run
    decreases |features|
  {
    if |features| == 0 then Run(e, true)
    else
      var first := ImportOne(e, env, features[0]);
      if !first.completed then first else ImportAll(first.editor, env, features[1..])
  }

  /** JavaScript truthiness of the document string (`undefined` is `None`). */
  predicate TruthyText(s: Option<string>)
  {
    s.Some? && s.value != ""
  }

  /**
    `_importGeoJSON(geojson)`: nothing for a falsy argument or a document that
    does not parse; otherwise the tool is enabled, the features imported, and
    the styles and buttons follow the validity of the labels.
   */
  function Import(e: Editor, env: Env, geojson: Option<string>, parse: string -> Option<seq<Imported>>): Run
  {
    if !TruthyText(geojson) then Run(e, true)
    else
      match parse(geojson.value)
      case None => Run(e, true)
      case Some(features) =>
        var all := ImportAll(e.(circleTool := true), env, features);
        if all.completed then Run(Styles(all.editor), true) else all
  }

  // ---------------------------------------------------------------------------
  // Export (`exportGeoJSON`)
  // ---------------------------------------------------------------------------

  /** `toGeoJSON()` of the group: one point feature per zone, sharing the zone's properties. */
  function ExportFeatures(zones: seq<Zone>): (fs: seq<Feature>)
    ensures |fs| == |zones|
    ensures forall i | 0 <= i < |zones| :: fs[i] == Feature(zones[i].center, zones[i].properties)
  {
    seq(|zones|, i requires 0 <= i < |zones| => Feature(zones[i].center, zones[i].properties))
  }

  /** The group's `_layers` as the repair reads them. */
  function ExportLayers(zones: seq<Zone>): (ls: seq<Layer>)
    ensures |ls| == |zones|
    ensures forall i | 0 <= i < |zones| :: ls[i] == Layer(zones[i].center, zones[i].radius)
  {
    seq(|zones|, i requires 0 <= i < |zones| => Layer(zones[i].center, zones[i].radius))
  }

  /** The zones after the export: the repaired radii land in the shared properties objects. */
  function RepairedZones(zones: seq<Zone>): (r: seq<Zone>)
    ensures SameIds(r, zones)
  {
    var out := Repaired(ExportFeatures(zones), ExportLayers(zones));
    seq(|zones|, i requires 0 <= i < |zones| => zones[i].(properties := out[i].properties))
  }

  /** The text `exportGeoJSON` returns. */
  function ExportText(zones: seq<Zone>, stringify: seq<Feature> -> string): string
  {
    stringify(Repaired(ExportFeatures(zones), ExportLayers(zones)))
  }

  // ---------------------------------------------------------------------------
  // Properties
  // ---------------------------------------------------------------------------

  /**
    The emit gate: the event is dispatched exactly when no input is empty and
    no two inputs collide once lowercased; otherwise the only trace is the
    (undefined) notification and the disabled buttons. Either way the inputs
    keep their values, the marks follow the validity, and the tool, the
    counter and the ids stay.
   */
  lemma GateEmitsOnlyWhenValid(e: Editor, env: Env, event: string)
    ensures var r, labels := Gate(e, env, event), Inputs(e.zones);
      var valid := (forall i | 0 <= i < |labels| :: labels[i] != "")
                   && (forall i, j | 0 <= i < j < |labels| :: Lower(labels[i]) != Lower(labels[j]));
      && (valid ==> r.events == e.events + [event] && r.notices == e.notices && !r.buttonsDisabled
                    && forall m | m in Marks(r.zones) :: !m)
      && (!valid ==> r.events == e.events && r.notices == e.notices + [env.failure]
                     && r.buttonsDisabled)
      && Inputs(r.zones) == labels && SameIds(r.zones, e.zones)
      && r.circleTool == e.circleTool && r.initialShapes == e.initialShapes && r.nextId == e.nextId
  {
    Labels.LabelsAreValidIff(Inputs(e.zones));
  }

  /** A label carried by the zone is shown as is; without one the current copy shows `ZONE` with the guessed index. */
  lemma PopupLabelSpec(zones: seq<Zone>, k: nat, env: Env)
    requires k < |zones|
    ensures var own := zones[k].properties.zoneLabel;
      && (own.Some? && own.value != "" ==> PopupLabel(zones, k, env) == own)
      && (env.generation == Popup.Current && (own.None? || own.value == "") ==>
          match Labels.GuessZoneIndex(Inputs(zones), |zones|)
          case None => PopupLabel(zones, k, env).None?
          case Some(n) => PopupLabel(zones, k, env) == Some(Translation.ZonePrefix(env.language) + NatText(n)))
  {
  }

  /**
    After `_initPopup` the zone's popup text gives back the label it shows, and
    its input holds that label unmarked; no other zone changes.
   */
  lemma InitPopupRoundTrip(zones: seq<Zone>, k: nat, env: Env)
    requires k < |zones| && InitPopup(zones, k, env).Some?
    requires '\n' !in PopupLabel(zones, k, env).value
    ensures var r, l := InitPopup(zones, k, env).value, PopupLabel(zones, k, env).value;
      && r[k].popup.Some? && Recovered(env, r[k]) == Some(l)
      && r[k].input == Some(LabelInput(l, false))
      && r[k].(popup := zones[k].popup, input := zones[k].input) == zones[k]
      && forall i | 0 <= i < |zones| && i != k :: r[i] == zones[i]
  {
    var l := PopupLabel(zones, k, env).value;
    Popup.RecoverLabelRoundTrip(env.generation, zones[k].id, l, Popup.Undefined, zones[k].radius, env.numberText);
  }

  /** A zone without an open input adds no value to the inputs of the page. */
  lemma {:induction false} InputsAppendClosed(zones: seq<Zone>, z: Zone)
    requires z.input.None?
    ensures Inputs(zones + [z]) == Inputs(zones)
    decreases |zones|
  {
    if |zones| > 0 {
      assert (zones + [z])[1..] == zones[1..] + [z];
      InputsAppendClosed(zones[1..], z);
    }
  }

  /** What `_drawCreatedEvent` changes beyond the added circle: only its popup and the inputs. */
  lemma CreatedFromAdded(e: Editor, env: Env, center: Position, radius: real, imported: Option<Properties>)
    ensures var r, a := Created(e, env, center, radius, imported), Added(e, center, radius, imported);
      && |r.editor.zones| == |a.zones|
      && (forall i | 0 <= i < |a.zones| :: SameShape(r.editor.zones[i], a.zones[i]))
      && r.editor.nextId == a.nextId && r.editor.circleTool == a.circleTool
      && (r.completed <==> PopupLabel(a.zones, |a.zones| - 1, env).Some?)
  {
    var a := Added(e, center, radius, imported);
    var r := Created(e, env, center, radius, imported);
    match InitPopup(a.zones, |a.zones| - 1, env)
    case None =>
      assert r.editor == a;
    case Some(zs) =>
      assert r.editor == Settled(a.(zones := zs), env);
      forall i | 0 <= i < |a.zones| ensures SameShape(r.editor.zones[i], a.zones[i]) {
        assert SameShape(zs[i], a.zones[i]);
        assert SameShape(r.editor.zones[i], zs[i]);
      }
  }

  /**
    The created circle comes last with a fresh id, its centre, its radius and
    `drawtype` `'circle'` in its properties, on top of the zones there were;
    the tool is off once there are ten circles or more.
   */
  lemma CreatedShape(e: Editor, env: Env, center: Position, radius: real, imported: Option<Properties>)
    ensures var r := Created(e, env, center, radius, imported);
      var zones, n := r.editor.zones, |e.zones|;
      && |zones| == n + 1 && r.editor.nextId == e.nextId + 1
      && (forall i | 0 <= i < n ::
            zones[i].id == e.zones[i].id && zones[i].center == e.zones[i].center
            && zones[i].radius == e.zones[i].radius && zones[i].properties == e.zones[i].properties)
      && zones[n].id == e.nextId && zones[n].center == center && zones[n].radius == radius
      && zones[n].properties == CircleProperties(imported, radius)
      && r.editor.circleTool == (if n + 1 >= MaxNumberOfCircles then false else e.circleTool)
  {
    CreatedFromAdded(e, env, center, radius, imported);
    var a := Added(e, center, radius, imported);
    var r := Created(e, env, center, radius, imported).editor;
    forall i | 0 <= i < |e.zones|
      ensures r.zones[i].id == e.zones[i].id && r.zones[i].center == e.zones[i].center
              && r.zones[i].radius == e.zones[i].radius && r.zones[i].properties == e.zones[i].properties
    {
      assert a.zones[i] == e.zones[i];
      assert SameShape(r.zones[i], a.zones[i]);
    }
    assert SameShape(r.zones[|e.zones|], a.zones[|e.zones|]);
  }

  /** The new circle's properties: its label is the imported one, if any; radius and draw type are set. */
  lemma CirclePropertiesSpec(imported: Option<Properties>, radius: real)
    ensures var p := CircleProperties(imported, radius);
      && p.radius == Some(radius) && p.drawtype == Some(CircleType)
      && p.zoneLabel == (if imported.Some? then imported.value.zoneLabel else None)
  {
  }

  /**
    The handler throws exactly when the circle has no truthy label of its own
    and no default label can be computed from the open inputs and the new count.
   */
  lemma CreatedCompletes(e: Editor, env: Env, center: Position, radius: real, imported: Option<Properties>)
    ensures var own := if imported.Some? then imported.value.zoneLabel else None;
      Created(e, env, center, radius, imported).completed
      <==> (own.Some? && own.value != "") || DefaultLabel(env, Inputs(e.zones), |e.zones| + 1).Some?
  {
    CreatedFromAdded(e, env, center, radius, imported);
    var a := Added(e, center, radius, imported);
    InputsAppendClosed(e.zones, a.zones[|e.zones|]);
    assert a.zones == e.zones + [a.zones[|e.zones|]];
  }

  /**
    The counter-or-emit rule: a pending import is absorbed without any event;
    with none pending the gate runs; a throw leaves the counter, the events
    and the notifications alone.
   */
  lemma CreatedCounter(e: Editor, env: Env, center: Position, radius: real, imported: Option<Properties>)
    ensures var r := Created(e, env, center, radius, imported);
      && (r.completed && e.initialShapes > 0 ==>
            r.editor.initialShapes == e.initialShapes - 1 && r.editor.events == e.events && r.editor.notices == e.notices)
      && (r.completed && e.initialShapes == 0 ==>
            r.editor.initialShapes == 0
            && ((r.editor.events == e.events + [MapEdited] && r.editor.notices == e.notices)
                || (r.editor.events == e.events && r.editor.notices == e.notices + [env.failure])))
      && (!r.completed ==>
            r.editor.initialShapes == e.initialShapes && r.editor.events == e.events && r.editor.notices == e.notices)
  {
  }

  /** Creation keeps the ids increasing and below the next one. */
  lemma CreatedKeepsIds(e: Editor, env: Env, center: Position, radius: real, imported: Option<Properties>)
    requires IdsIncreasing(e.zones, e.nextId)
    ensures var r := Created(e, env, center, radius, imported).editor; IdsIncreasing(r.zones, r.nextId)
  {
    CreatedShape(e, env, center, radius, imported);
  }

  /**
    Deletion keeps exactly the zones whose ids were not removed, in order;
    fewer than ten left turns the tool back on; the gate runs.
   */
  lemma DeletedSpec(e: Editor, env: Env, removed: set<nat>)
    requires IdsIncreasing(e.zones, e.nextId)
    ensures var r, left := Deleted(e, env, removed), Remaining(e.zones, removed);
      && SameIds(r.zones, left)
      && (forall i | 0 <= i < |r.zones| :: r.zones[i].id !in removed)
      && (forall z | z in e.zones && z.id !in removed :: exists i | 0 <= i < |r.zones| :: r.zones[i].id == z.id)
      && (|left| < MaxNumberOfCircles ==> r.circleTool)
      && (|left| >= MaxNumberOfCircles ==> r.circleTool == e.circleTool)
      && IdsIncreasing(r.zones, r.nextId)
  {
    var left := Remaining(e.zones, removed);
    RemainingKeepsIds(e.zones, removed, e.nextId);
    var mid := e.(zones := left, circleTool := if |left| < MaxNumberOfCircles then true else e.circleTool);
    var r := Deleted(e, env, removed);
    assert r == Gate(mid, env, MapEdited);
    GateKeepsIds(mid, env, MapEdited);
    forall i | 0 <= i < |r.zones| ensures r.zones[i].id !in removed {
      assert left[i] in left;
    }
    forall z | z in e.zones && z.id !in removed ensures exists i | 0 <= i < |r.zones| :: r.zones[i].id == z.id {
      var i :| 0 <= i < |left| && left[i] == z;
      assert r.zones[i].id == z.id;
    }
  }

  /** The gate keeps the ids in order, the counter and the tool. */
  lemma GateKeepsIds(e: Editor, env: Env, event: string)
    requires IdsIncreasing(e.zones, e.nextId)
    ensures var r := Gate(e, env, event);
      && SameIds(r.zones, e.zones)
      && r.circleTool == e.circleTool && r.nextId == e.nextId
      && IdsIncreasing(r.zones, r.nextId)
  {
    GateChangesOnlyMarks(e, env, event);
    var r := Gate(e, env, event);
    forall i | 0 <= i < |e.zones| ensures r.zones[i].id == e.zones[i].id {
      assert r.zones[i].(input := e.zones[i].input) == e.zones[i];
    }
  }

  /** The zones left by a deletion are a subsequence, so their ids still increase. */
  lemma {:induction false} RemainingKeepsIds(zones: seq<Zone>, removed: set<nat>, nextId: nat)
    requires IdsIncreasing(zones, nextId)
    ensures IdsIncreasing(Remaining(zones, removed), nextId)
    ensures forall z | z in Remaining(zones, removed) :: |zones| > 0 && z.id >= zones[0].id
    decreases |zones|
  {
    if |zones| > 0 {
      var rest := Remaining(zones[1..], removed);
      RemainingKeepsIds(zones[1..], removed, nextId);
      assert forall z | z in zones[1..] :: z.id > zones[0].id;
      if zones[0].id in removed {
        assert Remaining(zones, removed) == rest;
      } else {
        assert Remaining(zones, removed) == [zones[0]] + rest;
        ConsKeepsIds(zones[0], rest, nextId);
      }
    }
  }

  /** A zone put in front of increasing ids below its own keeps them increasing. */
  lemma ConsKeepsIds(z: Zone, rest: seq<Zone>, nextId: nat)
    requires z.id < nextId && IdsIncreasing(rest, nextId)
    requires forall y | y in rest :: y.id > z.id
    ensures IdsIncreasing([z] + rest, nextId)
  {
    var r := [z] + rest;
    forall a, b | 0 <= a < b < |r| ensures r[a].id < r[b].id {
      assert r[b] == rest[b - 1];
      if a > 0 {
        assert r[a] == rest[a - 1];
      }
    }
  }

  /** An edit batch changes no zone but for the marks: properties, centres, radii and popups stay. */
  lemma EditedKeepsProperties(e: Editor, env: Env)
    ensures var r := Edited(e, env);
      SameIds(r.zones, e.zones)
      && forall i | 0 <= i < |e.zones| ::
           r.zones[i].properties == e.zones[i].properties && r.zones[i].center == e.zones[i].center
           && r.zones[i].radius == e.zones[i].radius && r.zones[i].popup == e.zones[i].popup
  {
  }

  /**
    A label commit succeeds exactly when the zone with that id has an open
    input; the zone's label becomes the input's value, its popup text gives it
    back, and no other zone changes.
   */
  lemma LabelAreaSpec(zones: seq<Zone>, id: nat, distance: Popup.DistanceArg, env: Env)
    ensures var r := LabelArea(zones, id, distance, env);
      && (r.Some? <==> exists k | 0 <= k < |zones| && zones[k].id == id ::
                         (forall j | 0 <= j < k :: zones[j].id != id) && zones[k].input.Some?)
      && (r.Some? ==>
            var k := FindZone(zones, id).value;
            var l := zones[k].input.value.value;
            && r.value[k].properties.zoneLabel == Some(l)
            && r.value[k].properties.(zoneLabel := zones[k].properties.zoneLabel) == zones[k].properties
            && (zones[k].popup.Some? && '\n' !in l ==> Recovered(env, r.value[k]) == Some(l))
            && (forall i | 0 <= i < |zones| && i != k :: r.value[i] == zones[i]))
  {
    var r := LabelArea(zones, id, distance, env);
    match FindZone(zones, id)
    case None =>
      assert r.None?;
    case Some(k) =>
      if r.Some? {
        assert zones[k].input.Some?;
      } else {
        forall k' | 0 <= k' < |zones| && zones[k'].id == id && (forall j | 0 <= j < k' :: zones[j].id != id)
          ensures zones[k'].input.None?
        {
          assert k' == k;
        }
      }
      match zones[k].input
      case None =>
      case Some(i) =>
        assert r == Some(zones[k := Relabelled(zones[k], env, i.value, distance)]);
        if zones[k].popup.Some? && '\n' !in i.value {
          Popup.RecoverLabelRoundTrip(env.generation, id, i.value, distance, zones[k].radius, env.numberText);
        }
  }

  /** Only a commit with `save` reaches the gate: without it no event and no notification. */
  lemma CommitWithoutSave(e: Editor, env: Env, id: nat, distance: Popup.DistanceArg)
    ensures var r := Commit(e, env, id, distance, false);
      r.editor.events == e.events && r.editor.notices == e.notices && r.editor.buttonsDisabled == e.buttonsDisabled
  {
  }

  /**
    The blur of the label input of the zone `id`: the input values stay, the
    ids, the tool and the counter too. With an open input and popup, the zone
    takes the input's value as label and the map is saved: `mapEdited` is
    dispatched exactly when the labels are valid, and the failure notification
    shown otherwise; no other zone changes but for its mark. Without them
    nothing happens.
   */
  lemma BlurredSpec(e: Editor, env: Env, id: nat)
    ensures var b, labels, k := Blurred(e, env, id), Inputs(e.zones), FindZone(e.zones, id);
      var valid := Labels.LabelsAreValid(labels);
      && Inputs(b.zones) == labels && SameIds(b.zones, e.zones)
      && b.circleTool == e.circleTool && b.initialShapes == e.initialShapes && b.nextId == e.nextId
      && if k.Some? && e.zones[k.value].input.Some? && e.zones[k.value].popup.Some? then
           && b.zones[k.value].properties.zoneLabel == Some(e.zones[k.value].input.value.value)
           && (forall i | 0 <= i < |e.zones| && i != k.value :: b.zones[i].(input := e.zones[i].input) == e.zones[i])
           && (valid ==> b.events == e.events + [MapEdited] && b.notices == e.notices && !b.buttonsDisabled)
           && (!valid ==> b.events == e.events && b.notices == e.notices + [env.failure] && b.buttonsDisabled)
         else b == e
  {
    var k := FindZone(e.zones, id);
    if k.Some? && e.zones[k.value].input.Some? && e.zones[k.value].popup.Some? {
      var z := e.zones[k.value];
      var zs := e.zones[k.value := Relabelled(z, env, z.input.value.value, z.popup.value.distance)];
      assert LabelArea(e.zones, id, z.popup.value.distance, env) == Some(zs);
      InputsSameValues(zs, e.zones);
      assert Blurred(e, env, id) == Gate(e.(zones := zs), env, MapEdited);
      GateChangesOnlyMarks(e.(zones := zs), env, MapEdited);
    } else if k.Some? && e.zones[k.value].popup.Some? {
      assert LabelArea(e.zones, id, e.zones[k.value].popup.value.distance, env).None?;
    }
  }

  /**
    A key released in a label input: the values of the inputs stay and their
    marks follow the validity of those values; the ids, the tool and the
    counter stay. Without Enter, or without a focused label input, nothing
    else changes; with Enter the focused input is blurred as `BlurredSpec`
    describes.
   */
  lemma KeyUpSpec(e: Editor, env: Env, enter: bool, focused: Option<nat>)
    ensures var r, labels := KeyUp(e, env, enter, focused), Inputs(e.zones);
      var valid := Labels.LabelsAreValid(labels);
      && Inputs(r.zones) == labels && Marks(r.zones) == Labels.InvalidMarks(labels, valid)
      && SameIds(r.zones, e.zones)
      && r.circleTool == e.circleTool && r.initialShapes == e.initialShapes && r.nextId == e.nextId
      && (!enter || focused.None? ==> r == e.(zones := Styled(e.zones, valid)))
      && (enter && focused.Some? ==> r == (var b := Blurred(e, env, focused.value); b.(zones := Styled(b.zones, valid))))
  {
    if enter && focused.Some? {
      BlurredSpec(e, env, focused.value);
    }
  }

  /**
    `_drawEditedResizeEvent` after Leaflet's resize: it completes exactly when
    the zone of that id has an open input. Then that zone has the new radius,
    its input's value as label and, where it has a popup, one rebuilt with that
    label and the new radius as distance; nothing is dispatched or notified and
    no other zone changes.
   */
  lemma ResizedCommit(e: Editor, env: Env, id: nat, radius: real)
    ensures var r, k := Commit(e.(zones := Resized(e.zones, id, radius)), env, id, Popup.Metres(radius), false),
                        FindZone(e.zones, id);
      && (r.completed <==> k.Some? && e.zones[k.value].input.Some?)
      && r.editor.events == e.events && r.editor.notices == e.notices && r.editor.buttonsDisabled == e.buttonsDisabled
      && (r.completed ==>
            var z := e.zones[k.value];
            var l := z.input.value.value;
            && r.editor.zones[k.value].radius == radius && r.editor.zones[k.value].center == z.center
            && r.editor.zones[k.value].properties == z.properties.(zoneLabel := Some(l))
            && (z.popup.Some? ==> r.editor.zones[k.value].popup == Some(Content(l, Popup.Metres(radius), radius)))
            && (forall j | 0 <= j < |e.zones| && j != k.value :: r.editor.zones[j] == e.zones[j]))
      && (!r.completed ==> r.editor == e.(zones := Resized(e.zones, id, radius)))
  {
    var zs := Resized(e.zones, id, radius);
    match FindZone(e.zones, id)
    case None =>
      assert FindZone(zs, id).None?;
    case Some(k) =>
      assert zs == e.zones[k := e.zones[k].(radius := radius)];
      assert FindZone(zs, id) == Some(k);
  }

  /**
    What `_labelArea(id, false, false)` makes of the zone `z` as `r`: `z` has
    an open input, whose value becomes the label; where there is a popup it is
    rebuilt with that label, no distance and the zone's radius, and the input
    is open again unmarked. Nothing else changes.
   */
  predicate RegeneratedZone(z: Zone, r: Zone)
  {
    && z.input.Some?
    && var l := z.input.value.value;
    && r.properties == z.properties.(zoneLabel := Some(l))
    && r.popup == (if z.popup.Some? then Some(Content(l, Popup.False, z.radius)) else None)
    && r.input == (if z.popup.Some? then Some(LabelInput(l, false)) else z.input)
    && r.(properties := z.properties, popup := z.popup, input := z.input) == z
  }

  /**
    `_regenerateTooltips` from the zone at `i` on, over zones with distinct
    ids: it runs to its end exactly when every circle on the map from `i` on
    has an open input. Then each of those circles is regenerated as
    `RegeneratedZone` says, and every other zone stays.
   */
  lemma {:induction false} RegenerateSpec(zones: seq<Zone>, i: nat, env: Env, nextId: nat)
    requires i <= |zones| && IdsIncreasing(zones, nextId)
    ensures var r := RegenerateFrom(zones, i, env);
      r.completed <==> forall j | i <= j < |zones| && IsCircleOnMap(zones[j]) :: zones[j].input.Some?
    ensures var r := RegenerateFrom(zones, i, env);
      r.completed ==> forall j | 0 <= j < |zones| && !(i <= j && IsCircleOnMap(zones[j])) :: r.zones[j] == zones[j]
    ensures var r := RegenerateFrom(zones, i, env);
      r.completed ==> forall j | i <= j < |zones| && IsCircleOnMap(zones[j]) :: RegeneratedZone(zones[j], r.zones[j])
    decreases |zones| - i, 1
  {
    if i < |zones| {
      if IsCircleOnMap(zones[i]) {
        RegenerateSpecAt(zones, i, env, nextId);
      } else {
        RegenerateSpecSkip(zones, i, env, nextId);
      }
    }
  }

  /** `RegenerateSpec` where the zone at `i` is a circle on the map. */
  lemma {:induction false} RegenerateSpecAt(zones: seq<Zone>, i: nat, env: Env, nextId: nat)
    requires i < |zones| && IdsIncreasing(zones, nextId) && IsCircleOnMap(zones[i])
    ensures var r := RegenerateFrom(zones, i, env);
      r.completed <==> forall j | i <= j < |zones| && IsCircleOnMap(zones[j]) :: zones[j].input.Some?
    ensures var r := RegenerateFrom(zones, i, env);
      r.completed ==> forall j | 0 <= j < |zones| && !(i <= j && IsCircleOnMap(zones[j])) :: r.zones[j] == zones[j]
    ensures var r := RegenerateFrom(zones, i, env);
      r.completed ==> forall j | i <= j < |zones| && IsCircleOnMap(zones[j]) :: RegeneratedZone(zones[j], r.zones[j])
    decreases |zones| - i, 0
  {
    assert FindZone(zones, zones[i].id) == Some(i);
    if zones[i].input.None? {
      assert !RegenerateFrom(zones, i, env).completed;
    } else {
      var zs := zones[i := Relabelled(zones[i], env, zones[i].input.value.value, Popup.False)];
      assert LabelArea(zones, zones[i].id, Popup.False, env) == Some(zs);
      assert RegenerateFrom(zones, i, env) == RegenerateFrom(zs, i + 1, env);
      RegenerateSpec(zs, i + 1, env, nextId);
      RegenerateSpecCommitted(zones, zs, i, env, RegenerateFrom(zs, i + 1, env));
    }
  }

  /** The step of `RegenerateSpecAt` where the circle at `i` has an open input, is committed as `zs`, and the rest gives `r`. */
  lemma RegenerateSpecCommitted(zones: seq<Zone>, zs: seq<Zone>, i: nat, env: Env, r: Pass)
    requires i < |zones| && IsCircleOnMap(zones[i]) && zones[i].input.Some?
    requires zs == zones[i := Relabelled(zones[i], env, zones[i].input.value.value, Popup.False)]
    requires |r.zones| == |zs|
    requires r.completed <==> forall j | i + 1 <= j < |zs| && IsCircleOnMap(zs[j]) :: zs[j].input.Some?
    requires r.completed ==> forall j | 0 <= j < |zs| && !(i + 1 <= j && IsCircleOnMap(zs[j])) :: r.zones[j] == zs[j]
    requires r.completed ==> forall j | i + 1 <= j < |zs| && IsCircleOnMap(zs[j]) :: RegeneratedZone(zs[j], r.zones[j])
    ensures r.completed <==> forall j | i <= j < |zones| && IsCircleOnMap(zones[j]) :: zones[j].input.Some?
    ensures r.completed ==> forall j | 0 <= j < |zones| && !(i <= j && IsCircleOnMap(zones[j])) :: r.zones[j] == zones[j]
    ensures r.completed ==> forall j | i <= j < |zones| && IsCircleOnMap(zones[j]) :: RegeneratedZone(zones[j], r.zones[j])
  {
    assert RegeneratedZone(zones[i], zs[i]);
    assert forall j | i < j < |zones| :: zs[j] == zones[j];
    if r.completed {
      assert r.zones[i] == zs[i];
      forall j | 0 <= j < i ensures r.zones[j] == zones[j] {
      }
    }
  }

  /** `RegenerateSpec` where the zone at `i` is passed over. */
  lemma {:induction false} RegenerateSpecSkip(zones: seq<Zone>, i: nat, env: Env, nextId: nat)
    requires i < |zones| && IdsIncreasing(zones, nextId) && !IsCircleOnMap(zones[i])
    ensures var r := RegenerateFrom(zones, i, env);
      r.completed <==> forall j | i <= j < |zones| && IsCircleOnMap(zones[j]) :: zones[j].input.Some?
    ensures var r := RegenerateFrom(zones, i, env);
      r.completed ==> forall j | 0 <= j < |zones| && !(i <= j && IsCircleOnMap(zones[j])) :: r.zones[j] == zones[j]
    ensures var r := RegenerateFrom(zones, i, env);
      r.completed ==> forall j | i <= j < |zones| && IsCircleOnMap(zones[j]) :: RegeneratedZone(zones[j], r.zones[j])
    decreases |zones| - i, 0
  {
    var r := RegenerateFrom(zones, i + 1, env);
    assert RegenerateFrom(zones, i, env) == r;
    RegenerateSpec(zones, i + 1, env, nextId);
    forall j | i <= j < |zones| && IsCircleOnMap(zones[j])
      ensures i + 1 <= j
    {
    }
  }

  /**
    `_recoverStateBeforeDeletion` from the zone at `i` on: each circle on the
    map from `i` on without an open input is recovered as `RecoveredZone`
    says; every other zone stays as it is.
   */
  lemma {:induction false} RecoverSpec(zones: seq<Zone>, i: nat, env: Env)
    requires i <= |zones|
    ensures var r := RecoverFrom(zones, i, env);
      forall j | 0 <= j < |zones| && !(i <= j && IsCircleOnMap(zones[j]) && zones[j].input.None?) :: r[j] == zones[j]
    ensures var r := RecoverFrom(zones, i, env);
      forall j | i <= j < |zones| && IsCircleOnMap(zones[j]) && zones[j].input.None? :: RecoveredZone(env, zones[j], r[j])
    decreases |zones| - i, 1
  {
    if i < |zones| {
      if IsCircleOnMap(zones[i]) && zones[i].input.None? {
        RecoverSpecAt(zones, i, env);
      } else {
        RecoverSpecSkip(zones, i, env);
      }
    }
  }

  /** `RecoverSpec` where the zone at `i` is passed over. */
  lemma {:induction false} RecoverSpecSkip(zones: seq<Zone>, i: nat, env: Env)
    requires i < |zones| && !(IsCircleOnMap(zones[i]) && zones[i].input.None?)
    ensures var r := RecoverFrom(zones, i, env);
      forall j | 0 <= j < |zones| && !(i <= j && IsCircleOnMap(zones[j]) && zones[j].input.None?) :: r[j] == zones[j]
    ensures var r := RecoverFrom(zones, i, env);
      forall j | i <= j < |zones| && IsCircleOnMap(zones[j]) && zones[j].input.None? :: RecoveredZone(env, zones[j], r[j])
    decreases |zones| - i, 0
  {
    var r := RecoverFrom(zones, i + 1, env);
    assert RecoverFrom(zones, i, env) == r;
    RecoverSpec(zones, i + 1, env);
    forall j | i <= j < |zones| && IsCircleOnMap(zones[j]) && zones[j].input.None?
      ensures RecoveredZone(env, zones[j], r[j])
    {
      assert i + 1 <= j;
    }
  }

  /** `RecoverSpec` where the zone at `i` is itself recovered. */
  lemma {:induction false} RecoverSpecAt(zones: seq<Zone>, i: nat, env: Env)
    requires i < |zones| && IsCircleOnMap(zones[i]) && zones[i].input.None?
    ensures var r := RecoverFrom(zones, i, env);
      forall j | 0 <= j < |zones| && !(i <= j && IsCircleOnMap(zones[j]) && zones[j].input.None?) :: r[j] == zones[j]
    ensures var r := RecoverFrom(zones, i, env);
      forall j | i <= j < |zones| && IsCircleOnMap(zones[j]) && zones[j].input.None? :: RecoveredZone(env, zones[j], r[j])
    decreases |zones| - i, 0
  {
    var zs := RecoverAt(zones, i, env);
    RecoverAtSpec(zones, i, env);
    RecoverSpec(zs, i + 1, env);
    assert RecoverFrom(zones, i, env) == RecoverFrom(zs, i + 1, env);
    assert !(IsCircleOnMap(zs[i]) && zs[i].input.None?);
  }

  /**
    What the recovery makes of the zone `z` as `r`: it is off the map or has
    its input and popup open again; without a label read back from its popup
    it only leaves the map, and with one it stores that label and keeps its
    other properties; its id, centre and radius stay.
   */
  predicate RecoveredZone(env: Env, z: Zone, r: Zone)
  {
    var l := Recovered(env, z);
    && (!r.onMap || (r.input.Some? && r.popup.Some?))
    && (l.None? ==> r == z.(onMap := false))
    && (l.Some? ==> r.properties == z.properties.(zoneLabel := l))
    && r.id == z.id && r.center == z.center && r.radius == z.radius
  }

  /** The recovery of the zone at `k` changes that zone alone, as `RecoveredZone` describes it. */
  lemma RecoverAtSpec(zones: seq<Zone>, k: nat, env: Env)
    requires k < |zones|
    ensures var r := RecoverAt(zones, k, env);
      && RecoveredZone(env, zones[k], r[k])
      && forall j | 0 <= j < |zones| && j != k :: r[j] == zones[j]
  {
    match Recovered(env, zones[k])
    case None =>
    case Some(l) =>
      var zs := zones[k := zones[k].(properties := zones[k].properties.(zoneLabel := Some(l)))];
      match InitPopup(zs, k, env)
      case None =>
      case Some(p) =>
        assert p[k] == WithPopup(zs[k], env, PopupLabel(zs, k, env).value);
  }

  /** Text with no value line, or no popup at all, takes the zone off the map. */
  lemma RecoverFailureRemoves(zones: seq<Zone>, k: nat, env: Env)
    requires k < |zones|
    requires Recovered(env, zones[k]).None?
    ensures RecoverAt(zones, k, env) == zones[k := zones[k].(onMap := false)]
  {
  }

  /**
    A zone whose popup was built for a non-empty label without a newline gets
    that label back, stored in its properties and shown in a fresh input.
   */
  lemma RecoverRestoresLabel(zones: seq<Zone>, k: nat, env: Env)
    requires k < |zones| && zones[k].popup.Some?
    requires zones[k].popup.value.zoneLabel != "" && '\n' !in zones[k].popup.value.zoneLabel
    ensures var r, l := RecoverAt(zones, k, env), zones[k].popup.value.zoneLabel;
      && r[k].properties.zoneLabel == Some(l)
      && r[k].input == Some(LabelInput(l, false))
      && r[k].onMap == zones[k].onMap
      && forall i | 0 <= i < |zones| && i != k :: r[i] == zones[i]
  {
    var c := zones[k].popup.value;
    Popup.RecoverLabelRoundTrip(env.generation, zones[k].id, c.zoneLabel, c.distance, c.radius, env.numberText);
  }

  /** For the current copy the default label is what `translateString('ZONE', { index })` returns. */
  lemma DefaultLabelIsTranslated(env: Env, labels: seq<string>, shapeCount: nat)
    requires env.generation == Popup.Current && Labels.GuessZoneIndex(labels, shapeCount).Some?
    ensures var k := Labels.GuessZoneIndex(labels, shapeCount).value;
      Translate(Translation.Lookup(env.language, "ZONE"), Some([("index", NatText(k))]))
      == Value(DefaultLabel(env, labels, shapeCount).value)
  {
    Translation.ZoneLabel(env.language, NatText(Labels.GuessZoneIndex(labels, shapeCount).value));
  }

  /** As written, the current copy never obtains a default label: every unlabelled zone makes `_initPopup` throw. */
  lemma DefaultLabelAsWrittenThrows(language: Translation.Language, labels: seq<string>, shapeCount: nat)
    ensures DefaultLabelAsWritten(language, labels, shapeCount).None?
  {
    match Labels.GuessZoneIndex(labels, shapeCount)
    case None =>
    case Some(k) => Translation.LowerCaseKeysAreMissing(language, [("index", NatText(k))]);
  }

  /** The first circle drawn on an empty map: the current copy as written throws, the corrected one names it zone 1. */
  lemma FirstCircleLabel(env: Env)
    requires env.generation == Popup.Current
    ensures DefaultLabelAsWritten(env.language, [], 1).None?
    ensures DefaultLabel(env, [], 1) == Some(Translation.ZonePrefix(env.language) + "1")
  {
    DefaultLabelAsWrittenThrows(env.language, [], 1);
    Labels.GuessOnEmptyMap();
    assert NatText(1) == "1";
  }

  /** The earlier copy throws for the first circle on an empty map too, as its guess has no number to start from. */
  lemma FirstCircleLabelLegacy(env: Env)
    requires env.generation == Popup.Legacy
    ensures DefaultLabel(env, [], 1).None?
  {
    Labels.LegacyGuessFailsWithoutNumbers(1);
  }

  // ---------------------------------------------------------------------------
  // Import and export
  // ---------------------------------------------------------------------------

  /**
    The radius `new L.Circle(latLng, radius, options)` takes: a missing radius
    is not a number, so the circle keeps the default radius of a Leaflet
    `CircleMarker`.
   */
  const DefaultCircleRadius: real := 10.0

  /** The radius an imported circle is drawn with. */
  function ImportedRadius(p: Properties): (r: real)
    ensures p.radius.Some? ==> r == p.radius.value
    ensures p.radius.None? ==> r == DefaultCircleRadius
  {
    if p.radius.Some? then p.radius.value else DefaultCircleRadius
  }

  /** A feature `_importGeoJSON` draws: a `Feature` whose geometry is a `Point`. */
  predicate Drawable(f: Imported)
  {
    f.isFeature && f.isPoint
  }

  /** The number of drawable features in `features`. */
  function DrawableCount(features: seq<Imported>): (n: nat)
    ensures n <= |features|
  {
    if |features| == 0 then 0
    else (if Drawable(features[0]) then 1 else 0) + DrawableCount(features[1..])
  }

  /**
    One feature: nothing dispatched and nothing notified. A skipped one leaves
    the editor alone; a drawn one, which needs the tool on, adds one circle
    with the next id and gives the counter back; one that throws leaves the counter raised by one. The
    tool stays on as long as there are fewer than ten circles.
   */
  lemma ImportOneSpec(e: Editor, env: Env, f: Imported)
    ensures var r := ImportOne(e, env, f);
      && r.editor.events == e.events && r.editor.notices == e.notices
      && (!Drawable(f) ==> r == Run(e, true))
      && (Drawable(f) && r.completed ==>
            && e.circleTool && f.properties.drawtype == Some(CircleType)
            && |r.editor.zones| == |e.zones| + 1 && r.editor.initialShapes == e.initialShapes
            && r.editor.zones[|e.zones|].radius == ImportedRadius(f.properties))
      && (Drawable(f) && !r.completed ==> r.editor.initialShapes == e.initialShapes + 1)
      && |e.zones| <= |r.editor.zones| <= |e.zones| + 1
      && r.editor.nextId == e.nextId + (|r.editor.zones| - |e.zones|)
      && r.editor.circleTool == (e.circleTool && (|r.editor.zones| == |e.zones| || |r.editor.zones| < MaxNumberOfCircles))
  {
    var counted := e.(initialShapes := e.initialShapes + 1);
    if Drawable(f) && e.circleTool && f.properties.drawtype == Some(CircleType) {
      ImportCircle(e, env, f);
      CreatedPending(counted, env, f.position, ImportedRadius(f.properties), Some(f.properties));
    } else {
      ImportOther(e, env, f);
    }
  }

  /** A drawable circle, while the tool is on, is counted, then created with its radius or the default one. */
  lemma ImportCircle(e: Editor, env: Env, f: Imported)
    requires Drawable(f) && e.circleTool && f.properties.drawtype == Some(CircleType)
    ensures ImportOne(e, env, f)
            == Created(e.(initialShapes := e.initialShapes + 1), env, f.position, ImportedRadius(f.properties), Some(f.properties))
  {
  }

  /** Anything but a drawable circle while the tool is on: skipped, or counted and then a throw. */
  lemma ImportOther(e: Editor, env: Env, f: Imported)
    requires !(Drawable(f) && e.circleTool && f.properties.drawtype == Some(CircleType))
    ensures ImportOne(e, env, f) == if Drawable(f) then Run(e.(initialShapes := e.initialShapes + 1), false) else Run(e, true)
  {
  }

  /**
    A circle created while an import is pending: no event and no notification,
    one circle more with the next id, and the counter lowered exactly when the
    handler completes.
   */
  lemma CreatedPending(e: Editor, env: Env, center: Position, radius: real, imported: Option<Properties>)
    requires e.initialShapes > 0
    ensures var r := Created(e, env, center, radius, imported);
      && r.editor.events == e.events && r.editor.notices == e.notices
      && r.editor.initialShapes == (if r.completed then e.initialShapes - 1 else e.initialShapes)
      && |r.editor.zones| == |e.zones| + 1 && r.editor.nextId == e.nextId + 1
      && r.editor.zones[|e.zones|].radius == radius
      && r.editor.circleTool == (e.circleTool && |e.zones| + 1 < MaxNumberOfCircles)
  {
    var a := Added(e, center, radius, imported);
    match InitPopup(a.zones, |a.zones| - 1, env)
    case None =>
    case Some(zs) =>
      var s := Settled(a.(zones := zs), env);
      assert Created(e, env, center, radius, imported) == Run(s, true);
  }

  /**
    The import loop: no event and no notification; every drawn feature adds
    one circle with the next id; run to its end, it adds one circle per
    drawable feature and leaves the counter as it found it, while a throw
    leaves the counter one higher. The tool ends on exactly when it started on
    and the circles added, if any, stay below ten. A run to the end that drew
    anything started with the tool on, and one that drew two or more ends with
    at most ten circles: the circle after the tenth throws.
   */
  lemma {:induction false} ImportAllSpec(e: Editor, env: Env, features: seq<Imported>)
    ensures var r := ImportAll(e, env, features);
      && r.editor.events == e.events && r.editor.notices == e.notices
      && (r.completed ==> r.editor.initialShapes == e.initialShapes
                          && |r.editor.zones| == |e.zones| + DrawableCount(features))
      && (!r.completed ==> r.editor.initialShapes == e.initialShapes + 1)
      && |e.zones| <= |r.editor.zones|
      && r.editor.nextId == e.nextId + (|r.editor.zones| - |e.zones|)
      && r.editor.circleTool == (e.circleTool && (|r.editor.zones| == |e.zones| || |r.editor.zones| < MaxNumberOfCircles))
      && (r.completed && |r.editor.zones| > |e.zones| ==> e.circleTool)
      && (r.completed && |r.editor.zones| > |e.zones| + 1 ==> |r.editor.zones| <= MaxNumberOfCircles)
    decreases |features|
  {
    if |features| > 0 {
      var first := ImportOne(e, env, features[0]);
      ImportOneSpec(e, env, features[0]);
      if first.completed {
        ImportAllSpec(first.editor, env, features[1..]);
      }
    }
  }

  /** A falsy argument, or a document that does not parse, changes nothing. */
  lemma ImportIgnored(e: Editor, env: Env, geojson: Option<string>, parse: string -> Option<seq<Imported>>)
    requires !TruthyText(geojson) || parse(geojson.value).None?
    ensures Import(e, env, geojson, parse) == Run(e, true)
  {
  }

  /**
    A document that parses: without a throw, one circle per drawable feature
    is added, no event is dispatched, the counter is as it was, the tool is on
    unless the import brought the circles to ten or more, and the buttons and
    marks follow the validity of the labels; a throw leaves the counter
    raised, so the next circle drawn by hand dispatches nothing. A document
    with two or more drawable features that would bring the map past ten
    circles always throws.
   */
  lemma ImportSpec(e: Editor, env: Env, geojson: Option<string>, parse: string -> Option<seq<Imported>>)
    requires TruthyText(geojson) && parse(geojson.value).Some?
    ensures var r, features := Import(e, env, geojson, parse), parse(geojson.value).value;
      && r.editor.events == e.events && r.editor.notices == e.notices
      && (r.completed ==>
            && |r.editor.zones| == |e.zones| + DrawableCount(features)
            && r.editor.initialShapes == e.initialShapes
            && r.editor.circleTool == (DrawableCount(features) == 0 || |r.editor.zones| < MaxNumberOfCircles)
            && r.editor.buttonsDisabled == !Labels.LabelsAreValid(Inputs(r.editor.zones))
            && Marks(r.editor.zones) == Labels.InvalidMarks(Inputs(r.editor.zones), Labels.LabelsAreValid(Inputs(r.editor.zones))))
      && (!r.completed ==> r.editor.initialShapes == e.initialShapes + 1)
      && (DrawableCount(features) > 1 && |e.zones| + DrawableCount(features) > MaxNumberOfCircles ==> !r.completed)
  {
    var features := parse(geojson.value).value;
    ImportAllSpec(e.(circleTool := true), env, features);
  }

  /** The exported features of the repaired zones are the repaired features, and the layers are as they were. */
  lemma RepairedZonesExport(zones: seq<Zone>)
    ensures ExportFeatures(RepairedZones(zones)) == Repaired(ExportFeatures(zones), ExportLayers(zones))
    ensures ExportLayers(RepairedZones(zones)) == ExportLayers(zones)
  {
    var out := Repaired(ExportFeatures(zones), ExportLayers(zones));
    var rz := RepairedZones(zones);
    RepairKeepsFeatures(ExportFeatures(zones), ExportLayers(zones));
    assert forall i | 0 <= i < |zones| :: ExportFeatures(rz)[i] == out[i];
    assert forall i | 0 <= i < |zones| :: ExportLayers(rz)[i] == ExportLayers(zones)[i];
  }

  /**
    Exporting again after an export gives the same text: the repaired radii are
    a fixed point, so the map is not dirty right after its state is recorded.
   */
  lemma ExportStable(zones: seq<Zone>, stringify: seq<Feature> -> string)
    ensures ExportText(RepairedZones(zones), stringify) == ExportText(zones, stringify)
    ensures RepairedZones(RepairedZones(zones)) == RepairedZones(zones)
  {
    RepairedZonesExport(zones);
    RepairedIdempotent(ExportFeatures(zones), ExportLayers(zones));
    var once := RepairedZones(zones);
    RepairedZonesExport(once);
    var twice := RepairedZones(once);
    assert forall i | 0 <= i < |zones| :: twice[i] == once[i];
  }

  /** The export changes only the radii stored in the zones' properties. */
  lemma RepairedZonesKeep(zones: seq<Zone>)
    ensures var r := RepairedZones(zones);
      forall i | 0 <= i < |zones| ::
        r[i].(properties := zones[i].properties) == zones[i]
        && r[i].properties.(radius := zones[i].properties.radius) == zones[i].properties
  {
    RepairKeepsFeatures(ExportFeatures(zones), ExportLayers(zones));
  }
}
