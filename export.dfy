/**
  The radius repair of `exportGeoJSON`: for each feature of the shapes group's
  GeoJSON, the layers are scanned in order for one whose coordinates are
  exactly equal, and the radius of the last layer so found is copied into the
  feature's properties. The variable holding that layer is never reset, so a
  feature without a match of its own takes the radius of the previous match.
 */
module Export {
  import opened Wrappers

  /** A centre as GeoJSON coordinates, compared with `===` on both components. */
  datatype Position = Position(lat: real, lng: real)

  /** `feature.properties` of a zone: its label, its stored radius and its draw type. */
  datatype Properties = Properties(zoneLabel: Option<string>, radius: Option<real>, drawtype: Option<string>)

  /** One exported feature: a point geometry and the (shared) properties object. */
  datatype Feature = Feature(position: Position, properties: Properties)

  /** A layer of the shapes group as the repair reads it: its centre and `getRadius()`. */
  datatype Layer = Layer(position: Position, radius: real)

  /** The index of the first layer whose centre equals `p` (`Object.keys(layers).some(...)`). */
  function FirstMatch(layers: seq<Layer>, p: Position): (r: Option<nat>)
    ensures r.Some? ==> r.value < |layers| && layers[r.value].position == p
    ensures r.Some? ==> forall j | 0 <= j < r.value :: layers[j].position != p
    ensures r.None? ==> forall j | 0 <= j < |layers| :: layers[j].position != p
  {
    if |layers| == 0 then None
    else if layers[0].position == p then Some(0)
    else
      match FirstMatch(layers[1..], p)
      case None => None
      case Some(j) => Some(j + 1)
  }

  /** `matchingLayer` once the first `n` features are handled: the match of the latest one that had a match. */
  function MatchAfter(features: seq<Feature>, layers: seq<Layer>, n: nat): (r: Option<nat>)
    requires n <= |features|
    ensures r.Some? ==> r.value < |layers|
  {
    if n == 0 then None
    else
      match FirstMatch(layers, features[n - 1].position)
      case Some(j) => Some(j)
      case None => MatchAfter(features, layers, n - 1)
  }

  /** `feature.properties.radius = matchingLayer.getRadius()` when there is a matching layer. */
  function WithRadius(f: Feature, layers: seq<Layer>, m: Option<nat>): (g: Feature)
    requires m.Some? ==> m.value < |layers|
    ensures g.position == f.position
    ensures g.properties.zoneLabel == f.properties.zoneLabel && g.properties.drawtype == f.properties.drawtype
    ensures g.properties.radius == (if m.Some? then Some(layers[m.value].radius) else f.properties.radius)
  {
    if m.Some? then f.(properties := f.properties.(radius := Some(layers[m.value].radius))) else f
  }

  /** The features after the repair: each one given the radius of `matchingLayer` as it stands after it. */
  function Repaired(features: seq<Feature>, layers: seq<Layer>): (out: seq<Feature>)
    ensures |out| == |features|
    ensures forall i | 0 <= i < |features| ::
              out[i] == WithRadius(features[i], layers, MatchAfter(features, layers, i + 1))
  {
    seq(|features|, i requires 0 <= i < |features| =>
      WithRadius(features[i], layers, MatchAfter(features, layers, i + 1)))
  }

  /** The nested loop of `exportGeoJSON`, carrying `matchingLayer` from one feature to the next. */
  method RepairRadii(features: seq<Feature>, layers: seq<Layer>) returns (out: seq<Feature>)
    ensures out == Repaired(features, layers)
  {
    out := features;
    var matching: Option<nat> := None;
    var i := 0;
    while i < |features|
      invariant 0 <= i <= |features| && |out| == |features|
      invariant matching == MatchAfter(features, layers, i)
      invariant forall k | 0 <= k < i :: out[k] == Repaired(features, layers)[k]
      invariant forall k | i <= k < |features| :: out[k] == features[k]
    {
      var p := features[i].position;
      var j := 0;
      var found := false;
      while j < |layers| && !found
        invariant 0 <= j <= |layers|
        invariant found ==> j > 0 && FirstMatch(layers, p) == Some(j - 1) && matching == Some(j - 1)
        invariant !found ==> matching == MatchAfter(features, layers, i)
        invariant !found ==> forall k | 0 <= k < j :: layers[k].position != p
      {
        if layers[j].position == p {
          FirstMatchAt(layers, p, j);
          matching := Some(j);
          found := true;
        }
        j := j + 1;
      }
      if !found {
        NoMatch(layers, p);
      }
      assert matching == MatchAfter(features, layers, i + 1);
      if matching.Some? {
        var f := features[i];
        out := out[i := f.(properties := f.properties.(radius := Some(layers[matching.value].radius)))];
      }
      i := i + 1;
    }
    assert forall k | 0 <= k < |features| :: out[k] == Repaired(features, layers)[k];
  }

  /** A layer at `p` with none before it is the first match. */
  lemma {:induction false} FirstMatchAt(layers: seq<Layer>, p: Position, j: nat)
    requires j < |layers| && layers[j].position == p
    requires forall k | 0 <= k < j :: layers[k].position != p
    ensures FirstMatch(layers, p) == Some(j)
    decreases j
  {
    if j > 0 {
      FirstMatchAt(layers[1..], p, j - 1);
    }
  }

  /** No layer at `p` means no match. */
  lemma {:induction false} NoMatch(layers: seq<Layer>, p: Position)
    requires forall k | 0 <= k < |layers| :: layers[k].position != p
    ensures FirstMatch(layers, p) == None
    decreases |layers|
  {
    if |layers| > 0 {
      assert layers[0].position != p;
      NoMatch(layers[1..], p);
    }
  }

  /** A feature with a layer at its centre gets the radius of the first such layer. */
  lemma RepairedMatched(features: seq<Feature>, layers: seq<Layer>, i: nat)
    requires i < |features| && FirstMatch(layers, features[i].position).Some?
    ensures var j := FirstMatch(layers, features[i].position).value;
      Repaired(features, layers)[i].properties.radius == Some(layers[j].radius)
      && layers[j].position == features[i].position
      && forall k | 0 <= k < j :: layers[k].position != features[i].position
  {
  }

  /**
    A feature without a layer at its centre keeps its own radius up to the first
    match, and after it inherits the repaired radius of the feature before it.
   */
  lemma UnmatchedInherits(features: seq<Feature>, layers: seq<Layer>, i: nat)
    requires i < |features| && FirstMatch(layers, features[i].position).None?
    ensures var out := Repaired(features, layers);
      if i > 0 && MatchAfter(features, layers, i).Some? then out[i].properties.radius == out[i - 1].properties.radius
      else out[i].properties.radius == features[i].properties.radius
  {
    assert MatchAfter(features, layers, i + 1) == MatchAfter(features, layers, i);
  }

  /** The repair changes only radii: the count, the order, the centres, labels and draw types stay. */
  lemma RepairKeepsFeatures(features: seq<Feature>, layers: seq<Layer>)
    ensures |Repaired(features, layers)| == |features|
    ensures forall i | 0 <= i < |features| ::
              Repaired(features, layers)[i].position == features[i].position
              && Repaired(features, layers)[i].properties.zoneLabel == features[i].properties.zoneLabel
              && Repaired(features, layers)[i].properties.drawtype == features[i].properties.drawtype
  {
  }

  /**
    When the features come from the layers themselves, one per layer in the same
    order, every feature is matched, by the first layer sharing its centre (its
    own layer when no earlier one does).
   */
  lemma RepairFromOwnLayers(features: seq<Feature>, layers: seq<Layer>, i: nat)
    requires |features| == |layers| && i < |features|
    requires forall k | 0 <= k < |features| :: features[k].position == layers[k].position
    ensures exists j | 0 <= j <= i ::
              layers[j].position == features[i].position
              && (forall k | 0 <= k < j :: layers[k].position != features[i].position)
              && Repaired(features, layers)[i].properties.radius == Some(layers[j].radius)
  {
    var p := features[i].position;
    MatchNoLaterThan(layers, p, i);
    var j := FirstMatch(layers, p).value;
    assert Repaired(features, layers)[i].properties.radius == Some(layers[j].radius);
  }

  /** A layer at `p` bounds the first match from above. */
  lemma {:induction false} MatchNoLaterThan(layers: seq<Layer>, p: Position, i: nat)
    requires i < |layers| && layers[i].position == p
    ensures FirstMatch(layers, p).Some? && FirstMatch(layers, p).value <= i
    decreases i
  {
    if layers[0].position != p {
      MatchNoLaterThan(layers[1..], p, i - 1);
    }
  }

  /** With distinct centres every feature takes its own layer's radius. */
  lemma RepairDistinctCentres(features: seq<Feature>, layers: seq<Layer>)
    requires |features| == |layers|
    requires forall i | 0 <= i < |features| :: features[i].position == layers[i].position
    requires forall i, j | 0 <= i < j < |layers| :: layers[i].position != layers[j].position
    ensures forall i | 0 <= i < |features| :: Repaired(features, layers)[i].properties.radius == Some(layers[i].radius)
  {
    forall i | 0 <= i < |features| ensures Repaired(features, layers)[i].properties.radius == Some(layers[i].radius) {
      FirstMatchAt(layers, features[i].position, i);
    }
  }

  /** The match after each feature depends only on the centres of the features. */
  lemma {:induction false} MatchAfterByCentres(features: seq<Feature>, other: seq<Feature>, layers: seq<Layer>, n: nat)
    requires |features| == |other| && n <= |features|
    requires forall i | 0 <= i < |features| :: features[i].position == other[i].position
    ensures MatchAfter(features, layers, n) == MatchAfter(other, layers, n)
    decreases n
  {
    if n > 0 {
      MatchAfterByCentres(features, other, layers, n - 1);
    }
  }

  /** Repairing the repaired features changes nothing: the second export writes the same radii. */
  lemma RepairedIdempotent(features: seq<Feature>, layers: seq<Layer>)
    ensures Repaired(Repaired(features, layers), layers) == Repaired(features, layers)
  {
    var once := Repaired(features, layers);
    var twice := Repaired(once, layers);
    forall i | 0 <= i < |features| ensures twice[i] == once[i] {
      MatchAfterByCentres(once, features, layers, i + 1);
    }
  }

  /** Two circles drawn on the same centre both export the radius of the first one. */
  lemma SharedCentreTakesFirst(p: Position, firstLabel: Option<string>, secondLabel: Option<string>, r1: real, r2: real)
    ensures var features := [Feature(p, Properties(firstLabel, None, Some("circle"))), Feature(p, Properties(secondLabel, None, Some("circle")))];
      var out := Repaired(features, [Layer(p, r1), Layer(p, r2)]);
      out[0].properties.radius == Some(r1) && out[1].properties.radius == Some(r1)
  {
    var layers := [Layer(p, r1), Layer(p, r2)];
    assert FirstMatch(layers, p) == Some(0);
  }
}
