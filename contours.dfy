/**
 * The depth-contour part of `main`: for each contour layer in order, the
 * fetched collection is saved as it came from the service, then every one of
 * its features is tagged in place with `interval_m` and appended to one
 * merged collection.
 */
module Contours {
  import opened Wrappers

  /** A JSON value, as a property value of a feature. */
  datatype Json =
    | JNull
    | JBool(b: bool)
    | JInt(i: int)
    | JFloat(f: real)
    | JString(s: string)
    | JArray(items: seq<Json>)
    | JObject(fields: map<string, Json>)

  /**
   * A GeoJSON feature as parsed from a reply. `properties` is `None` when the
   * member is absent or `null`; the merge replaces it in place.
   */
  class Feature {
    const geometry: Json
    var properties: Option<map<string, Json>>

    constructor (geometry: Json, properties: Option<map<string, Json>>)
      ensures this.geometry == geometry && this.properties == properties
    {
      this.geometry := geometry;
      this.properties := properties;
    }
  }

  /** What a saved file holds of one feature. */
  datatype FeatureValue = FeatureValue(geometry: Json, properties: Option<map<string, Json>>)

  /** One contour layer: the service's layer index and the depth interval in metres it draws. */
  datatype ContourLayer = ContourLayer(layerId: int, interval: int)

  /** `contour_layers`, in insertion order: 10 is 20 m, 11 is 50 m, 12 is 100 m, 13 is 150 m, 14 is 200 m. */
  const ContourLayers: seq<ContourLayer> :=
    [ContourLayer(10, 20), ContourLayer(11, 50), ContourLayer(12, 100), ContourLayer(13, 150), ContourLayer(14, 200)]

  /** The property every merged contour feature carries. */
  const IntervalKey: string := "interval_m"

  /**
   * The properties of a feature after tagging: its own, or a fresh map when
   * it had none or an empty one, with `interval_m` set to `interval`.
   */
  function Tagged(props: Option<map<string, Json>>, interval: int): (m: map<string, Json>)
    ensures IntervalKey in m && m[IntervalKey] == JInt(interval)
    ensures forall key :: key in m && key != IntervalKey ==> props.Some? && key in props.value && m[key] == props.value[key]
    ensures forall key :: props.Some? && key in props.value && key != IntervalKey ==> key in m
  {
    (if props.None? then map[] else props.value)[IntervalKey := JInt(interval)]
  }

  /** Tagging twice with the same interval is tagging once. */
  lemma TaggedIdempotent(props: Option<map<string, Json>>, interval: int)
    ensures Tagged(Some(Tagged(props, interval)), interval) == Tagged(props, interval)
  {
  }

  /** The features of the first `n` layers, one after another, in layer order. */
  function Flatten<T>(layers: seq<seq<T>>, n: nat): seq<T>
    requires n <= |layers|
  {
    if n == 0 then [] else Flatten(layers, n - 1) + layers[n - 1]
  }

  /** The sum of the lengths of the first `n` layers. */
  function TotalLength<T>(layers: seq<seq<T>>, n: nat): nat
    requires n <= |layers|
  {
    if n == 0 then 0 else TotalLength(layers, n - 1) + |layers[n - 1]|
  }

  /** The merged features of `n` layers are exactly as many as those layers hold together. */
  lemma {:induction false} FlattenLength<T>(layers: seq<seq<T>>, n: nat)
    requires n <= |layers|
    ensures |Flatten(layers, n)| == TotalLength(layers, n)
  {
    if n > 0 {
      FlattenLength(layers, n - 1);
    }
  }

  /** Five layers merge into as many features as the five hold. */
  lemma FiveLayersLength<T>(layers: seq<seq<T>>)
    requires |layers| == 5
    ensures |Flatten(layers, 5)| == |layers[0]| + |layers[1]| + |layers[2]| + |layers[3]| + |layers[4]|
  {
    FlattenLength(layers, 5);
    assert TotalLength(layers, 1) == |layers[0]|;
    assert TotalLength(layers, 2) == |layers[0]| + |layers[1]|;
    assert TotalLength(layers, 3) == |layers[0]| + |layers[1]| + |layers[2]|;
    assert TotalLength(layers, 4) == |layers[0]| + |layers[1]| + |layers[2]| + |layers[3]|;
  }

  /** Every feature of every layer. */
  function Members(fetched: seq<seq<Feature>>): set<Feature> {
    set i, a | 0 <= i < |fetched| && 0 <= a < |fetched[i]| :: fetched[i][a]
  }

  /** No feature object belongs to two layers: each reply is parsed into fresh objects. */
  predicate LayersDisjoint(fetched: seq<seq<Feature>>) {
    forall i, j, a :: 0 <= i < |fetched| && 0 <= j < |fetched| && i != j && 0 <= a < |fetched[i]| ==>
      fetched[i][a] !in fetched[j]
  }

  /** `save_geojson`: what the file records of each feature at the moment it is written. */
  function Snapshot(fs: seq<Feature>): (s: seq<FeatureValue>)
    reads fs
    ensures |s| == |fs|
    ensures forall a :: 0 <= a < |s| ==> s[a] == FeatureValue(fs[a].geometry, fs[a].properties)
  {
    if fs == [] then [] else Snapshot(fs[..|fs| - 1]) + [FeatureValue(fs[|fs| - 1].geometry, fs[|fs| - 1].properties)]
  }

  /** Every feature of `fs` holds the properties recorded in `before`, tagged with `interval`. */
  ghost predicate TaggedAs(fs: seq<Feature>, before: seq<FeatureValue>, interval: int)
    reads fs
  {
    |fs| == |before|
    && forall a :: 0 <= a < |fs| ==> fs[a].properties == Some(Tagged(before[a].properties, interval))
  }

  /**
   * The inner loop of the merge for one layer: every feature of `fs` gets
   * `interval_m` set to `interval`, in place, and is appended to `merged`. A
   * feature listed twice is tagged twice, with the same result.
   */
  method TagLayer(fs: seq<Feature>, interval: int, merged: seq<Feature>) returns (merged': seq<Feature>)
    modifies set f | f in fs
    ensures merged' == merged + fs
    ensures TaggedAs(fs, old(Snapshot(fs)), interval)
  {
    merged' := merged;
    var a := 0;
    while a < |fs|
      invariant 0 <= a <= |fs|
      invariant merged' == merged + fs[..a]
      invariant forall b :: 0 <= b < a ==>
                  fs[b].properties == Some(Tagged(old(fs[b].properties), interval))
      invariant forall b :: a <= b < |fs| ==>
                  fs[b].properties == old(fs[b].properties)
                  || fs[b].properties == Some(Tagged(old(fs[b].properties), interval))
    {
      var feat := fs[a];
      var props := if feat.properties.None? || feat.properties.value == map[] then map[] else feat.properties.value;
      props := props[IntervalKey := JInt(interval)];
      TaggedIdempotent(old(feat.properties), interval);
      feat.properties := Some(props);
      merged' := merged' + [feat];
      a := a + 1;
    }
    assert fs[..|fs|] == fs;
  }

  /**
   * The tag-and-merge loop over `layers`, whose collections, as
   * `fetch_and_verify` returned them, are `fetched`. `saved` is what each
   * layer's own file holds: it is written before tagging, so it has the
   * properties as fetched.
   */
  method MergeContours(layers: seq<ContourLayer>, fetched: seq<seq<Feature>>)
    returns (merged: seq<Feature>, saved: seq<seq<FeatureValue>>)
    requires |layers| == |fetched|
    requires LayersDisjoint(fetched)
    modifies Members(fetched)
    ensures merged == Flatten(fetched, |fetched|)
    ensures |saved| == |fetched|
    ensures forall i :: 0 <= i < |fetched| ==> saved[i] == old(Snapshot(fetched[i]))
    ensures forall i :: 0 <= i < |fetched| ==> TaggedAs(fetched[i], saved[i], layers[i].interval)
  {
    merged, saved := [], [];
    var i := 0;
    while i < |layers|
      invariant 0 <= i <= |layers|
      invariant merged == Flatten(fetched, i)
      invariant |saved| == i
      invariant forall j :: 0 <= j < i ==> saved[j] == old(Snapshot(fetched[j]))
      invariant forall j :: 0 <= j < i ==> TaggedAs(fetched[j], saved[j], layers[j].interval)
      invariant forall j :: i <= j < |fetched| ==> Snapshot(fetched[j]) == old(Snapshot(fetched[j]))
    {
      var fs := fetched[i];
      saved := saved + [Snapshot(fs)];
      merged := TagLayer(fs, layers[i].interval, merged);
      i := i + 1;
    }
  }

  /**
   * The contour step of `main` on the five configured layers: the merged
   * collection holds every feature of the five collections, as many as they
   * hold together, each tagged with its own layer's interval.
   */
  method MergeDepthContours(fetched: seq<seq<Feature>>)
    returns (merged: seq<Feature>, saved: seq<seq<FeatureValue>>)
    requires |fetched| == |ContourLayers|
    requires LayersDisjoint(fetched)
    modifies Members(fetched)
    ensures merged == Flatten(fetched, |fetched|)
    ensures |merged| == |fetched[0]| + |fetched[1]| + |fetched[2]| + |fetched[3]| + |fetched[4]|
    ensures |saved| == |fetched|
    ensures forall i :: 0 <= i < |fetched| ==> saved[i] == old(Snapshot(fetched[i]))
    ensures forall i :: 0 <= i < |fetched| ==> TaggedAs(fetched[i], saved[i], ContourLayers[i].interval)
  {
    merged, saved := MergeContours(ContourLayers, fetched);
    FiveLayersLength(fetched);
  }
}
