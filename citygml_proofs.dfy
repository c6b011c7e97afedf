/** What the CityGML exporter guarantees about the document it builds. */
module CityGmlProofs {
  import opened Wrappers
  import opened Text
  import opened CityGml

  // ---------------------------------------------------------------------
  // Geometry precedence

  predicate MeshWins(d: ModelData) { d.mesh.Has? && MeshTruthy(d.mesh.value) }

  predicate ArraysGiven(d: ModelData) { d.vertices.Has? && d.faces.Has? }

  predicate ContoursGiven(d: ModelData)
  {
    d.buildingSegments.Has? && d.buildingSegments.value.Some? && d.buildingSegments.value.value.hasContours
  }

  /** A truthy mesh decides the geometry whatever else the model data holds;
      failing that, a vertices and faces pair decides it whatever
      building_segments holds; contours count only when neither is there. */
  lemma GeometryPrecedence(d: ModelData, other: ModelData)
    ensures MeshWins(d) ==>
      ExtractGeometry(d) == ExtractGeometry(other.(mesh := d.mesh)) &&
      ExtractGeometry(d).Some? && ExtractGeometry(d).value.MeshForm?
    ensures !MeshWins(d) && ArraysGiven(d) ==>
      ExtractGeometry(d) == ExtractGeometry(d.(buildingSegments := other.buildingSegments)) &&
      ExtractGeometry(d) == Some(MeshForm(d.vertices.value, d.faces.value))
    ensures (ExtractGeometry(d).Some? && ExtractGeometry(d).value.ContourForm?) <==>
      !MeshWins(d) && !ArraysGiven(d) && ContoursGiven(d)
    ensures ExtractGeometry(d).None? <==> !MeshWins(d) && !ArraysGiven(d) && !ContoursGiven(d)
  {
  }

  /** A mesh dictionary is used even when it lacks the arrays: its geometry
      then has None for them, and the exterior falls back to the template. */
  lemma MeshWithoutArrays(d: ModelData, lod: nat)
    requires MeshWins(d) && !d.mesh.value.value.vertices.Present?
    requires lod == 1 || lod == 2
    ensures ExteriorSurfaces(lod, ExtractGeometry(d)) == Ok(if lod == 1 then BoxSurfaces() else GableSurfaces())
  {
  }

  // ---------------------------------------------------------------------
  // The templates

  /** No geometry: LOD1 is the six four-point faces Box_Polygon_1..6, LOD2 the
      seven faces of the gable house, LOD3 and LOD4 those seven then
      Window_Polygon_1 and Door_Polygon_1. */
  lemma TemplatesWithoutGeometry(lod: int)
    ensures ExteriorSurfaces(EffectiveLod(lod), None) ==
      Ok(if lod == 1 then BoxSurfaces() else if 3 <= lod <= 4 then DetailedSurfaces() else GableSurfaces())
    ensures |BoxSurfaces()| == 6 && |GableSurfaces()| == 7 && |DetailedSurfaces()| == 9
    ensures forall i :: 0 <= i < 6 ==> |BoxSurfaces()[i].ring| == 4 && BoxSurfaces()[i].id == "Box_Polygon_" + NatToString(i + 1)
    ensures forall i :: 0 <= i < 7 ==> GableSurfaces()[i].id == "Building_Polygon_" + NatToString(i + 1)
    ensures DetailedSurfaces()[..7] == GableSurfaces()
    ensures DetailedSurfaces()[7].id == "Window_Polygon_1" && DetailedSurfaces()[8].id == "Door_Polygon_1"
  {
  }

  /** The gable walls are the two five-point faces, and the ridge at z = 8 is
      the highest point of the house. */
  lemma GableShape()
    ensures forall i :: 0 <= i < 7 ==> (|GableSurfaces()[i].ring| == 5 <==> i == 1 || i == 2)
    ensures forall i, j :: 0 <= i < 7 && 0 <= j < |GableRings()[i]| ==> GableRings()[i][j].z <= 8.0
    ensures GableRings()[1][3] == Point(5.0, 0.0, 8.0) && GableRings()[2][3] == Point(5.0, 10.0, 8.0)
  {
    var g: seq<seq<Point>> := GableRings();
    assert forall j :: 0 <= j < |g[0]| ==> g[0][j].z <= 8.0;
    assert forall j :: 0 <= j < |g[1]| ==> g[1][j].z <= 8.0;
    assert forall j :: 0 <= j < |g[2]| ==> g[2][j].z <= 8.0;
    assert forall j :: 0 <= j < |g[3]| ==> g[3][j].z <= 8.0;
    assert forall j :: 0 <= j < |g[4]| ==> g[4][j].z <= 8.0;
    assert forall j :: 0 <= j < |g[5]| ==> g[5][j].z <= 8.0;
    assert forall j :: 0 <= j < |g[6]| ==> g[6][j].z <= 8.0;
  }

  /** The room's six four-point faces lie in 2 <= x, y <= 8 and 0.1 <= z <= 4.9,
      strictly inside the box template's 10 by 10 by 5. */
  lemma RoomInsideBox()
    ensures |RoomSurfaces()| == 6
    ensures forall i :: 0 <= i < 6 ==> |RoomSurfaces()[i].ring| == 4
    ensures forall i, j :: 0 <= i < 6 && 0 <= j < 4 ==>
      var p := RoomRings()[i][j];
      2.0 <= p.x <= 8.0 && 2.0 <= p.y <= 8.0 && 0.1 <= p.z <= 4.9 &&
      0.0 < p.x < 10.0 && 0.0 < p.y < 10.0 && 0.0 < p.z < 5.0
  {
    var r := RoomRings();
    assert forall i :: 0 <= i < 6 ==> |r[i]| == 4;
  }

  // ---------------------------------------------------------------------
  // Faces from the vertex and face arrays

  /** With both arrays, every lod's exterior is exactly the face polygons:
      mesh-form geometry never carries openings. */
  lemma ArraysGiveFaces(lod: nat, vertices: seq<Point>, faces: seq<Face>)
    requires 1 <= lod <= 4
    ensures ExteriorSurfaces(lod, Some(MeshForm(Some(vertices), Some(faces)))) == FacePolygons(vertices, faces)
  {
    var r := FacePolygons(vertices, faces);
    if r.Ok? {
      assert r.value + [] == r.value;
    }
  }

  /** Polygon i is Building_Polygon_{i+1} and lists vertices[idx] for each idx
      of face i, in order, negative indices counting from the end. */
  lemma FacePolygonsVerbatim(vertices: seq<Point>, faces: seq<Face>, i: nat, j: nat)
    requires FacePolygons(vertices, faces).Ok?
    requires i < |faces| && j < |faces[i]|
    ensures var p := FacePolygons(vertices, faces).value[i];
      p.id == "Building_Polygon_" + NatToString(i + 1) &&
      |p.ring| == |faces[i]| &&
      p.ring[j] == vertices[if faces[i][j] < 0 then faces[i][j] + |vertices| else faces[i][j]]
  {
    assert FaceInRange(vertices, faces[i]);
  }

  /** Without both arrays (contour form, or None arrays) LOD1 and LOD2 use the
      box and the gable; LOD3 and LOD4 the gable followed by the openings. */
  lemma NoArraysUseTemplates(lod: nat, g: Geometry)
    requires 1 <= lod <= 4 && !HasArrays(g)
    ensures lod == 1 ==> ExteriorSurfaces(lod, Some(g)) == Ok(BoxSurfaces())
    ensures lod == 2 ==> ExteriorSurfaces(lod, Some(g)) == Ok(GableSurfaces())
    ensures lod >= 3 ==>
      ExteriorSurfaces(lod, Some(g)) ==
        match OpeningSurfaces(g) case Ok(qs) => Ok(GableSurfaces() + qs) case Err(e) => Err(e)
  {
  }

  // ---------------------------------------------------------------------
  // Openings

  /** The positions from k on whose opening is a window or a door. */
  function KeptFrom(os: seq<Opening>, k: nat): (idx: seq<nat>)
    requires k <= |os|
    ensures forall j :: 0 <= j < |idx| ==> k <= idx[j] < |os| && IsOpeningKind(os[idx[j]])
    ensures forall j1, j2 :: 0 <= j1 < j2 < |idx| ==> idx[j1] < idx[j2]
    ensures forall i :: k <= i < |os| && IsOpeningKind(os[i]) ==> i in idx
    decreases |os| - k
  {
    if k == |os| then [] else (if IsOpeningKind(os[k]) then [k] else []) + KeptFrom(os, k + 1)
  }

  /** The openings loop emits one polygon per window or door, in list order,
      each numbered by its 1-based position in the whole list. */
  lemma {:induction false} OpeningsAreKept(os: seq<Opening>, k: nat)
    requires k <= |os| && OpeningsFrom(os, k).Ok?
    ensures var ps := OpeningsFrom(os, k).value; var idx := KeptFrom(os, k);
      |ps| == |idx| &&
      forall j :: 0 <= j < |idx| ==> os[idx[j]].coords.Present? && ps[j] == OpeningPolygon(os[idx[j]], idx[j])
    decreases |os| - k
  {
    if k < |os| {
      var o := os[k];
      var ps := OpeningsFrom(os, k).value;
      var idx := KeptFrom(os, k);
      var tail := KeptFrom(os, k + 1);
      assert OpeningsFrom(os, k + 1).Ok?;
      var rest := OpeningsFrom(os, k + 1).value;
      OpeningsAreKept(os, k + 1);
      if IsOpeningKind(o) {
        assert ps == [OpeningPolygon(o, k)] + rest;
        assert idx == [k] + tail;
        forall j | 0 <= j < |idx|
          ensures os[idx[j]].coords.Present? && ps[j] == OpeningPolygon(os[idx[j]], idx[j])
        {
          if j > 0 {
            assert ps[j] == rest[j - 1] && idx[j] == tail[j - 1];
          }
        }
      } else {
        assert ps == rest;
        assert idx == tail;
      }
    }
  }

  /** The loop raises exactly when some opening has no 'type', or is a window
      or a door whose 'coords' is missing or None. */
  lemma {:induction false} OpeningsFailIff(os: seq<Opening>, k: nat)
    requires k <= |os|
    ensures OpeningsFrom(os, k).Err? <==> exists i :: k <= i < |os| && OpeningFails(os[i])
    decreases |os| - k
  {
    if k < |os| {
      OpeningsFailIff(os, k + 1);
    }
  }

  /** The error is that of the first failing opening: KeyError for a missing
      'type' or 'coords', TypeError for coords None. */
  lemma {:induction false} OpeningsFirstError(os: seq<Opening>, k: nat, i: nat)
    requires k <= i < |os| && OpeningFails(os[i])
    requires forall j :: k <= j < i ==> !OpeningFails(os[j])
    ensures OpeningsFrom(os, k) == Err(OpeningError(os[i]))
    decreases i - k
  {
    if k < i {
      OpeningsFirstError(os, k + 1, i);
    }
  }

  // ---------------------------------------------------------------------
  // LOD dispatch

  /** An lod outside 1..4 yields exactly the LOD2 building. */
  lemma InvalidLodIsLod2(data: ModelData, lod: int, attrs: BuildingAttributes, buildingType: string, n: nat)
    requires !(1 <= lod <= 4)
    ensures BuildingFor(data, lod, attrs, buildingType, n) == BuildingFor(data, 2, attrs, buildingType, n)
    ensures BuildingFor(data, lod, attrs, buildingType, n).Ok? ==>
      BuildingFor(data, lod, attrs, buildingType, n).value.solid.lod == 2
  {
  }

  /** LOD4 is the LOD3 exterior in a bldg:lod4Solid, plus one room of six
      faces beside the solid, whatever the geometry. */
  lemma Lod4IsLod3PlusRoom(data: ModelData, attrs: BuildingAttributes, buildingType: string, n: nat)
    ensures BuildingFor(data, 4, attrs, buildingType, n).Ok? <==> BuildingFor(data, 3, attrs, buildingType, n).Ok?
    ensures BuildingFor(data, 3, attrs, buildingType, n).Ok? ==>
      var b3 := BuildingFor(data, 3, attrs, buildingType, n).value;
      var b4 := BuildingFor(data, 4, attrs, buildingType, n).value;
      b3.room.None? && b3.solid.lod == 3 &&
      b4 == b3.(solid := b3.solid.(lod := 4), room := Some(Room("Room_" + Uuid(n + 2), "Room_Solid_" + Uuid(n + 3), RoomSurfaces())))
  {
    assert ExteriorSurfaces(4, ExtractGeometry(data)) == ExteriorSurfaces(3, ExtractGeometry(data));
  }

  /** The ids drawn for one document are distinct from each other. */
  lemma IdsDistinct(n: nat)
    ensures forall i: nat, j: nat :: n <= i < j <= n + 3 ==> Uuid(i) != Uuid(j)
  {
    forall i: nat, j: nat | n <= i < j <= n + 3
      ensures Uuid(i) != Uuid(j)
    {
      if Uuid(i) == Uuid(j) {
        NatToStringInjective(i, j);
      }
    }
  }

  // ---------------------------------------------------------------------
  // Attributes

  function Tags(es: seq<Element>): (ts: seq<string>)
    ensures |ts| == |es|
    ensures forall i :: 0 <= i < |es| ==> ts[i] == es[i].tag
  {
    seq(|es|, i requires 0 <= i < |es| => es[i].tag)
  }

  lemma TagsConcat(a: seq<Element>, b: seq<Element>)
    ensures Tags(a + b) == Tags(a) + Tags(b)
  {
  }

  lemma TagsShort(e: Element)
    ensures Tags([]) == [] && Tags([e]) == [e.tag]
  {
  }

  /** The positions from k on of the attribute keys present in f. */
  function PresentFrom(f: map<string, string>, k: nat): (idx: seq<nat>)
    requires k <= |AttributeKeys()|
    ensures forall j :: 0 <= j < |idx| ==> k <= idx[j] < |AttributeKeys()| && AttributeKeys()[idx[j]].0 in f
    ensures forall j1, j2 :: 0 <= j1 < j2 < |idx| ==> idx[j1] < idx[j2]
    ensures forall m :: k <= m < |AttributeKeys()| ==> (m in idx <==> AttributeKeys()[m].0 in f)
    decreases |AttributeKeys()| - k
  {
    if k == |AttributeKeys()| then [] else (if AttributeKeys()[k].0 in f then [k] else []) + PresentFrom(f, k + 1)
  }

  /** es holds the attribute element of each position idx lists. */
  predicate Paired(f: map<string, string>, es: seq<Element>, idx: seq<nat>)
  {
    |es| == |idx| &&
    forall j :: 0 <= j < |idx| ==>
      idx[j] < |AttributeKeys()| && AttributeKeys()[idx[j]].0 in f && es[j] == AttributeElement(f, idx[j])
  }

  lemma PairedCons(f: map<string, string>, k: nat, rest: seq<Element>, tail: seq<nat>)
    requires k < |AttributeKeys()| && AttributeKeys()[k].0 in f && Paired(f, rest, tail)
    ensures Paired(f, [AttributeElement(f, k)] + rest, [k] + tail)
  {
    var es := [AttributeElement(f, k)] + rest;
    var idx := [k] + tail;
    forall j | 0 < j < |idx|
      ensures es[j] == rest[j - 1] && idx[j] == tail[j - 1]
    {
    }
  }

  lemma {:induction false} SimpleAttributesPresent(f: map<string, string>, k: nat)
    requires k <= |AttributeKeys()|
    ensures var es := SimpleAttributes(f, k); var idx := PresentFrom(f, k);
      |es| == |idx| && forall j :: 0 <= j < |idx| ==> es[j] == AttributeElement(f, idx[j])
    decreases |AttributeKeys()| - k
  {
    PresentPaired(f, k);
  }

  lemma {:induction false} PresentPaired(f: map<string, string>, k: nat)
    requires k <= |AttributeKeys()|
    ensures Paired(f, SimpleAttributes(f, k), PresentFrom(f, k))
    decreases |AttributeKeys()| - k
  {
    if k < |AttributeKeys()| {
      PresentPaired(f, k + 1);
      var rest := SimpleAttributes(f, k + 1);
      var tail := PresentFrom(f, k + 1);
      if AttributeKeys()[k].0 in f {
        assert SimpleAttributes(f, k) == [AttributeElement(f, k)] + rest;
        assert PresentFrom(f, k) == [k] + tail;
        PairedCons(f, k, rest, tail);
      } else {
        assert SimpleAttributes(f, k) == [] + rest;
        assert PresentFrom(f, k) == [] + tail;
      }
    }
  }

  /** The attribute elements are those of the keys present in building_attributes,
      in the fixed order class, function, usage, yearOfConstruction,
      storeysAboveGround, storeysBelowGround, measuredHeight (each with the
      key's text, measuredHeight with uom="m"), then bldg:address iff an
      address is given. */
  lemma AttributeElementsOrdered(b: BuildingAttributes)
    ensures var es := AttributeElements(b); var idx := PresentFrom(b.fields, 0);
      |es| == |idx| + (if b.address.Some? then 1 else 0) &&
      (forall j :: 0 <= j < |idx| ==> es[j] == AttributeElement(b.fields, idx[j])) &&
      (b.address.Some? ==> es[|idx|] == AddressElement(b.address.value))
  {
    SimpleAttributesPresent(b.fields, 0);
  }

  lemma AttributeElementText(f: map<string, string>, m: nat)
    requires m < |AttributeKeys()| && AttributeKeys()[m].0 in f
    ensures AttributeElement(f, m).tag == AttributeKeys()[m].1
    ensures AttributeElement(f, m).text == f[AttributeKeys()[m].0]
    ensures AttributeElement(f, m).attributes == if m == 6 then [("uom", "m")] else []
  {
  }

  /** The tag, when a flag holds. */
  function TagIf(present: bool, tag: string): seq<string>
  {
    if present then [tag] else []
  }

  /** The tags of the address children: one per field given, in the order
      country, city, street, postal_code. */
  lemma AddressTags(a: map<string, string>)
    ensures Tags(AddressParts(a)) ==
      TagIf("country" in a, "xAL:Country") + TagIf("city" in a, "xAL:Locality") +
      TagIf("street" in a, "xAL:Thoroughfare") + TagIf("postal_code" in a, "xAL:PostCode")
  {
    TagsConcat(CountryPart(a), LocalityPart(a));
    TagsConcat(CountryPart(a) + LocalityPart(a), ThoroughfarePart(a));
    TagsConcat(CountryPart(a) + LocalityPart(a) + ThoroughfarePart(a), PostCodePart(a));
    var e := Leaf("", "");
    TagsShort(e);
    if "country" in a { TagsShort(CountryPart(a)[0]); }
    if "city" in a { TagsShort(LocalityPart(a)[0]); }
    if "street" in a { TagsShort(ThoroughfarePart(a)[0]); }
    if "postal_code" in a { TagsShort(PostCodePart(a)[0]); }
  }

  /** The address children follow the same rule as the attributes: each is
      there iff its field is given. */
  lemma AddressPartsPresence(a: map<string, string>)
    ensures var ts := Tags(AddressParts(a));
      ("xAL:Country" in ts <==> "country" in a) &&
      ("xAL:Locality" in ts <==> "city" in a) &&
      ("xAL:Thoroughfare" in ts <==> "street" in a) &&
      ("xAL:PostCode" in ts <==> "postal_code" in a)
  {
    AddressTags(a);
    var c, l, t, p := "xAL:Country", "xAL:Locality", "xAL:Thoroughfare", "xAL:PostCode";
    assert |c| == 11 && |l| == 12 && |t| == 16 && |p| == 12;
    assert l[4] != p[4];
  }

  /** A value that occurs once, between pre and post, sits at |pre| only. */
  lemma OnlyBetween(ts: seq<string>, pre: seq<string>, x: string, post: seq<string>)
    requires ts == pre + [x] + post && x !in pre && x !in post
    ensures forall i :: 0 <= i < |ts| && ts[i] == x ==> i == |pre|
  {
  }


  /** ThoroughfareNumber is there only when both street and number are given. */
  lemma ThoroughfareNumberPresence(a: map<string, string>)
    ensures var ps := AddressParts(a);
      forall i :: 0 <= i < |ps| && ps[i].tag == "xAL:Thoroughfare" ==>
        ("xAL:ThoroughfareNumber" in Tags(ps[i].children) <==> "number" in a)
  {
    var ps := AddressParts(a);
    var t := "xAL:Thoroughfare";
    AddressTags(a);
    var pre := TagIf("country" in a, "xAL:Country") + TagIf("city" in a, "xAL:Locality");
    var post := TagIf("postal_code" in a, "xAL:PostCode");
    assert |"xAL:Country"| == 11 && |"xAL:Locality"| == 12 && |t| == 16 && |"xAL:PostCode"| == 12;
    assert t !in pre && t !in post;
    if "street" in a {
      var cl := CountryPart(a) + LocalityPart(a);
      assert |cl| == |pre|;
      assert ps == cl + ThoroughfarePart(a) + PostCodePart(a);
      assert ps[|cl|] == ThoroughfarePart(a)[0];
      OnlyBetween(Tags(ps), pre, t, post);
      var name := [Leaf("xAL:ThoroughfareName", a["street"])];
      var number := if "number" in a then [Leaf("xAL:ThoroughfareNumber", a["number"])] else [];
      TagsConcat(name, number);
      TagsShort(name[0]);
      if "number" in a { TagsShort(number[0]); }
      assert |"xAL:ThoroughfareName"| != |"xAL:ThoroughfareNumber"|;
    } else {
      assert Tags(ps) == pre + post;
      assert t !in Tags(ps);
    }
  }

  // ---------------------------------------------------------------------
  // posList and envelope

  /** Token 3i, 3i+1, 3i+2 of a posList are x, y, z of position i. */
  lemma {:induction false} PosListTokens(ring: seq<Point>, i: nat)
    requires i < |ring|
    ensures PosList(ring)[3 * i] == ring[i].x
    ensures PosList(ring)[3 * i + 1] == ring[i].y
    ensures PosList(ring)[3 * i + 2] == ring[i].z
  {
    if i > 0 {
      PosListTokens(ring[1..], i - 1);
    }
  }

  /** A posList reads back as the ring it was written from: not re-wound, not closed. */
  lemma {:induction false} PosListRoundTrip(ring: seq<Point>)
    ensures ReadPosList(PosList(ring)) == Some(ring)
  {
    if |ring| > 0 {
      var t := PosList(ring);
      assert t[3..] == PosList(ring[1..]);
      PosListRoundTrip(ring[1..]);
      assert [ring[0]] + ring[1..] == ring;
    }
  }

  /** The envelope names the EPSG code it was given. */
  lemma EnvelopeNamesEpsg(a: int, b: int)
    requires RootEnvelope(a).srsName == RootEnvelope(b).srsName
    ensures a == b
  {
    IntToStringInjective(a, b);
  }
}
