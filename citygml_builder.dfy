/** CityGMLExporter's builders: each `_add_*` method appends gml:surfaceMember
    polygons to a CompositeSurface element in place, and the exporter draws a
    fresh id for every solid and room it creates. */
module CityGmlBuilder {
  import opened Wrappers
  import opened Text
  import opened Paths
  import opened CityGml

  /** Prefixes the polygons already added to the outcome of the rest of a loop. */
  function Prepend(added: seq<Polygon>, rest: Result<seq<Polygon>>): Result<seq<Polygon>>
  {
    match rest
    case Ok(ps) => Ok(added + ps)
    case Err(e) => Err(e)
  }

  lemma PrependNothing(r: Result<seq<Polygon>>)
    ensures Prepend([], r) == r
  {
    if r.Ok? {
      assert [] + r.value == r.value;
    }
  }

  lemma PrependStep(added: seq<Polygon>, p: Polygon, rest: Result<seq<Polygon>>)
    ensures Prepend(added, Prepend([p], rest)) == Prepend(added + [p], rest)
  {
    if rest.Ok? {
      assert added + ([p] + rest.value) == (added + [p]) + rest.value;
    }
  }

  /** A gml:CompositeSurface element: the polygons of its surfaceMember children. */
  class CompositeSurface {
    var members: seq<Polygon>

    constructor ()
      ensures members == []
    {
      members := [];
    }

    /** _add_polygon_surface */
    method AddPolygonSurface(ring: seq<Point>, id: string)
      modifies this
      ensures members == old(members) + [Polygon(id, ring)]
    {
      members := members + [Polygon(id, ring)];
    }

    /** The enumerate loops over a coordinate table, naming face i `prefix{i+1}`. */
    method AddNumbered(prefix: string, rings: seq<seq<Point>>)
      modifies this
      ensures members == old(members) + Numbered(prefix, rings)
    {
      var i := 0;
      while i < |rings|
        invariant 0 <= i <= |rings|
        invariant members == old(members) + Numbered(prefix, rings[..i])
      {
        AddPolygonSurface(rings[i], prefix + NatToString(i + 1));
        assert rings[..i + 1] == rings[..i] + [rings[i]];
        i := i + 1;
      }
      assert rings[..i] == rings;
    }

    /** _add_box_surfaces */
    method AddBoxSurfaces()
      modifies this
      ensures members == old(members) + BoxSurfaces()
    {
      AddNumbered("Box_Polygon_", BoxRings());
    }

    /** _add_building_with_roof_surfaces */
    method AddBuildingWithRoofSurfaces()
      modifies this
      ensures members == old(members) + GableSurfaces()
    {
      AddNumbered("Building_Polygon_", GableRings());
    }

    /** _add_detailed_building_surfaces */
    method AddDetailedBuildingSurfaces()
      modifies this
      ensures members == old(members) + DetailedSurfaces()
    {
      AddBuildingWithRoofSurfaces();
      AddPolygonSurface(WindowRing(), "Window_Polygon_1");
      AddPolygonSurface(DoorRing(), "Door_Polygon_1");
    }

    /** The loop over the faces shared by the two geometry paths: one polygon
        per face, `vertices[idx]` for each idx of it; IndexError for an index
        out of range, after which the document is abandoned. */
    method AddFaces(vertices: seq<Point>, faces: seq<Face>) returns (o: Outcome)
      modifies this
      ensures match FacePolygons(vertices, faces)
        case Ok(ps) => o == Pass && members == old(members) + ps
        case Err(e) => o == Fail(e)
    {
      var i := 0;
      while i < |faces|
        invariant 0 <= i <= |faces|
        invariant forall k :: 0 <= k < i ==> FaceInRange(vertices, faces[k])
        invariant members == old(members) +
          seq(i, k requires 0 <= k < i && FaceInRange(vertices, faces[k]) =>
            Polygon("Building_Polygon_" + NatToString(k + 1), FaceRing(vertices, faces[k])))
      {
        var face := faces[i];
        var ring: seq<Point> := [];
        var j := 0;
        while j < |face|
          invariant 0 <= j <= |face| && |ring| == j
          invariant forall m :: 0 <= m < j ==>
            PyIndex(face[m], |vertices|).Some? && ring[m] == vertices[PyIndex(face[m], |vertices|).value]
        {
          var idx := PyIndex(face[j], |vertices|);
          if idx.None? {
            assert !FaceInRange(vertices, faces[i]);
            return Fail(IndexError);
          }
          ring := ring + [vertices[idx.value]];
          j := j + 1;
        }
        assert FaceInRange(vertices, face);
        assert ring == FaceRing(vertices, face);
        AddPolygonSurface(ring, "Building_Polygon_" + NatToString(i + 1));
        i := i + 1;
      }
      o := Pass;
    }

    /** _add_simplified_building_surfaces (LOD1 with geometry). */
    method AddSimplifiedBuildingSurfaces(g: Geometry) returns (o: Outcome)
      modifies this
      ensures match ExteriorSurfaces(1, Some(g))
        case Ok(ps) => o == Pass && members == old(members) + ps
        case Err(e) => o == Fail(e)
    {
      if HasArrays(g) {
        o := AddFaces(g.vertices.value, g.faces.value);
      } else {
        AddBoxSurfaces();
        o := Pass;
      }
    }

    /** _add_building_surfaces (LOD2 with geometry, and the exterior of LOD3 and LOD4). */
    method AddBuildingSurfaces(g: Geometry) returns (o: Outcome)
      modifies this
      ensures match ExteriorSurfaces(2, Some(g))
        case Ok(ps) => o == Pass && members == old(members) + ps
        case Err(e) => o == Fail(e)
    {
      if HasArrays(g) {
        o := AddFaces(g.vertices.value, g.faces.value);
      } else {
        AddBuildingWithRoofSurfaces();
        o := Pass;
      }
    }

    /** The loop over building_data['openings']. */
    method AddOpenings(os: seq<Opening>) returns (o: Outcome)
      modifies this
      ensures match OpeningsFrom(os, 0)
        case Ok(ps) => o == Pass && members == old(members) + ps
        case Err(e) => o == Fail(e)
    {
      ghost var added: seq<Polygon> := [];
      var i := 0;
      PrependNothing(OpeningsFrom(os, 0));
      while i < |os|
        invariant 0 <= i <= |os|
        invariant members == old(members) + added
        invariant OpeningsFrom(os, 0) == Prepend(added, OpeningsFrom(os, i))
      {
        var opening := os[i];
        if opening.kind.None? {
          return Fail(KeyError);
        }
        if opening.kind == Some("window") {
          if opening.coords.Absent? {
            return Fail(KeyError);
          }
          if opening.coords.Null? {
            return Fail(TypeError);
          }
          AddPolygonSurface(opening.coords.value, "Window_Polygon_" + NatToString(i + 1));
          PrependStep(added, OpeningPolygon(opening, i), OpeningsFrom(os, i + 1));
          added := added + [OpeningPolygon(opening, i)];
        } else if opening.kind == Some("door") {
          if opening.coords.Absent? {
            return Fail(KeyError);
          }
          if opening.coords.Null? {
            return Fail(TypeError);
          }
          AddPolygonSurface(opening.coords.value, "Door_Polygon_" + NatToString(i + 1));
          PrependStep(added, OpeningPolygon(opening, i), OpeningsFrom(os, i + 1));
          added := added + [OpeningPolygon(opening, i)];
        }
        i := i + 1;
      }
      assert members == old(members) + added;
      o := Pass;
    }

    /** _add_detailed_building_surfaces_from_geometry (LOD3 and LOD4 with geometry). */
    method AddDetailedFromGeometry(g: Geometry) returns (o: Outcome)
      modifies this
      ensures match ExteriorSurfaces(3, Some(g))
        case Ok(ps) => o == Pass && members == old(members) + ps
        case Err(e) => o == Fail(e)
    {
      o := AddBuildingSurfaces(g);
      if o.Fail? {
        return;
      }
      ghost var exterior := members;
      if g.ContourForm? {
        match g.buildingData.openings
        case Absent =>
          assert members == exterior + [];
        case Null =>
          o := Fail(TypeError);
        case Present(os) =>
          o := AddOpenings(os);
      } else {
        assert members == exterior + [];
      }
    }
  }

  /** The keywords `export` leaves out default to lod 2, no attributes,
      EPSG 4326 and the building type Building. */
  function LodOrDefault(lod: Option<int>): int
  {
    if lod.Some? then lod.value else 2
  }

  function AttrsOrDefault(attrs: Option<BuildingAttributes>): BuildingAttributes
  {
    if attrs.Some? then attrs.value else BuildingAttributes(map[], None)
  }

  function EpsgOrDefault(epsg: Option<int>): int
  {
    if epsg.Some? then epsg.value else 4326
  }

  function TypeOrDefault(buildingType: Option<string>): string
  {
    if buildingType.Some? then buildingType.value else "Building"
  }

  lemma GmlIsProperSuffix()
    ensures ProperSuffix(".gml") && Lower(".gml") == ".gml"
  {
  }

  /** What `export` returns for the id counter at n: the output path with its
      suffix forced to .gml, and the document of the defaulted keywords. */
  function ExportResult(data: ModelData, outputPath: Path, lod: Option<int>, attrs: Option<BuildingAttributes>,
                        epsg: Option<int>, buildingType: Option<string>, n: nat)
    : (r: Result<(Path, CityModel)>)
    ensures Name(outputPath) == "" ==> r == Err(ValueError)
    ensures r.Ok? ==> Lower(PathSuffix(r.value.0)) == ".gml" && Name(r.value.0) != ""
    ensures r.Ok? && Lower(PathSuffix(outputPath)) == ".gml" ==> r.value.0 == outputPath
    ensures Name(outputPath) != "" ==>
      var doc := DocumentFor(data, LodOrDefault(lod), AttrsOrDefault(attrs), EpsgOrDefault(epsg), TypeOrDefault(buildingType), n);
      (r.Ok? <==> doc.Ok?) && (r.Ok? ==> r.value.1 == doc.value) && (r.Err? ==> r.error == doc.error)
  {
    GmlIsProperSuffix();
    match ForceSuffix(outputPath, ".gml")
    case Err(err) => Err(err)
    case Ok(p) =>
      match DocumentFor(data, LodOrDefault(lod), AttrsOrDefault(attrs), EpsgOrDefault(epsg), TypeOrDefault(buildingType), n)
      case Ok(doc) => Ok((p, doc))
      case Err(err) => Err(err)
  }

  /** CityGMLExporter; `issued` counts the ids drawn so far, standing for uuid4. */
  class CityGmlExporter {
    var issued: nat

    constructor ()
      ensures issued == 0
    {
      issued := 0;
    }

    /** _generate_uuid */
    method GenerateUuid() returns (id: string)
      modifies this
      ensures id == Uuid(old(issued)) && issued == old(issued) + 1
    {
      id := Uuid(issued);
      issued := issued + 1;
    }

    /** _add_lod1_solid .. _add_lod4_solid without the room: a solid with a
        fresh id and the CompositeSurface of the lod, template or geometry. */
    method AddLodSolid(lod: nat, data: ModelData) returns (r: Result<Solid>)
      requires 1 <= lod <= 4
      modifies this
      ensures issued == old(issued) + 1
      ensures r == match ExteriorSurfaces(lod, ExtractGeometry(data))
        case Ok(ps) => Ok(Solid(lod, "Solid_" + Uuid(old(issued)), ps))
        case Err(e) => Err(e)
    {
      var uuid := GenerateUuid();
      var surface := new CompositeSurface();
      var geom := ExtractGeometry(data);
      ghost var expected := ExteriorSurfaces(lod, geom);
      var o := Pass;
      if geom.None? {
        if lod == 1 {
          surface.AddBoxSurfaces();
        } else if lod == 2 {
          surface.AddBuildingWithRoofSurfaces();
        } else {
          surface.AddDetailedBuildingSurfaces();
        }
      } else if lod == 1 {
        o := surface.AddSimplifiedBuildingSurfaces(geom.value);
      } else if lod == 2 {
        o := surface.AddBuildingSurfaces(geom.value);
      } else {
        o := surface.AddDetailedFromGeometry(geom.value);
        assert expected == ExteriorSurfaces(3, geom);
      }
      if o.Fail? {
        return Err(o.error);
      }
      assert surface.members == [] + expected.value;
      assert [] + expected.value == expected.value;
      r := Ok(Solid(lod, "Solid_" + uuid, surface.members));
    }

    /** _add_interior_features: the room and its solid get fresh ids. */
    method AddInteriorFeatures() returns (room: Room)
      modifies this
      ensures issued == old(issued) + 2
      ensures room == Room("Room_" + Uuid(old(issued)), "Room_Solid_" + Uuid(old(issued) + 1), RoomSurfaces())
    {
      var roomId := GenerateUuid();
      var solidId := GenerateUuid();
      var surface := new CompositeSurface();
      surface.AddNumbered("Room_Polygon_", RoomRings());
      room := Room("Room_" + roomId, "Room_Solid_" + solidId, surface.members);
    }

    /** _add_building */
    method AddBuilding(data: ModelData, lod: int, attrs: BuildingAttributes, buildingType: string)
      returns (r: Result<Building>)
      modifies this
      ensures r == BuildingFor(data, lod, attrs, buildingType, old(issued))
      ensures r.Ok? ==> issued == old(issued) + IdsUsed(lod)
      ensures r.Err? ==> issued == old(issued) + 2
    {
      var uuid := GenerateUuid();
      var attributes := AttributeElements(attrs);
      var l := EffectiveLod(lod);
      var solid := AddLodSolid(l, data);
      if solid.Err? {
        return Err(solid.error);
      }
      var room: Option<Room> := None;
      if l == 4 {
        var rm := AddInteriorFeatures();
        room := Some(rm);
      }
      r := Ok(Building("bldg:" + buildingType, "Building_" + uuid, attributes, solid.value, room));
    }

    /** export: the path gets the `.gml` suffix unless it already has it in any
        case; then the root and the building. */
    method Export(data: ModelData, outputPath: Path, lod: Option<int>, attrs: Option<BuildingAttributes>,
                  epsg: Option<int>, buildingType: Option<string>)
      returns (r: Result<(Path, CityModel)>)
      modifies this
      ensures r == ExportResult(data, outputPath, lod, attrs, epsg, buildingType, old(issued))
      ensures issued >= old(issued)
      ensures r.Ok? ==> issued == old(issued) + IdsUsed(LodOrDefault(lod))
      ensures r.Err? ==> issued == old(issued) || issued == old(issued) + 2
    {
      ghost var n := issued;
      GmlIsProperSuffix();
      var path := ForceSuffix(outputPath, ".gml");
      if path.Err? {
        return Err(path.error);
      }
      var l := LodOrDefault(lod);
      var a := AttrsOrDefault(attrs);
      var e := EpsgOrDefault(epsg);
      var t := TypeOrDefault(buildingType);
      var envelope := RootEnvelope(e);
      var building := AddBuilding(data, l, a, t);
      if building.Err? {
        assert DocumentFor(data, l, a, e, t, n) == Err(building.error);
        return Err(building.error);
      }
      assert DocumentFor(data, l, a, e, t, n) == Ok(CityModel(Namespaces(), envelope, building.value));
      r := Ok((path.value, CityModel(Namespaces(), envelope, building.value)));
    }
  }
}
