/** The CityGML 2.0 document that threedify/export/citygml.py builds, as
    values: the building with its attribute elements, one LOD solid whose
    CompositeSurface is a sequence of polygons, and for LOD4 a room. The XML
    element tree is kept abstract; coordinates are reals. */
module CityGml {
  import opened Wrappers
  import opened Text

  datatype Point = Point(x: real, y: real, z: real)

  /** A gml:Polygon: its gml:id and the positions of its exterior LinearRing,
      in the order given (never closed by repeating the first position). */
  datatype Polygon = Polygon(id: string, ring: seq<Point>)

  /** A face: indices into the vertex array, with Python's indexing. */
  type Face = seq<int>

  // ---------------------------------------------------------------------
  // The model data the exporter is handed

  /** Whether an object has an attribute (hasattr), and its value. */
  datatype Attr<T> = Missing | Has(value: T)

  /** A dictionary entry: key absent, key holding None, key holding a value. */
  datatype Field<T> = Absent | Null | Present(value: T)

  /** `model_data.mesh` when it is a dictionary: what `.get('vertices')` and
      `.get('faces')` find, and how many other keys it has. */
  datatype MeshDict = MeshDict(vertices: Field<seq<Point>>, faces: Field<seq<Face>>, otherKeys: nat)

  /** One entry of building_segments['openings']: its 'type' entry (None
      where the key is missing) and its 'coords' entry, which may also be
      present with the value None. */
  datatype Opening = Opening(kind: Option<string>, coords: Field<seq<Point>>)

  /** `model_data.building_segments` when it is a dictionary: whether it has
      a 'contours' key, and its 'openings' entry. */
  datatype Segments = Segments(hasContours: bool, openings: Field<seq<Opening>>)

  /** The attributes of model_data the exporter looks at; None is Python's None. */
  datatype ModelData = ModelData(
    mesh: Attr<Option<MeshDict>>,
    vertices: Attr<Option<seq<Point>>>,
    faces: Attr<Option<seq<Face>>>,
    buildingSegments: Attr<Option<Segments>>)

  /** The dictionary _extract_geometry returns: vertices and faces (either
      may be None), or contours with the whole building_data. */
  datatype Geometry =
    | MeshForm(vertices: Option<seq<Point>>, faces: Option<seq<Face>>)
    | ContourForm(buildingData: Segments)

  // ---------------------------------------------------------------------
  // The document

  /** An element of the attribute part of the building: tag, XML attributes,
      text and children. */
  datatype Element = Element(tag: string, attributes: seq<(string, string)>, text: string, children: seq<Element>)

  /** A bldg:lodNSolid holding a gml:Solid with its gml:id and its CompositeSurface. */
  datatype Solid = Solid(lod: nat, id: string, surfaces: seq<Polygon>)

  /** A bldg:Room with the gml:id of the room and of its LOD4 solid. */
  datatype Room = Room(id: string, solidId: string, surfaces: seq<Polygon>)

  datatype Building = Building(tag: string, id: string, attributes: seq<Element>, solid: Solid, room: Option<Room>)

  /** The gml:Envelope of gml:boundedBy. */
  datatype Envelope = Envelope(srsName: string, lowerCorner: string, upperCorner: string)

  /** The CityModel root with its single cityObjectMember. */
  datatype CityModel = CityModel(namespaces: seq<Namespace>, envelope: Envelope, building: Building)

  /** building_attributes: string values (the numeric ones as their str());
      `address` is the 'address' dictionary when that key is present. */
  datatype BuildingAttributes = BuildingAttributes(fields: map<string, string>, address: Option<map<string, string>>)

  // ---------------------------------------------------------------------
  // _extract_geometry

  predicate MeshTruthy(m: Option<MeshDict>)
  {
    m.Some? && (m.value.vertices != Absent || m.value.faces != Absent || m.value.otherKeys > 0)
  }

  /** dict.get(key, None) */
  function GetOrNone<T>(f: Field<T>): Option<T>
  {
    if f.Present? then Some(f.value) else None
  }

  /** _extract_geometry_data: a truthy mesh dictionary wins, then a
      vertices-and-faces pair, then building segments with contours. */
  function ExtractGeometry(d: ModelData): (r: Option<Geometry>)
    ensures d.mesh.Has? && MeshTruthy(d.mesh.value) ==> r.Some? && r.value.MeshForm?
    ensures r.Some? && r.value.ContourForm? ==> r.value.buildingData.hasContours
    ensures d.vertices.Has? && d.faces.Has? ==> r.Some? && r.value.MeshForm?
    ensures r.None? ==> !(d.vertices.Has? && d.faces.Has?) && !(d.mesh.Has? && MeshTruthy(d.mesh.value))
  {
    if d.mesh.Has? && MeshTruthy(d.mesh.value) then
      Some(MeshForm(GetOrNone(d.mesh.value.value.vertices), GetOrNone(d.mesh.value.value.faces)))
    else if d.vertices.Has? && d.faces.Has? then
      Some(MeshForm(d.vertices.value, d.faces.value))
    else if d.buildingSegments.Has? && d.buildingSegments.value.Some? && d.buildingSegments.value.value.hasContours then
      Some(ContourForm(d.buildingSegments.value.value))
    else None
  }

  // ---------------------------------------------------------------------
  // The fixed coordinate tables

  function BoxRings(): seq<seq<Point>>
  {
    [ [Point(0.0, 0.0, 0.0), Point(10.0, 0.0, 0.0), Point(10.0, 10.0, 0.0), Point(0.0, 10.0, 0.0)],
      [Point(0.0, 0.0, 5.0), Point(10.0, 0.0, 5.0), Point(10.0, 10.0, 5.0), Point(0.0, 10.0, 5.0)],
      [Point(0.0, 0.0, 0.0), Point(10.0, 0.0, 0.0), Point(10.0, 0.0, 5.0), Point(0.0, 0.0, 5.0)],
      [Point(0.0, 10.0, 0.0), Point(10.0, 10.0, 0.0), Point(10.0, 10.0, 5.0), Point(0.0, 10.0, 5.0)],
      [Point(0.0, 0.0, 0.0), Point(0.0, 10.0, 0.0), Point(0.0, 10.0, 5.0), Point(0.0, 0.0, 5.0)],
      [Point(10.0, 0.0, 0.0), Point(10.0, 10.0, 0.0), Point(10.0, 10.0, 5.0), Point(10.0, 0.0, 5.0)] ]
  }

  /** The gable-roofed house: floor, front and back gable walls, side walls, two roof planes. */
  function GableRings(): seq<seq<Point>>
  {
    [ [Point(0.0, 0.0, 0.0), Point(10.0, 0.0, 0.0), Point(10.0, 10.0, 0.0), Point(0.0, 10.0, 0.0)],
      [Point(0.0, 0.0, 0.0), Point(10.0, 0.0, 0.0), Point(10.0, 0.0, 5.0), Point(5.0, 0.0, 8.0), Point(0.0, 0.0, 5.0)],
      [Point(0.0, 10.0, 0.0), Point(10.0, 10.0, 0.0), Point(10.0, 10.0, 5.0), Point(5.0, 10.0, 8.0), Point(0.0, 10.0, 5.0)],
      [Point(0.0, 0.0, 0.0), Point(0.0, 10.0, 0.0), Point(0.0, 10.0, 5.0), Point(0.0, 0.0, 5.0)],
      [Point(10.0, 0.0, 0.0), Point(10.0, 10.0, 0.0), Point(10.0, 10.0, 5.0), Point(10.0, 0.0, 5.0)],
      [Point(0.0, 0.0, 5.0), Point(5.0, 0.0, 8.0), Point(5.0, 10.0, 8.0), Point(0.0, 10.0, 5.0)],
      [Point(5.0, 0.0, 8.0), Point(10.0, 0.0, 5.0), Point(10.0, 10.0, 5.0), Point(5.0, 10.0, 8.0)] ]
  }

  function WindowRing(): seq<Point>
  {
    [Point(2.0, 0.01, 2.0), Point(4.0, 0.01, 2.0), Point(4.0, 0.01, 4.0), Point(2.0, 0.01, 4.0)]
  }

  function DoorRing(): seq<Point>
  {
    [Point(7.0, 0.01, 0.0), Point(9.0, 0.01, 0.0), Point(9.0, 0.01, 3.0), Point(7.0, 0.01, 3.0)]
  }

  function RoomRings(): seq<seq<Point>>
  {
    [ [Point(2.0, 2.0, 0.1), Point(8.0, 2.0, 0.1), Point(8.0, 8.0, 0.1), Point(2.0, 8.0, 0.1)],
      [Point(2.0, 2.0, 4.9), Point(8.0, 2.0, 4.9), Point(8.0, 8.0, 4.9), Point(2.0, 8.0, 4.9)],
      [Point(2.0, 2.0, 0.1), Point(8.0, 2.0, 0.1), Point(8.0, 2.0, 4.9), Point(2.0, 2.0, 4.9)],
      [Point(2.0, 8.0, 0.1), Point(8.0, 8.0, 0.1), Point(8.0, 8.0, 4.9), Point(2.0, 8.0, 4.9)],
      [Point(2.0, 2.0, 0.1), Point(2.0, 8.0, 0.1), Point(2.0, 8.0, 4.9), Point(2.0, 2.0, 4.9)],
      [Point(8.0, 2.0, 0.1), Point(8.0, 8.0, 0.1), Point(8.0, 8.0, 4.9), Point(8.0, 2.0, 4.9)] ]
  }

  /** `prefix{i+1}` for the i-th ring of a table, as the enumerate loops
      name them: one polygon per ring, and no two with the same id. */
  function Numbered(prefix: string, rings: seq<seq<Point>>): (ps: seq<Polygon>)
    ensures |ps| == |rings|
    ensures forall i :: 0 <= i < |rings| ==> ps[i].ring == rings[i]
    ensures forall i, j :: 0 <= i < j < |ps| ==> ps[i].id != ps[j].id
  {
    var ps := seq(|rings|, i requires 0 <= i < |rings| => Polygon(prefix + NatToString(i + 1), rings[i]));
    forall i, j | 0 <= i < j < |ps|
      ensures ps[i].id != ps[j].id
    {
      if ps[i].id == ps[j].id {
        assert ps[i].id[|prefix|..] == NatToString(i + 1);
        assert ps[j].id[|prefix|..] == NatToString(j + 1);
        NatToStringInjective(i + 1, j + 1);
      }
    }
    ps
  }

  function BoxSurfaces(): seq<Polygon> { Numbered("Box_Polygon_", BoxRings()) }

  function GableSurfaces(): seq<Polygon> { Numbered("Building_Polygon_", GableRings()) }

  function DetailedSurfaces(): seq<Polygon>
  {
    GableSurfaces() + [Polygon("Window_Polygon_1", WindowRing()), Polygon("Door_Polygon_1", DoorRing())]
  }

  function RoomSurfaces(): seq<Polygon> { Numbered("Room_Polygon_", RoomRings()) }

  // ---------------------------------------------------------------------
  // Faces taken verbatim from vertex and face arrays

  /** Python's sequence indexing: negative indices count from the end;
      None where `vertices[idx]` raises IndexError. */
  function PyIndex(idx: int, n: nat): (r: Option<nat>)
    ensures r.Some? <==> -(n as int) <= idx < n
    ensures r.Some? ==> r.value < n && (r.value == idx || r.value == idx + n)
  {
    if 0 <= idx < n then Some(idx) else if -(n as int) <= idx < 0 then Some(idx + n) else None
  }

  predicate FaceInRange(vertices: seq<Point>, face: Face)
  {
    forall j :: 0 <= j < |face| ==> PyIndex(face[j], |vertices|).Some?
  }

  /** `[vertices[idx] for idx in face]` */
  function FaceRing(vertices: seq<Point>, face: Face): seq<Point>
    requires FaceInRange(vertices, face)
  {
    seq(|face|, j requires 0 <= j < |face| && FaceInRange(vertices, face) => vertices[PyIndex(face[j], |vertices|).value])
  }

  /** The polygons of the enumerate loop over the faces: Building_Polygon_{i+1}
      for face i; IndexError when some face names a vertex that is not there. */
  function FacePolygons(vertices: seq<Point>, faces: seq<Face>): (r: Result<seq<Polygon>>)
    ensures r.Ok? <==> forall i :: 0 <= i < |faces| ==> FaceInRange(vertices, faces[i])
    ensures r.Err? ==> r.error == IndexError
    ensures r.Ok? ==> |r.value| == |faces|
  {
    if forall i :: 0 <= i < |faces| ==> FaceInRange(vertices, faces[i]) then
      Ok(seq(|faces|, i requires 0 <= i < |faces| && FaceInRange(vertices, faces[i]) =>
        Polygon("Building_Polygon_" + NatToString(i + 1), FaceRing(vertices, faces[i]))))
    else Err(IndexError)
  }

  // ---------------------------------------------------------------------
  // Openings

  predicate IsOpeningKind(o: Opening)
  {
    o.kind == Some("window") || o.kind == Some("door")
  }

  /** The polygon for an opening of a kept kind at position i of the list. */
  function OpeningPolygon(o: Opening, i: nat): Polygon
    requires IsOpeningKind(o) && o.coords.Present?
  {
    Polygon((if o.kind == Some("window") then "Window_Polygon_" else "Door_Polygon_") + NatToString(i + 1), o.coords.value)
  }

  /** Whether the loop raises at this opening: it has no 'type', or it is a
      window or a door whose 'coords' is missing or None. */
  predicate OpeningFails(o: Opening)
  {
    o.kind.None? || (IsOpeningKind(o) && !o.coords.Present?)
  }

  /** What the loop raises at a failing opening: KeyError for a missing key,
      and TypeError when the posList comprehension iterates a None coords. */
  function OpeningError(o: Opening): Error
  {
    if o.kind.None? || o.coords.Absent? then KeyError else TypeError
  }

  /** The openings loop from position k on: the error of the first opening
      that fails; windows and doors become polygons, other kinds are skipped. */
  function OpeningsFrom(os: seq<Opening>, k: nat): (r: Result<seq<Polygon>>)
    requires k <= |os|
    ensures r.Err? ==> r.error == KeyError || r.error == TypeError
    ensures r.Ok? ==> |r.value| <= |os| - k
    decreases |os| - k
  {
    if k == |os| then Ok([])
    else
      var o := os[k];
      if o.kind.None? then Err(KeyError)
      else if IsOpeningKind(o) then
        if !o.coords.Present? then Err(OpeningError(o))
        else
          match OpeningsFrom(os, k + 1)
          case Ok(rest) => Ok([OpeningPolygon(o, k)] + rest)
          case Err(e) => Err(e)
      else OpeningsFrom(os, k + 1)
  }

  /** The surfaces the openings entry of building_data adds after the
      exterior: none when there is no 'openings' key, TypeError when it is None. */
  function OpeningSurfaces(g: Geometry): Result<seq<Polygon>>
  {
    if g.ContourForm? then
      match g.buildingData.openings
      case Absent => Ok([])
      case Null => Err(TypeError)
      case Present(os) => OpeningsFrom(os, 0)
    else Ok([])
  }

  // ---------------------------------------------------------------------
  // The LOD solids

  /** _add_building's dispatch: an lod other than 1..4 is built as LOD2. */
  function EffectiveLod(lod: int): (l: nat)
    ensures 1 <= l <= 4
    ensures 1 <= lod <= 4 ==> l == lod
  {
    if 1 <= lod <= 4 then lod else 2
  }

  /** Whether the geometry holds both arrays (the test of the two geometry paths). */
  predicate HasArrays(g: Geometry)
  {
    g.MeshForm? && g.vertices.Some? && g.faces.Some?
  }

  /** The CompositeSurface of the exterior solid for an effective lod. Only
      the face arrays and the openings can make it fail; a geometry with both
      arrays gives one polygon per face, followed by the openings from LOD3. */
  function ExteriorSurfaces(lod: nat, geom: Option<Geometry>): (r: Result<seq<Polygon>>)
    requires 1 <= lod <= 4
    ensures r.Err? ==> geom.Some? && (HasArrays(geom.value) || 3 <= lod)
    ensures geom.Some? && HasArrays(geom.value) && r.Ok? ==> |r.value| >= |geom.value.faces.value|
    ensures geom.Some? && HasArrays(geom.value) && lod <= 2 && r.Ok? ==> |r.value| == |geom.value.faces.value|
  {
    if geom.None? then
      Ok(if lod == 1 then BoxSurfaces() else if lod == 2 then GableSurfaces() else DetailedSurfaces())
    else
      var g := geom.value;
      var base := if HasArrays(g) then FacePolygons(g.vertices.value, g.faces.value)
                  else Ok(if lod == 1 then BoxSurfaces() else GableSurfaces());
      if lod <= 2 then base
      else
        match base
        case Err(e) => Err(e)
        case Ok(ps) =>
          match OpeningSurfaces(g)
          case Ok(qs) => Ok(ps + qs)
          case Err(e) => Err(e)
  }

  /** The uuid4().hex ids, standing for fresh values drawn from a counter. */
  function Uuid(n: nat): string { NatToString(n) }

  // ---------------------------------------------------------------------
  // Attributes

  /** The attribute keys in the order _add_building tests them, with their tags. */
  function AttributeKeys(): seq<(string, string)>
  {
    [ ("class", "bldg:class"), ("function", "bldg:function"), ("usage", "bldg:usage"),
      ("year_of_construction", "bldg:yearOfConstruction"),
      ("storeys_above_ground", "bldg:storeysAboveGround"),
      ("storeys_below_ground", "bldg:storeysBelowGround"),
      ("measured_height", "bldg:measuredHeight") ]
  }

  function Leaf(tag: string, text: string): Element { Element(tag, [], text, []) }

  /** The element of the m-th attribute key; measuredHeight carries uom="m". */
  function AttributeElement(f: map<string, string>, m: nat): Element
    requires m < |AttributeKeys()| && AttributeKeys()[m].0 in f
  {
    var key := AttributeKeys()[m].0;
    Element(AttributeKeys()[m].1, if key == "measured_height" then [("uom", "m")] else [], f[key], [])
  }

  /** The elements for the simple attribute keys from position k of AttributeKeys. */
  function SimpleAttributes(f: map<string, string>, k: nat): seq<Element>
    requires k <= |AttributeKeys()|
    decreases |AttributeKeys()| - k
  {
    if k == |AttributeKeys()| then []
    else (if AttributeKeys()[k].0 in f then [AttributeElement(f, k)] else []) + SimpleAttributes(f, k + 1)
  }

  /** The xAL:Address children of bldg:address, in the order they are added. */
  function AddressParts(a: map<string, string>): seq<Element>
  {
    CountryPart(a) + LocalityPart(a) + ThoroughfarePart(a) + PostCodePart(a)
  }

  function CountryPart(a: map<string, string>): seq<Element>
  {
    if "country" in a then [Element("xAL:Country", [], "", [Leaf("xAL:CountryName", a["country"])])] else []
  }

  function LocalityPart(a: map<string, string>): seq<Element>
  {
    if "city" in a then [Element("xAL:Locality", [("Type", "Town")], "", [Leaf("xAL:LocalityName", a["city"])])] else []
  }

  function ThoroughfarePart(a: map<string, string>): seq<Element>
  {
    if "street" in a then
      [Element("xAL:Thoroughfare", [("Type", "Street")], "",
         [Leaf("xAL:ThoroughfareName", a["street"])] +
         (if "number" in a then [Leaf("xAL:ThoroughfareNumber", a["number"])] else []))]
    else []
  }

  function PostCodePart(a: map<string, string>): seq<Element>
  {
    if "postal_code" in a then [Element("xAL:PostCode", [], "", [Leaf("xAL:PostCodeNumber", a["postal_code"])])] else []
  }

  function AddressElement(a: map<string, string>): Element
  {
    Element("bldg:address", [], "", [Element("xAL:Address", [], "", AddressParts(a))])
  }

  function AttributeElements(b: BuildingAttributes): seq<Element>
  {
    SimpleAttributes(b.fields, 0) + (if b.address.Some? then [AddressElement(b.address.value)] else [])
  }

  // ---------------------------------------------------------------------
  // The document

  /** The namespace declarations of the CityModel root, in the order
      _create_citygml_root sets them; Declaration gives each one's attribute
      and value. */
  datatype Namespace = DefaultNs | CoreNs | BldgNs | GmlNs | XsiNs | XalNs | SchemaLocation

  function Namespaces(): seq<Namespace>
  {
    [DefaultNs, CoreNs, BldgNs, GmlNs, XsiNs, XalNs, SchemaLocation]
  }

  function Declaration(ns: Namespace): (string, string)
  {
    match ns
    case DefaultNs => ("xmlns", "http://www.opengis.net/citygml/2.0")
    case CoreNs => ("xmlns:core", "http://www.opengis.net/citygml/2.0")
    case BldgNs => ("xmlns:bldg", "http://www.opengis.net/citygml/building/2.0")
    case GmlNs => ("xmlns:gml", "http://www.opengis.net/gml")
    case XsiNs => ("xmlns:xsi", "http://www.w3.org/2001/XMLSchema-instance")
    case XalNs => ("xmlns:xAL", "urn:oasis:names:tc:ciq:xsdschema:xAL:2.0")
    case SchemaLocation =>
      ("xsi:schemaLocation", "http://www.opengis.net/citygml/2.0 http://schemas.opengis.net/citygml/2.0/cityGMLBase.xsd http://www.opengis.net/citygml/building/2.0 http://schemas.opengis.net/citygml/building/2.0/building.xsd")
  }

  /** _create_citygml_root's envelope. */
  function RootEnvelope(epsg: int): (e: Envelope)
    ensures e.lowerCorner == "-180.0 -90.0 0.0" && e.upperCorner == "180.0 90.0 100.0"
    ensures |e.srsName| > 5 && e.srsName[..5] == "EPSG:" && e.srsName[5..] == IntToString(epsg)
  {
    Envelope("EPSG:" + IntToString(epsg), "-180.0 -90.0 0.0", "180.0 90.0 100.0")
  }

  /** The building _add_building produces, its ids drawn from n on. */
  function BuildingFor(data: ModelData, lod: int, attrs: BuildingAttributes, buildingType: string, n: nat): (r: Result<Building>)
    ensures r.Ok? <==> ExteriorSurfaces(EffectiveLod(lod), ExtractGeometry(data)).Ok?
    ensures r.Ok? ==> r.value.solid.lod == EffectiveLod(lod) && 1 <= r.value.solid.lod <= 4
    ensures r.Ok? ==> (r.value.room.Some? <==> EffectiveLod(lod) == 4)
    ensures r.Ok? ==> r.value.tag == "bldg:" + buildingType && r.value.id == "Building_" + Uuid(n)
  {
    var l := EffectiveLod(lod);
    match ExteriorSurfaces(l, ExtractGeometry(data))
    case Err(e) => Err(e)
    case Ok(ps) =>
      Ok(Building("bldg:" + buildingType, "Building_" + Uuid(n), AttributeElements(attrs),
        Solid(l, "Solid_" + Uuid(n + 1), ps),
        if l == 4 then Some(Room("Room_" + Uuid(n + 2), "Room_Solid_" + Uuid(n + 3), RoomSurfaces())) else None))
  }

  /** The document of export (before pretty-printing), its ids drawn from n on. */
  function DocumentFor(data: ModelData, lod: int, attrs: BuildingAttributes, epsg: int, buildingType: string, n: nat): (r: Result<CityModel>)
    ensures r.Ok? <==> BuildingFor(data, lod, attrs, buildingType, n).Ok?
    ensures r.Ok? ==> r.value.building == BuildingFor(data, lod, attrs, buildingType, n).value
    ensures r.Ok? ==> r.value.envelope.srsName == "EPSG:" + IntToString(epsg)
  {
    match BuildingFor(data, lod, attrs, buildingType, n)
    case Err(e) => Err(e)
    case Ok(b) => Ok(CityModel(Namespaces(), RootEnvelope(epsg), b))
  }

  /** How many ids building the document draws. */
  function IdsUsed(lod: int): nat
  {
    if EffectiveLod(lod) == 4 then 4 else 2
  }

  // ---------------------------------------------------------------------
  // posList

  /** The tokens of a posList: x y z of each position, in order. */
  function PosList(ring: seq<Point>): (t: seq<real>)
    ensures |t| == 3 * |ring|
  {
    if |ring| == 0 then [] else [ring[0].x, ring[0].y, ring[0].z] + PosList(ring[1..])
  }

  /** Reading a posList back into positions; None when the count is not a multiple of 3. */
  function ReadPosList(t: seq<real>): Option<seq<Point>>
    decreases |t|
  {
    if |t| == 0 then Some([])
    else if |t| < 3 then None
    else
      match ReadPosList(t[3..])
      case Some(rest) => Some([Point(t[0], t[1], t[2])] + rest)
      case None => None
  }
}
