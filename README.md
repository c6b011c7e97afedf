# 3Dify core, modelled in Dafny

3Dify turns geospatial input (LiDAR point clouds, raster images, vector and
tabular files) into 3D models. It loads the data, processes it, has a
generation service build a model, and exports that model as glTF, OBJ, PLY or
CityGML. This project models the logic of that chain in Dafny and proves
what it guarantees:

- the CityGML exporter's document and, for each level of detail, the
  surfaces its builders append (`CityGml`, `CityGmlBuilder`, `CityGmlProofs`);
- the raster processor's optional steps, its feature summary and its
  building pass (`Raster`, `RasterProofs`);
- the point-cloud processor's gated steps and the index logic of its helpers
  (`PointCloud`);
- the configuration store with its recursive merge, its path lookup and
  assignment, and the sharing of `DEFAULT_CONFIG`'s sections
  (`Configuration`);
- the `Pipeline` object, its type inference, its stage-order guards and the
  results it records (`Pipelines`);
- the PLY, glTF and OBJ exporters' output paths and dispatch (`Ply`, `Gltf`,
  `Obj`, with the shared pieces in `ExportCommon`);
- the four name-to-instance registries and `load_example` (`Registries`,
  `Loaders`);
- the command line's configuration dictionary and the exit code of `main`
  (`Cli`).

Supporting modules: `Wrappers` (Option, Result, Outcome, the Python
exception kinds), `Text` (decimal rendering, lower-casing, suffix tests),
`Numeric` (Python's `int()` of a float), `Json` (the dictionary values of the
configuration) and `Paths` (the `pathlib` operations used: name, suffix,
`with_suffix`).

The form follows the source. Code that only computes is written as functions
and lemmas. Code that updates state in place is written as classes and methods:
- the CityGML CompositeSurface element that the `_add_*` methods append to;
- the exporter's id counter;
- `Config` and the shared `DEFAULT_CONFIG`;
- the `Pipeline` fields;
- the registries.

Each loop of the source is a method with its invariants: `_update_recursive`,
the descent of `Config.set`, the append loops of `_process_building` and the
checkerboard loop of `sample_image`. The step-by-step mutations of
`create_config_from_args` and of the raster `process` are methods too. Each method's `ensures` ties its result
to a specification function, and the lemmas state the properties of that
function.

Calls into code that is not modelled become parameters:
- OpenCV, PIL and skimage are a `Raster.Toolkit` record of functions.
- The numeric and random parts of the point-cloud helpers are a
  `PointCloud.Numerics` record.
- The loaders, processors, generation models, exporters and visualizers are
  the `Pipelines.Services` record.
- Whether optional libraries import is an `Env` value.
- numpy's random streams are functions from the draw number to a real.
- `uuid4` is a counter.

Where the written code differs from its documentation, the model follows the
code. Examples:
- `export` forwards `include_normals` and `include_colors` to the PLY
  helpers, but the helpers read `normals` and `colors`, so both flags are
  always on.
- Every generic export fallback hands `_export_mesh` a plain dict, so the
  placeholder cube is written.
- `main` passes `process_type` and `export_format`, which `run_pipeline`
  does not accept, so the run always infers the processor and exports glTF.
- `register_*` overwrites one key.
- `_infer_data_type` reads `.suffix`, so a `str` path raises
  AttributeError.
- `Config.__init__` takes only a shallow copy of `DEFAULT_CONFIG`, so
  in-place updates of a section reach the defaults.

## Model

| member | source | states |
|---|---|---|
| CityGmlProofs.GeometryPrecedence | threedify/export/citygml.py:239-254 | A truthy mesh decides the geometry whatever else is there. Failing that, a vertices+faces pair decides it whatever building_segments holds. Contour form occurs iff neither is given and building_segments is truthy with 'contours'. There is no geometry iff none of the three applies. |
| CityGmlProofs.MeshWithoutArrays | threedify/export/citygml.py:240-243 | A truthy mesh dict whose vertices are missing or None is still used; its geometry has None arrays, so LOD1 and LOD2 fall back to the box and gable templates |
| CityGml.PyIndex | threedify/export/citygml.py:288 | Python indexing: an index is valid iff -n <= idx < n, and a negative one counts from the end |
| CityGml.FacePolygons | threedify/export/citygml.py:284-291 | One polygon per face, in face order. It fails with IndexError exactly when some face names a vertex that is not there. |
| CityGml.OpeningsFrom | threedify/export/citygml.py:350-357 | The openings loop raises only KeyError (a missing type or coords) or TypeError (a window or door whose coords is None, iterated at line 401) and emits at most one polygon per opening |
| CityGmlProofs.OpeningsFirstError | threedify/export/citygml.py:350-401 | The loop reports the error of the first failing opening: KeyError for a missing type or coords, TypeError for coords None |
| CityGml.EffectiveLod | threedify/export/citygml.py:151-161 | The dispatched lod is always 1..4, and equals the requested lod when that one is in range |
| CityGml.RootEnvelope | threedify/export/citygml.py:81-87 | The envelope has srsName "EPSG:" followed by str(epsg), and the fixed corners -180.0 -90.0 0.0 and 180.0 90.0 100.0 |
| CityGml.PosList | threedify/export/citygml.py:401 | A ring of n points gives 3n posList tokens |
| CityGmlProofs.TemplatesWithoutGeometry | threedify/export/citygml.py:256-341 | Without geometry LOD1 is the six four-point faces Box_Polygon_1..6 and LOD2 the seven gable faces. LOD3 and LOD4 are those seven followed by Window_Polygon_1 and Door_Polygon_1, nine in all. Any other lod gets the LOD2 faces. |
| CityGmlProofs.GableShape | threedify/export/citygml.py:293-315 | Exactly the front and back walls of the gable house have five points, and the ridge at z = 8 is its highest point |
| CityGmlProofs.RoomInsideBox | threedify/export/citygml.py:359-387 | The room has six four-point faces inside 2<=x,y<=8 and 0.1<=z<=4.9, strictly inside the box template |
| CityGmlProofs.ArraysGiveFaces | threedify/export/citygml.py:317-357 | With both arrays, every lod's exterior is exactly the face polygons: mesh-form geometry never gets openings |
| CityGmlProofs.FacePolygonsVerbatim | threedify/export/citygml.py:284-291 | Polygon i is Building_Polygon_{i+1} and lists vertices[idx] for each idx of face i, in order |
| CityGmlProofs.NoArraysUseTemplates | threedify/export/citygml.py:317-357 | Without both arrays (contour form or None arrays), LOD1 uses the box and LOD2 the gable. LOD3 and LOD4 use the gable followed by the openings. Contours never become faces. |
| CityGmlProofs.KeptFrom | threedify/export/citygml.py:353-357 | The ascending positions of the openings whose type is window or door |
| CityGmlProofs.OpeningsAreKept | threedify/export/citygml.py:353-357 | One polygon per window or door, in list order, each numbered by its 1-based position in the whole list; other types are skipped |
| CityGmlProofs.OpeningsFailIff | threedify/export/citygml.py:353-357 | The openings loop raises exactly when some opening has no type, or is a window or door whose coords is missing or None |
| CityGmlProofs.InvalidLodIsLod2 | threedify/export/citygml.py:159-161 | An lod outside 1..4 produces exactly the LOD2 building |
| CityGmlProofs.Lod4IsLod3PlusRoom | threedify/export/citygml.py:214-230 | LOD4 is the LOD3 exterior in a lod4Solid plus one room beside the solid, whatever the geometry; it succeeds iff LOD3 does |
| CityGmlProofs.IdsDistinct | threedify/export/citygml.py:405-411 | The ids drawn for one document are pairwise distinct |
| CityGmlProofs.PresentFrom | threedify/export/citygml.py:102-124 | The ascending positions of the attribute keys present in building_attributes |
| CityGmlProofs.SimpleAttributesPresent | threedify/export/citygml.py:102-124 | One element per attribute key present, in the fixed key order |
| CityGmlProofs.AttributeElementsOrdered | threedify/export/citygml.py:102-150 | The building's attribute elements are those of the present keys, in the order class, function, usage, yearOfConstruction, storeysAboveGround, storeysBelowGround, measuredHeight. bldg:address follows iff an address is given. |
| CityGmlProofs.AttributeElementText | threedify/export/citygml.py:102-124 | Each element has its key's tag and text; only measuredHeight carries uom="m" |
| CityGmlProofs.AddressTags | threedify/export/citygml.py:130-150 | The address children are one element per field given, in the order Country, Locality, Thoroughfare, PostCode |
| CityGmlProofs.AddressPartsPresence | threedify/export/citygml.py:130-150 | Each address child is present iff its field is given |
| CityGmlProofs.ThoroughfareNumberPresence | threedify/export/citygml.py:139-146 | ThoroughfareNumber is emitted only inside a Thoroughfare, hence only when both street and number are given |
| CityGmlProofs.PosListTokens | threedify/export/citygml.py:401 | Tokens 3i, 3i+1 and 3i+2 of a posList are x, y and z of point i |
| CityGmlProofs.PosListRoundTrip | threedify/export/citygml.py:401 | A posList reads back as the ring it was written from: not re-wound and not closed |
| CityGmlProofs.EnvelopeNamesEpsg | threedify/export/citygml.py:81-83 | Distinct EPSG codes give distinct srsName values |
| CityGmlBuilder.CompositeSurface.constructor | threedify/export/citygml.py:171-173 | A new CompositeSurface has no members |
| CityGmlBuilder.CompositeSurface.AddPolygonSurface | threedify/export/citygml.py:389-403 | Appends exactly one polygon with the given id and ring |
| CityGml.ExtractGeometry | threedify/export/citygml.py:232-254 | A truthy mesh dict always gives a mesh geometry, and so does a vertices-and-faces pair; a contour geometry always has contours; no geometry means neither a truthy mesh nor the pair was given |
| CityGml.ExteriorSurfaces | threedify/export/citygml.py:163-230 | The exterior fails only for a geometry with both arrays or from LOD3 on (faces out of range or openings). A geometry with both arrays gives at least one polygon per face, and exactly one per face up to LOD2. |
| CityGml.BuildingFor | threedify/export/citygml.py:90-161 | The building exists iff its exterior does. Its solid has the effective lod (1 to 4), a room exists iff that lod is 4, and tag and gml:id are bldg:<type> and Building_<first id>. |
| CityGml.DocumentFor | threedify/export/citygml.py:22-88 | The document exists iff its building does, holds that building, and its envelope names EPSG:<epsg> |
| CityGml.Numbered | threedify/export/citygml.py:275-276 | The enumerate loops give one polygon per template ring, in order, and no two of them the same gml:id |
| CityGmlBuilder.CompositeSurface.AddNumbered | threedify/export/citygml.py:275-276 | Appends the numbered polygons of a coordinate table, in order |
| CityGmlBuilder.CompositeSurface.AddBoxSurfaces | threedify/export/citygml.py:256-276 | Appends the six box faces |
| CityGmlBuilder.CompositeSurface.AddBuildingWithRoofSurfaces | threedify/export/citygml.py:293-315 | Appends the seven gable faces |
| CityGmlBuilder.CompositeSurface.AddDetailedBuildingSurfaces | threedify/export/citygml.py:332-341 | Appends the gable faces, the window and the door |
| CityGmlBuilder.CompositeSurface.AddFaces | threedify/export/citygml.py:287-289 | Appends the face polygons when every face is in range, otherwise reports IndexError |
| CityGmlBuilder.CompositeSurface.AddSimplifiedBuildingSurfaces | threedify/export/citygml.py:278-291 | Appends the LOD1 exterior for the geometry, or reports its error |
| CityGmlBuilder.CompositeSurface.AddBuildingSurfaces | threedify/export/citygml.py:317-330 | Appends the LOD2 exterior for the geometry, or reports its error |
| CityGmlBuilder.CompositeSurface.AddOpenings | threedify/export/citygml.py:350-401 | Appends the opening polygons, or reports the loop's KeyError (missing type or coords) or TypeError (coords None) |
| CityGmlBuilder.CompositeSurface.AddDetailedFromGeometry | threedify/export/citygml.py:343-357 | Appends the LOD3 exterior and openings for the geometry, or reports the error |
| CityGmlBuilder.CityGmlExporter.constructor | threedify/export/citygml.py:405-411 | No id has been drawn yet |
| CityGmlBuilder.CityGmlExporter.GenerateUuid | threedify/export/citygml.py:405-411 | Each call returns the next fresh id |
| CityGmlBuilder.CityGmlExporter.AddLodSolid | threedify/export/citygml.py:163-212 | Builds a solid of the lod with one fresh id and that lod's exterior for the extracted geometry |
| CityGmlBuilder.CityGmlExporter.AddInteriorFeatures | threedify/export/citygml.py:359-387 | Builds the room and its solid, with two fresh ids |
| CityGmlBuilder.CityGmlExporter.AddBuilding | threedify/export/citygml.py:90-161 | Builds the building document for the counter's ids; on success it draws exactly the ids that lod needs, and on failure exactly two (the building's and the solid's) |
| CityGmlBuilder.ExportResult | threedify/export/citygml.py:22-59 | An empty output name is a ValueError. On success the path's suffix is .gml, and a path already ending in .gml in any case is kept. The document uses the defaults lod 2, no attributes, EPSG 4326 and type Building, and export succeeds iff building it does. |
| CityGmlBuilder.CityGmlExporter.Export | threedify/export/citygml.py:22-59 | Returns the result ExportResult states for the ids drawn so far; the counter never goes back, advances by the ids the effective lod needs on success, and by none (bad path) or two (failed geometry) on failure |
| Raster.FromArray | threedify/processing/raster.py:271 | Image.fromarray of a uint8 array succeeds iff it has one or two dimensions or three with 2 3 or 4 channels; the picture then has that mode (L LA RGB RGBA). A 0-D array raises IndexError and every other shape TypeError. |
| Raster.AsUint8 | threedify/processing/raster.py:243 | astype(uint8) keeps the shape and gives whole samples in 0..255. A sample in [0 256) is floored and a whole sample wraps modulo 256. |
| Raster.BuildingGray | threedify/processing/raster.py:243-247 | The building gray image is uint8. Only a 3-D array with exactly 3 channels is converted (to H x W). Any other array passes through as its uint8 copy. |
| Raster.Filter | threedify/processing/raster.py:255 | The kept contours come from the detected ones and all have area above the minimum |
| Raster.Centroid | threedify/processing/raster.py:281-289 | The centroid is None exactly when the area moment is zero |
| Raster.SegmentsFor | threedify/processing/raster.py:253-289 | masks, areas, bounding_boxes and centroids have one entry per kept contour, in the same order, and count is their number. Each area exceeds H*W*0.01. The kept contours are the filter of the detected ones. The edges and lines are Canny's map and HoughLinesP's segments or []. |
| Raster.Annotated | threedify/processing/raster.py:265-270 | The annotated copy keeps the input's shape and is uint8 |
| Raster.BuildingBundle | threedify/processing/raster.py:243-290 | The building pass succeeds iff the gray image is non-empty and has at least two dimensions, the blur-threshold-contour chain and Canny accept it, and PIL can map the input's shape. An empty gray image is a CvError (GaussianBlur), one of fewer than two dimensions an IndexError (shape[1]), and an unmappable annotated array (such as H x W x 1) a TypeError from Image.fromarray. The segments are those of the detected contours and the edge map. |
| Raster.FillMasks | threedify/processing/raster.py:258-262 | The mask loop yields one filled mask per kept contour, in order |
| Raster.DrawAll | threedify/processing/raster.py:263-269 | The line loop draws every detected line in turn |
| Raster.Centroids | threedify/processing/raster.py:281-289 | The centroid loop yields one centroid per kept contour, in order |
| Raster.ProcessBuilding | threedify/processing/raster.py:232-290 | The append loops produce exactly the building bundle, and every failure of it, including the TypeError of Image.fromarray at the end |
| Raster.FeatureGray | threedify/processing/raster.py:195-198 | A 3-D array is converted iff it has 3 or 4 channels (otherwise cvtColor raises). The gray image keeps the input's height and width. |
| Raster.CountPositive | threedify/processing/raster.py:200 | The number of edge pixels never exceeds the number of samples |
| Raster.EdgeDensity | threedify/processing/raster.py:199-200 | edge_density is non-negative and at most 1 when the edge map has at most H*W samples |
| Raster.DensityAtMostOne | threedify/processing/raster.py:200 | A count at most n over n lies in [0 1] |
| Raster.Max | threedify/processing/raster.py:207-208 | The maximum response is one of the responses and bounds all of them |
| Raster.KeypointFeatures | threedify/processing/raster.py:201-212 | The keypoint count is always given. Mean and max strength are present iff keypoints were found, and max is one of the responses. All three are 0 when SIFT raises. |
| Raster.SubsampleFactor | threedify/processing/raster.py:215-219 | The subsample factor is at least 1, and exactly 1 when neither side exceeds 1000 |
| Raster.ExtractFeatures | threedify/processing/raster.py:180-230 | Feature extraction raises AxisError for fewer than two dimensions and ValueError for an empty H x W plane (np.min). It raises CvError for a 3-D array without 3 or 4 channels. Otherwise it fails exactly when Canny does. On success the edge density is in [0 1] and the keypoint summary is SIFT's. A texture stride is reported iff skimage is available. |
| Raster.StretchArgs | threedify/processing/raster.py:61 | Unpacking contrast_stretch into (min_percentile=2 max_percentile=98) takes at most two values: one sets the lower percentile only. Three or more are a TypeError. |
| Raster.Run | threedify/processing/raster.py:58-67 | No steps leave the frame as it is, and only a non-empty run can fail; RasterProofs.RunFailsIff proves that the first failing step ends the run with its error |
| Raster.ArraySteps | threedify/processing/raster.py:58-63 | The normalize, contrast_stretch and denoise guards either fail with the whole run's error, or leave a frame from which the rest of the run is the run of the resize and enhance guards |
| Raster.ImageSteps | threedify/processing/raster.py:64-67 | The resize and enhance guards yield the run of those enabled steps |
| Raster.ApplySteps | threedify/processing/raster.py:56-67 | The flag-guarded reassignments yield the run of the enabled steps and stop at the first step that raises |
| Raster.BareImage | threedify/processing/raster.py:44-47 | The image of a bare array exists iff PIL can map its shape; the *255 cast of a non-uint8 array keeps the shape, so the error is the shape's |
| Raster.Initial | threedify/processing/raster.py:30-47 | Only a bare array can fail to start. The starting array is the object's array, np.array of the PIL image, or the bare array itself; a bare array has empty metadata. |
| Raster.Processed | threedify/processing/raster.py:30-87 | A failed input conversion is process's error. On success the result has type processed_raster, the input as original_data and the input's metadata; it has features iff extract_features and building_segments iff building_mode. |
| Raster.Process | threedify/processing/raster.py:30-87 | process returns the processed raster, or the error, that the input conversion, the step run, the features and the building pass describe |
| RasterProofs.KeptIndices | threedify/processing/raster.py:255 | The ascending positions of the contours whose area exceeds the minimum |
| RasterProofs.FilterKeepsInOrder | threedify/processing/raster.py:255 | The filter keeps exactly the contours above the minimum, in detection order |
| RasterProofs.BuildingContoursAreTheLargeOnes | threedify/processing/raster.py:253-255 | A detected contour is kept iff its area exceeds 1 % of the image, and the kept ones appear in detection order |
| RasterProofs.LinesDoNotAlterContours | threedify/processing/raster.py:263-289 | When both passes succeed, Canny, HoughLinesP and line drawing never change the contours, masks, count, areas, boxes or centroids |
| RasterProofs.NoLinesGiveEmptyList | threedify/processing/raster.py:264-277 | lines is [] when HoughLinesP finds nothing |
| RasterProofs.CentroidTruncates | threedify/processing/raster.py:283-286 | The centroid is (int(m10/m00) int(m01/m00)), truncated toward zero |
| RasterProofs.PlanFromOrder | threedify/processing/raster.py:58-67 | From any guard on, the planned steps have ascending ranks and exactly the ranks of the enabled guards |
| RasterProofs.PlanOrder | threedify/processing/raster.py:58-67 | The steps run in the order normalize, contrast stretch, denoise, resize, enhance. Each runs at most once, and each runs exactly when its option is set. |
| RasterProofs.StepFailures | threedify/processing/raster.py:110-154 | normalize raises ValueError on an empty non-uint8 array. contrast stretch raises TypeError for more than two values and ValueError for a percentile outside [0 100]. Colour denoising rejects other than three or four channels. Otherwise each step is its library call. |
| RasterProofs.RunFailsIff | threedify/processing/raster.py:58-67 | The steps fail exactly when some step raises after all earlier ones succeeded, and the error is that step's |
| RasterProofs.StretchArgumentsFail | threedify/processing/raster.py:44-61 | With more than two contrast_stretch values process raises TypeError, and with a percentile outside [0 100] ValueError, unless the input conversion or normalize ran first and raised |
| RasterProofs.UnmappableBareArrayFails | threedify/processing/raster.py:44-47 | A bare 0-D array makes process raise IndexError, and a bare array of four or more dimensions or of three without 2 3 or 4 channels TypeError, before any step |
| RasterProofs.BadShapesFail | threedify/processing/raster.py:189-248 | Once the input converts and the steps succeed: with features on, an array of fewer than two dimensions makes process raise AxisError and an empty H x W plane ValueError. With features off and building mode on, the empty plane is a CvError. |
| RasterProofs.ProcessedOutputs | threedify/processing/raster.py:30-85 | A successful run started from a converted input. It has features iff extract_features is on, and they are those of the stepped frame. It has building_segments iff building_mode is on, and they are the bundle's. Without building mode the image is what the steps produced. Metadata, original data and type are reported too. |
| RasterProofs.ProcessedFailsIff | threedify/processing/raster.py:44-76 | process fails exactly when the input conversion, a step, the feature pass or the building pass fails, and reports the first of these errors |
| RasterProofs.DefaultOptionsOnlyExtract | threedify/processing/raster.py:44-55 | With default options no step runs and extract_features defaults to on: an input that converts gets features computed on its frame and no building segments; one that does not gives its conversion error |
| RasterProofs.MeanAtMostMax | threedify/processing/raster.py:207-208 | The mean keypoint strength never exceeds the maximum |
| RasterProofs.SumAtMost | threedify/processing/raster.py:207 | A sum of values bounded by b is at most n*b |
| RasterProofs.SliceAtLeast | threedify/processing/raster.py:219 | Slicing with stride f keeps at least k samples when k*f <= n |
| RasterProofs.SliceAtMost | threedify/processing/raster.py:219 | Slicing with stride f keeps at most k samples when n <= k*f |
| RasterProofs.SliceByOne | threedify/processing/raster.py:219 | Stride 1 keeps every sample |
| RasterProofs.SubsampleKeepsDetail | threedify/processing/raster.py:215-219 | The texture pass keeps the smaller side whole when it is under 1000 samples, and otherwise keeps between 1000 and 1999 samples |
| Configuration.DefaultConfig | threedify/core/config.py:10-45 | DEFAULT_CONFIG has exactly the six sections general, loader, processor, model, export and visualization, each a dictionary |
| Configuration.Merge | threedify/core/config.py:76-86 | A merge's keys are the target's plus the source's |
| Configuration.Assign | threedify/core/config.py:112-119 | A set fails only with TypeError. Otherwise it adds the first key, leaves the other top-level entries alone, and leaves a dictionary under the first key when there are two or more keys. |
| Configuration.MergeLeaf | threedify/core/config.py:82-86 | After a merge each non-dictionary source value can be read at its path, replacing a dictionary that was there |
| Configuration.MergeUntouched | threedify/core/config.py:82-86 | Paths the source does not reach keep the target's value |
| Configuration.MergeSelf | threedify/core/config.py:76-86 | Merging a dictionary into itself changes nothing |
| Configuration.MergeIdempotent | threedify/core/config.py:76-86 | Applying the same layer twice equals applying it once |
| Configuration.DictionaryLayerWins | threedify/core/config.py:55-59 | With layers defaults, then file, then config_dict, a value the dictionary gives wins at its path |
| Configuration.AssignThenLookup | threedify/core/config.py:114-119 | After a successful set(value, *keys), get(*keys) returns value |
| Configuration.AssignOtherPaths | threedify/core/config.py:114-119 | A set leaves every path diverging from its keys unchanged |
| Configuration.LookupEmpty | threedify/core/config.py:96-102 | get on an empty dictionary returns the default for any non-empty key path |
| Configuration.AssignFailsIff | threedify/core/config.py:114-119 | set raises exactly when an existing intermediate value that get can reach is not a dictionary |
| Configuration.UpdateRecursive | threedify/core/config.py:76-86 | The loop of _update_recursive computes the merge |
| Configuration.MergeExtend | threedify/core/config.py:82-86 | Merging one more source key changes only that key's entry |
| Configuration.Descend | threedify/core/config.py:114-118 | The descent of set either reaches the last dictionary through every key, creating missing ones, or finds the non-dictionary that makes the set fail |
| Configuration.WriteBack | threedify/core/config.py:119 | Writing back along the trail gives the dictionary the assignment specifies |
| Configuration.AssignByWalk | threedify/core/config.py:112-119 | The walk of set computes exactly the assignment |
| Configuration.LayerStep | threedify/core/config.py:82-86 | One more source key of a layer extends the partial merge |
| Configuration.KeepStep | threedify/core/config.py:55 | The sections of the defaults that no key has reached so far keep their values |
| Configuration.MergeEmptySource | threedify/core/config.py:58-59 | Merging an empty layer changes nothing, as when no config_dict is given |
| Configuration.Defaults.constructor | threedify/core/config.py:10-45 | The shared defaults table is DEFAULT_CONFIG |
| Configuration.Config.Contents | threedify/core/config.py:55 | _config's keys are its own entries plus the sections still shared with DEFAULT_CONFIG |
| Configuration.Config.constructor | threedify/core/config.py:49-59 | _config is the defaults merged with the file, then with config_dict. The defaults keep their keys, every section still shared equals the defaults' one, and a DEFAULT_CONFIG section that neither layer names is left as it was. |
| Configuration.Config.ApplyEntry | threedify/core/config.py:82-86 | One item of the merge loop writes the merged entry. A dictionary merged into a shared section is written through to DEFAULT_CONFIG, and any other value becomes this configuration's own. |
| Configuration.Config.ApplyLayer | threedify/core/config.py:76-86 | _update_recursive turns _config into the merge with the source. Sections that are no longer shared, and sections the source does not name, are left as they were in the defaults. |
| Configuration.Config.Get | threedify/core/config.py:88-102 | get returns the value at the key path, or default at the first missing key or non-dictionary (the whole config for no keys). |
| Configuration.Config.Set | threedify/core/config.py:104-120 | No keys is a ValueError, and a non-dictionary intermediate is a TypeError, each leaving the config as it was. Otherwise _config becomes the assignment. A nested set into a shared section also rewrites DEFAULT_CONFIG's section, and no other call touches DEFAULT_CONFIG. A failure leaves the sharing and ownership records alone, and a nested set into an unshared section leaves the sharing record alone. |
| Configuration.Config.GetItem | threedify/core/config.py:135-147 | self[key] returns the top-level value, or KeyError when absent |
| Configuration.Config.SetItem | threedify/core/config.py:149-155 | self[key] = value sets exactly that top-level entry as this configuration's own |
| Pipelines.InferDataType | threedify/core/pipeline.py:149-166 | The lower-cased suffix picks the type: .las/.laz give lidar; .tif/.tiff/.jpg/.jpeg/.png give raster; .shp/.geojson give vector; .csv/.txt give tabular. Each holds in both directions. Any other suffix is a ValueError, and a str (no suffix attribute) is an AttributeError. |
| Pipelines.InferProcessorType | threedify/core/pipeline.py:168-181 | point_cloud wins over raster, which wins over vector. Everything else, including no data, gets general. |
| Pipelines.Stage | threedify/core/pipeline.py:51-131 | How far the stages have got, 0 to 3 |
| Pipelines.LoadStep | threedify/core/pipeline.py:51-69 | load succeeds iff the type (given or inferred) is registered and its loader succeeds. It then sets _loader and data, and changes nothing else. |
| Pipelines.ProcessStep | threedify/core/pipeline.py:71-90 | Without data it is a ValueError with nothing changed. It succeeds iff the processor (given or inferred) is registered and succeeds, and then records results['processed_data']. |
| Pipelines.GenerateStep | threedify/core/pipeline.py:92-109 | Without processed data it is a ValueError with nothing changed. On success it records the model under results['model_data']. |
| Pipelines.ExportStep | threedify/core/pipeline.py:111-131 | Without model data it is a ValueError with nothing changed. It succeeds iff the format is registered and its exporter succeeds, and then records the path under results['exporter_path']. |
| Pipelines.VisualizeStep | threedify/core/pipeline.py:133-147 | Without model data it is a ValueError with nothing changed. It returns the visualizer's value and records nothing in results. |
| Pipelines.RunSteps | threedify/core/pipeline.py:183-201 | A failing load ends the run with its error and state |
| Pipelines.InitialIsOrdered | threedify/core/pipeline.py:24-39 | A fresh pipeline keeps the stage invariant and has got nowhere |
| Pipelines.LoadKeepsOrder | threedify/core/pipeline.py:51-69 | load keeps the stage invariant and moves the stage to at least 1 on success |
| Pipelines.ProcessKeepsOrder | threedify/core/pipeline.py:71-90 | process keeps the stage invariant and moves the stage to at least 2 on success |
| Pipelines.GenerateKeepsOrder | threedify/core/pipeline.py:92-109 | generate_model keeps the stage invariant and moves the stage to 3 on success |
| Pipelines.ExportKeepsOrder | threedify/core/pipeline.py:111-131 | export keeps the stage invariant and the stage |
| Pipelines.VisualizeKeepsOrder | threedify/core/pipeline.py:133-147 | visualize keeps the stage invariant and the stage |
| Pipelines.StageGuards | threedify/core/pipeline.py:79-142 | Each stage is refused with ValueError, changing nothing, until the stage before it has succeeded. This covers process without data, generate_model without processed data, and export or visualize without model data. |
| Pipelines.RunRecordsResults | threedify/core/pipeline.py:196-201 | A run that gets through load, process, generate_model and export leaves exactly the three results. The export path is the one the format's exporter reported. |
| Pipelines.RunInfersProcessor | threedify/core/pipeline.py:81-83 | A run with no processor type uses the processor registered for the type the loaded data suggests |
| Pipelines.StringPathNeedsDataType | threedify/core/pipeline.py:60-61 | A str data path with no data type fails at once with AttributeError, changing nothing |
| Pipelines.InferenceExamples | threedify/core/pipeline.py:156-166 | Suffixes match case-insensitively, and a bare dot file has no suffix, so it raises ValueError |
| Pipelines.BuiltinLoadersInferProcessor | threedify/core/pipeline.py:173-181 | Lidar data goes to point_cloud, vector data to vector, and image and tabular data to general. The raster processor is never inferred from the built-in loaders. |
| Pipelines.Pipeline.constructor | threedify/core/pipeline.py:24-39 | The configuration is the defaults merged with the dictionary; no stage has run and results is empty |
| Pipelines.Pipeline.Load | threedify/core/pipeline.py:51-69 | The fields after load are those LoadStep gives |
| Pipelines.Pipeline.Process | threedify/core/pipeline.py:71-90 | The fields after process are those ProcessStep gives |
| Pipelines.Pipeline.GenerateModel | threedify/core/pipeline.py:92-109 | The fields after generate_model are those GenerateStep gives |
| Pipelines.Pipeline.Export | threedify/core/pipeline.py:111-131 | The fields after export are those ExportStep gives |
| Pipelines.Pipeline.Visualize | threedify/core/pipeline.py:133-147 | The value and fields after visualize are those VisualizeStep gives |
| Pipelines.Pipeline.RunPipeline | threedify/core/pipeline.py:183-201 | run_pipeline runs the four stages in order, stopping at the first failure. On success the stage is 3 and results holds exactly processed_data, model_data and exporter_path. |
| PointCloud.Masked | threedify/processing/point_cloud.py:112 | Boolean-mask indexing never lengthens the array |
| PointCloud.Where | threedify/processing/point_cloud.py:140-141 | np.where lists, in ascending order, exactly the positions where the mask holds |
| PointCloud.MaskedIsWhere | threedify/processing/point_cloud.py:112-113 | Masking keeps, in order, exactly the entries at the positions np.where lists |
| PointCloud.Gather | threedify/processing/point_cloud.py:93-94 | Integer indexing picks s[indices[j]] for each j, or raises IndexError when an index is out of range |
| PointCloud.SampleSize | threedify/processing/point_cloud.py:89 | n_sample = max(1, int(n * factor)) is at least 1, below n for a factor under 1 and n >= 2, and at least n for a factor of 1 or more |
| PointCloud.ScaledBounds | threedify/processing/point_cloud.py:89 | int(n * factor) is at least n for factor >= 1 and below n for factor < 1 |
| PointCloud.Downsample | threedify/processing/point_cloud.py:88-96 | When n_sample >= n the inputs are returned unchanged. Otherwise exactly n_sample points are taken at the drawn indices, with colours gathered at the same indices. |
| PointCloud.RemoveOutliers | threedify/processing/point_cloud.py:108-115 | The points and colours under the close mask, or IndexError when the lengths differ |
| PointCloud.SplitByHeight | threedify/processing/point_cloud.py:139-142 | Roof indices point above the median and wall indices at or below it |
| PointCloud.Process | threedify/processing/point_cloud.py:16-75 | process downsamples only for factor < 1.0 and removes outliers only when asked. normals is present iff estimate_normals, and building_segments iff building_mode. The points and colours are those of the filtered cloud. |
| PointCloud.OutliersKeepCloseOnes | threedify/processing/point_cloud.py:108-113 | Outlier removal keeps exactly the points with distance strictly below the threshold, in order, with the colours at the same positions |
| PointCloud.OutlierRemovalFailsOnlyOnColours | threedify/processing/point_cloud.py:108-113 | With one distance per point, outlier removal raises IndexError exactly when the colour array does not match the points |
| PointCloud.RoofAndWallsPartition | threedify/processing/point_cloud.py:139-143 | The roof and walls index lists are each ascending and together partition 0..n-1 |
| PointCloud.Filtered | threedify/processing/point_cloud.py:47-53 | The filtered points are a sub-multiset of the input points, colours are kept iff the input has them, and filtering fails only when the input has colours |
| PointCloud.DownsampleIsSubMultiset | threedify/processing/point_cloud.py:92-94 | Downsampling returns n_sample < n points and draws each input point at most once: the sampled points and colours are sub-multisets of the input arrays |
| PointCloud.NoDownsampleCases | threedify/processing/point_cloud.py:89-91 | A factor of at least 1 or a cloud of at most one point is returned unchanged |
| PointCloud.DefaultsOnlyEstimateNormals | threedify/processing/point_cloud.py:40-43 | With the defaults neither downsampling nor outlier removal happens |
| Numeric.Trunc | threedify/processing/point_cloud.py:89 | Python's int() of a float truncates toward zero |
| ExportCommon.Truthy | threedify/export/ply.py:47 | Python truthiness: None is false, an object is true, and a numpy array of more than one element raises ValueError |
| ExportCommon.AttrTruthy | threedify/export/ply.py:47 | hasattr(d, k) and d.k: false when absent, the value's truth otherwise |
| ExportCommon.StrEndsWith | threedify/export/ply.py:48 | endswith exists only on strings; otherwise AttributeError |
| ExportCommon.MeshSourceOf | threedify/export/ply.py:153-166 | _export_mesh uses the object's mesh dict iff it has one; a plain dict always yields the cube |
| ExportCommon.GenericMeshDict | threedify/export/ply.py:238-246 | The generic fallback builds a dict whose only key is mesh |
| ExportCommon.DownloadEndsWith | threedify/export/ply.py:48 | True iff download_path is a string ending in the suffix. An absent one is false, and a non-string one raises AttributeError. |
| ExportCommon.PlaceholderMeshDict | threedify/export/ply.py:262-274 | The placeholder fallback builds a dict whose only key is mesh |
| ExportCommon.CubeCornersAreDistinct | threedify/export/ply.py:156-160 | The placeholder has 8 distinct vertices, the corners of the unit cube |
| ExportCommon.CubeIsValidMesh | threedify/export/ply.py:161-165 | The placeholder has 12 triangles, each with three distinct indices in 0..7 |
| ExportCommon.CubeUsesEveryCorner | threedify/export/ply.py:161-165 | Every corner belongs to some triangle |
| ExportCommon.DecimatedFaces | threedify/export/gltf.py:134-140 | Decimation reduces the face count exactly when it exceeds 10000, to int(0.8*faces) |
| Paths.ForceSuffix | threedify/export/ply.py:29-30 | After the rule "if suffix.lower() != ext: with_suffix(ext)" the suffix lower-cases to ext. A path that already had it is kept, and an empty name raises ValueError. |
| Paths.WithSuffix | threedify/export/ply.py:30 | with_suffix raises ValueError exactly for an empty name, and changes only the final component |
| Paths.SuffixAfterWithSuffix | threedify/export/ply.py:30 | After with_suffix(s) the path's suffix is s |
| Ply.BackendOf | threedify/export/ply.py:77-87 | trimesh when it imports, otherwise open3d, otherwise ImportError |
| Ply.ExportPointCloud | threedify/export/ply.py:65-128 | It writes the cloud's points. Colours and normals are included iff present and not None, because the include flags are always on. |
| Ply.ExportMesh | threedify/export/ply.py:130-203 | It writes the object's mesh dict or the cube, always with vertex normals. ImportError without a writer library. |
| Ply.ExportGaussian | threedify/export/ply.py:205-227 | A .ply download is copied; otherwise the 5000-point random placeholder cloud is written |
| Ply.PointsOf | threedify/export/ply.py:250 | points if truthy, otherwise point_cloud, otherwise None; ValueError for a points array of more than one element |
| Ply.GenericCloud | threedify/export/ply.py:251-258 | pc_data holds the points and type, plus colors and normals exactly where the model has them |
| Ply.BuildGenericCloud | threedify/export/ply.py:251-258 | The attribute-by-attribute build gives that pc_data |
| Ply.ExportGeneric | threedify/export/ply.py:229-276 | vertices+faces give the mesh path with a plain dict. Failing that, with neither points nor point_cloud, the placeholder mesh is written. |
| Ply.Dispatch | threedify/export/ply.py:37-64 | The dispatch fails only with ValueError, ImportError or AttributeError |
| Ply.Export | threedify/export/ply.py:16-64 | The output suffix is forced to .ply, case-insensitively, and an empty name is a ValueError. Export succeeds iff the dispatch does, and writes what the dispatch chooses. |
| Ply.IncludeFlagsHaveNoEffect | threedify/export/ply.py:33-34 | The normals and color keywords never change the result |
| Ply.PointCloudFirst | threedify/export/ply.py:37-41 | A point_cloud attribute wins, with the model's colours and normals unless None |
| Ply.MeshSecond | threedify/export/ply.py:42-46 | Next a mesh attribute: its dict is written, and the cube iff it is not a dict |
| Ply.GaussianThird | threedify/export/ply.py:47-56 | A truthy gaussian with a .ply download is copied. Otherwise 5000 random coloured points without normals are written. A non-string download path raises AttributeError. |
| Ply.GaussianArrayRefused | threedify/export/ply.py:47 | The truth of a gaussian array of more than one element is ambiguous, so the export fails with ValueError |
| Ply.GenericMeshIsCube | threedify/export/ply.py:238-247 | The generic vertices+faces path writes the cube whatever the data |
| Ply.GenericPointsArrayRefused | threedify/export/ply.py:249-250 | The generic points path fails on a points array of more than one element |
| Ply.NothingGivesCube | threedify/export/ply.py:261-276 | Data with nothing recognisable gets the cube |
| Ply.NoWriterOnlyCopies | threedify/export/ply.py:77-87 | Without trimesh and open3d only a copy succeeds |
| Gltf.ProcessApiOutput | threedify/export/gltf.py:64-89 | A .glb is copied when binary and converted when not. Without pygltflib the copy goes to the same path with a .glb suffix, and that path is returned. |
| Gltf.ExportMesh | threedify/export/gltf.py:91-150 | It writes the object's mesh dict or the cube, as glb iff binary and gltf iff not, with the optimise and embed keywords. ImportError without trimesh. |
| ExportCommon.GaussianPlaceholder | threedify/export/gltf.py:168-174 | The random placeholder is a plain dict with only a mesh key |
| Gltf.ExportGaussian | threedify/export/gltf.py:152-175 | A .glb download is copied. Otherwise the placeholder dict goes to _export_mesh. |
| Gltf.ExportGeneric | threedify/export/gltf.py:177-212 | The generic fallback fails only with ImportError |
| Gltf.BuildGenericMeshDict | threedify/export/gltf.py:186-194 | The key-by-key build gives the generic mesh dict |
| Gltf.TargetSuffix | threedify/export/gltf.py:31-36 | The forced suffix is a proper lower-case suffix |
| Gltf.Dispatch | threedify/export/gltf.py:45-62 | The written path is the settled one, except the copy beside it with a .glb suffix. Without trimesh no mesh is written. |
| Gltf.Export | threedify/export/gltf.py:17-62 | The suffix becomes .glb with binary and .gltf otherwise (apart from the .glb copy fallback). A path already carrying it is kept, and an empty name is a ValueError. |
| Gltf.ApiOutputPaths | threedify/export/gltf.py:45-46 | An original_path ending .glb is copied when binary and converted when not. Without pygltflib it is copied under a .glb name. |
| Gltf.OriginalPathMustBeString | threedify/export/gltf.py:45 | A non-string original_path raises AttributeError |
| Gltf.MeshSecond | threedify/export/gltf.py:48-52 | Next a mesh attribute is written as glb or gltf after binary, with the optimise and embed keywords |
| Gltf.GaussianWithoutGlbIsCube | threedify/export/gltf.py:161-175 | A truthy gaussian without a .glb download gets the cube |
| Gltf.GenericIsCube | threedify/export/gltf.py:177-212 | The generic fallback writes the cube whatever the model holds |
| Gltf.NoTrimeshOnlyCopies | threedify/export/gltf.py:105-109 | Without trimesh only the copy and conversion paths succeed |
| Gltf.TextureResolutionIgnored | threedify/export/gltf.py:41 | texture_resolution never changes the result |
| Gltf.DecimationThreshold | threedify/export/gltf.py:137-138 | Decimation happens iff faces exceed 10000, targeting (4*faces) div 5 |
| Obj.MtlName | threedify/export/obj.py:110-118 | The mtl name is present iff generate_mtl, and is then the output name with a .mtl suffix |
| Obj.ExportMesh | threedify/export/obj.py:57-122 | It writes the object's mesh dict or the cube, with a texture iff a texture path is given. ImportError without trimesh. |
| Obj.ExportGaussian | threedify/export/obj.py:124-149 | A convertible .ply download is converted. Any other case falls through to the placeholder dict and so the cube. |
| Obj.ExportGeneric | threedify/export/obj.py:151-186 | The generic fallback writes the cube with optimisation on and no texture |
| Obj.Dispatch | threedify/export/obj.py:40-55 | The mtl name follows the mtl keyword. A model without mesh is always optimised and never textured. |
| Obj.Export | threedify/export/obj.py:17-55 | The output suffix is forced to .obj, case-insensitively, and an empty name is a ValueError. The write is what the dispatch chooses. |
| Obj.MtlNamedIffRequested | threedify/export/obj.py:110-118 | A material file is named iff mtl is on, and its name ends .mtl |
| Obj.MeshFirst | threedify/export/obj.py:40-44 | A mesh attribute wins, with the caller's optimise and texture keywords |
| Obj.FallbacksIgnoreTextureAndOptimize | threedify/export/obj.py:45-51 | The gaussian and generic paths always optimise and never include a texture |
| Obj.GaussianPlyConverted | threedify/export/obj.py:133-139 | A truthy gaussian with a convertible .ply download is converted |
| Obj.GaussianOtherwiseCube | threedify/export/obj.py:140-149 | Otherwise a truthy gaussian gets the cube |
| Obj.GaussianDownloadMustBeString | threedify/export/obj.py:134 | A non-string download path raises AttributeError, which the conversion guard does not catch |
| Obj.GenericIsCube | threedify/export/obj.py:151-186 | The generic fallback writes the cube whatever the model holds |
| Registries.Lookup | threedify/export/__init__.py:27-30 | An unknown name is a ValueError; a registered name returns the stored instance |
| Registries.Registry.constructor | threedify/export/__init__.py:11-16 | A registry starts with its initial table |
| Registries.Registry.Get | threedify/processing/utils.py:15-27 | get_* is the lookup in the current table |
| Registries.Registry.Register | threedify/export/__init__.py:32-40 | register_* inserts or overwrites exactly that name; every other name looks up as before |
| Registries.InitialExporters | threedify/export/__init__.py:11-16 | The initial exporter keys are exactly gltf, citygml, obj and ply |
| Registries.InitialProcessors | threedify/processing/utils.py:8-13 | The initial processor keys are exactly point_cloud, raster, vector and general |
| Registries.InitialVisualizers | threedify/visualization/utils.py:7-11 | The initial visualizer keys are exactly jupyter, plotly and matplotlib |
| Registries.InitialLoaders | threedify/data/loaders.py:202-207 | The initial loader keys are exactly lidar, raster, vector and tabular |
| Registries.LoaderName | threedify/data/loaders.py:85-90 | The built-in loaders have a name; a caller's own does not have one known here |
| Registries.LoadersUnderTheirNames | threedify/data/loaders.py:202-207 | Each built-in loader sits under its own name, except the ImageLoader, which sits under "raster" and names itself "image" |
| Loaders.LoadedAttributes | threedify/data/loaders.py:68-76 | Each built-in loader's result has path and type attributes and never a raster attribute |
| Loaders.Checker | threedify/data/loaders.py:266-269 | Pixel (i, j) is black iff (i div 32 + j div 32) mod 2 = 0, and white otherwise |
| Loaders.SampleImagePixels | threedify/data/loaders.py:263-269 | The nested loop leaves a 256 x 256 image with every pixel at its checkerboard colour |
| Loaders.NeighbourTilesDiffer | threedify/data/loaders.py:268 | Moving one tile across flips the colour |
| Loaders.SameTileSameColour | threedify/data/loaders.py:268 | Pixels of one tile share a colour |
| Loaders.SampleLidar | threedify/data/loaders.py:242-258 | sample_lidar has 1000 points, colours, intensities and classifications. Every classification is 0. Colours and intensities lie in [0, 1) when the uniform draws do, and there is no header or path. |
| Loaders.SampleImageMetadata | threedify/data/loaders.py:271-276 | The metadata has width and height 256 and mode RGB |
| Loaders.LoadExample | threedify/data/loaders.py:233-287 | sample_lidar and sample_image give their datasets, and any other name is a ValueError |
| Cli.SectionOf | threedify/cli.py:110 | config.get(name, {}) returns the stored section when there is one |
| Cli.PutSection | threedify/cli.py:110-111 | Putting a section back and writing a key fails with TypeError exactly when the section is not a dictionary. Otherwise only that section changes. |
| Cli.ConfigFromArgs | threedify/cli.py:103-120 | A file error propagates. Otherwise building fails, with TypeError, exactly when a section that gets written is not a dictionary. |
| Cli.CreateConfigFromArgs | threedify/cli.py:103-120 | The section-by-section mutation computes that configuration |
| Cli.ExitCode | threedify/cli.py:122-145 | main returns 0 iff the configuration is built and every stage succeeds, otherwise 1. The run infers the processor and exports gltf. |
| Cli.MainReturnCode | threedify/cli.py:122-145 | main's return code after argument parsing is that exit code |
| Cli.MissingDataTypeFails | threedify/cli.py:130-134 | An input path handed over as str with no --data-type always exits with 1 |
| Cli.ProcessAndFormatIgnored | threedify/cli.py:130-137 | --process and --export-format do not change the exit code |
| Cli.ConfigOnlyOptionsIgnoredByTheRun | threedify/cli.py:128-137 | verbose, cache dir, building mode and optimise-mesh change the exit code only by making the configuration fail |
| Cli.NoFileConfig | threedify/cli.py:105-119 | Without --config the result is the four sections with the command-line values. The processor section is empty iff building mode is off. |
| Cli.ConfigSections | threedify/cli.py:110-119 | The returned dictionary is the file's with the four sections written in turn |
| Cli.FlagsAlwaysWritten | threedify/cli.py:110-111 | general.verbose and export.optimize_mesh always hold the flags |
| Cli.CacheDirOnlyWhenGiven | threedify/cli.py:112-114 | loader.cache_dir is the given directory when one is given; otherwise the loader section is the file's, untouched |
| Cli.BuildingModeOnlyTrue | threedify/cli.py:115-117 | processor.building_mode is written only as True, with the flag on; otherwise the file's section is untouched |
| Cli.FileKeysPreserved | threedify/cli.py:106-119 | Every other key of the file survives, and so does every other key of the general and export sections |

## Left out

- I/O is not modelled: reading LAS, image, vector and CSV files; writing
  XML, PLY, glTF and OBJ files; `copyfile`; `os.makedirs`; saving the
  configuration (`Config.save`); the XML pretty-printing of the CityGML
  document. Each exporter's result is the path and the write it chooses.
- The loaders' `load` methods (laspy, PIL, pandas) are not modelled. Only the
  attribute names of what they return are (`Loaders.LoadedAttributes`).
  Intensity and classification are carried through and never inspected.
- Foreign library calls become given functions. This covers every OpenCV,
  PIL and skimage call of the raster processor and the trimesh, open3d and
  pygltflib mesh work, including merging, decimation and texture loading.
  The raster calls that can reject their input (the five steps,
  findContours with the blur and threshold before it, Canny and SIFT) return
  a `Result`. Image.fromarray's shape rule is modelled (`Raster.PilMode`);
  the picture it builds for an accepted shape is a given function. The calls that measure or draw contours and lines are taken as
  total.
- Raster.AsUint8: a float sample outside [0 256) is truncated toward zero and
  wrapped modulo 256; numpy leaves that cast to the platform.
- Raster.ExtractFeatures: the mean, std, min and max statistics and the GLCM
  properties are not computed. Only the errors the statistics raise are
  modelled.
- Cli.CreateConfigFromArgs: the configuration is a value. The writes into the
  sections of the loaded `_config` also reach the `DEFAULT_CONFIG`
  dictionaries that `Config` copies shallowly, and that side effect is not
  modelled.
- Configuration.Config.ApplyEntry: a dictionary taken from `config_dict`
  is stored as the caller's own object (threedify/core/config.py:86), also
  inside sections shared with `DEFAULT_CONFIG`, so later `set` writes reach
  the caller's dictionary and the caller's writes reach the configuration.
  The model stores a copy of the value, so that aliasing is not modelled.
- ExportCommon.Truthy: an empty array is taken as falsy, as numpy before
  2.2 does; numpy 2.2 and later raise ValueError instead (the truth tests at
  threedify/export/ply.py:47 and 250, threedify/export/gltf.py:53 and the
  matching OBJ tests).
- CityGml.ModelData: a truthy mesh that is not a dictionary (an
  AttributeError at threedify/export/citygml.py:241) cannot be
  represented.
- Floating-point statistics are given values: normalisation, contrast
  stretch, the mean and deviation of features, GLCM values, the outlier
  threshold and the median. Reals are exact; rounding is not modelled.
- Randomness is a parameter: numpy draws for downsampling, normals,
  placeholders and `sample_lidar`. `uuid4().hex` ids are ids from a
  counter, proved distinct within a document, not random hex strings.
- Number formatting: a posList is a sequence of real tokens, not the text
  of Python's float formatting. Attribute values are strings already; the
  source applies `str()` to some.
- The seven namespace declarations of the CityModel root are an
  enumeration (`CityGml.Namespace`), each paired with its attribute and URI,
  not an lxml nsmap.
- GML LinearRings are not closed by repeating the first position, because the
  source never does it.
- The open3d colour scaling (`colors.max() > 1.0`) is not modelled; the chosen
  write carries the colour array as given.
- The generation services (`bolt3d`, `trellis`) are network clients, so they are
  the `Pipelines.Services` record. `get_model` is named by the pipeline but
  never defined in the package, so `Services.getModel` stands for it.
- The pipeline module does not import as written (a malformed import line
  at threedify/core/pipeline.py:11), so each function is modelled
  individually, not the wiring.
- Pipelines: the `**kwargs` sub-dicts that `run_pipeline` and the stages
  pass to loaders, processors, models and exporters are not modelled, because
  their effect lies in the foreign stages.
- Logging and `_setup_logging` are not modelled. `verbose` only chooses log
  output.
- The visualisers, the vector and general processors, the base classes,
  setup.py and the two test scripts are not part of this model.
- Cli: argument parsing (`parse_args`) is argparse, and the model starts
  from its result (`Cli.Args`). The `--config` file's parse result and its
  errors are a given `Result`.
- Configuration.Config.constructor: a missing file, malformed JSON and a
  non-dictionary file are I/O errors outside the model. The file arrives
  parsed.
- Pipelines.InferDataType: the path is a `Path` value, already normalised
  by pathlib; how pathlib parses a string into components is not modelled.
- Text.Lower: lower-cases ASCII letters only, not full Unicode case mapping.
- Pipelines.RunSteps: its own contract states only the failing-load case;
  the full run is described by `RunRecordsResults`, `RunInfersProcessor` and
  `StringPathNeedsDataType`.
- Gltf.ExportGeneric and Ply.Dispatch: their own contracts state only the
  error kinds; the branch-by-branch behaviour is stated by the lemmas after
  them (`GenericIsCube`, `PointCloudFirst`, `MeshSecond`, `GaussianThird`,
  `GenericMeshIsCube`, `NothingGivesCube`).
