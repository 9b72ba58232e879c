# A verified model of the fxdxfparser DXF reader

This project models, in Dafny, the core of fxdxfparser, a Java reader for AutoCAD DXF (Drawing Exchange Format) files. It also models the near-identical fxdxftoolkit copies of some of its files. The reader:

- takes a text stream of alternating group-code and value lines;
- builds a document of blocks, layers, line types and entities;
- flattens the model-space block into 2D JavaFX primitives.

The model follows the Java code class by class.

- **Reader** (`reader.dfy`, class `DxfReader`). It reads (code, value) pairs two lines at a time. It keeps one pushed-back pair and a line counter. It groups pairs into structures, each a code-0 name followed by the pairs up to the next code 0. It dispatches on the HEADER, TABLES, BLOCKS and ENTITIES sections and skips every other section. Every method is proved against a pure function of the line list: `NextPair`, `Structure`, `HeaderSection`, `TablesSection`, `BlocksSection`/`EntitiesSection`, `RunInto`. A round-trip lemma shows that pairs written out as lines are read back unchanged.
- **Pair container** (`pairs.dfy`, classes `PairContainer` and `ValueIterator`). This is the ordered pair list, with:
  - first-match lookups;
  - the lazy iterator over the values of one code, proved to yield exactly those values;
  - the sub-range after a subclass marker (code 100).
- **Type registry** (`entitytypes.dfy`). The DXF-name/constant mapping, its round trip, and the 19-member supported set.
- **Parser and document** (`parser.dfy`, `documents.dfy`, `status.dfy`, `layers.dfy`, `linetypes.dfy`, `distanceunits.dfy`). The parser's fields and the document's tables are class fields updated in place. The Java object graph of blocks and entities is held as two stores indexed by slot number. The model covers:
  - filing an entity into the open block, model space or paper space;
  - attaching VERTEX and face records to their owner;
  - the LAYER and LTYPE tables;
  - the header variables;
  - the reading statistics.

  Each step is stated by a two-state predicate, mirrored by a pure function over the filing state.
- **Entities** (`entities.dfy`, `kinds.dfy`, `vertices.dfy`, `lines.dfy`, `arcs.dfy`, `faces.dfy`, `polylineentities.dfy`, `lwpolylines.dfy`, `meshes.dfy`, `inserts.dfy`). Decoding of every supported entity, its colour and line-type resolution, and what it draws.
- **Geometry** (`geometry.dfy`, `polylines.dfy`, `shapes.dfy`). The bulge-to-arc formulas, arc sampling, the polyline vertex list with bulges expanded, and width interpolation. Drawing goes to an append-only shape container, class `ShapeContainer`.
- **Conversion** (`conversion.dfy`). A block draws its entities in order. INSERT and DIMENSION set the current pen of the block they name and draw it recursively. Each method is proved against `EntityRun`/`BlockRun`.
- **Numerics** (`numerics.dfy`, `text.dfy`, `results.dfy`). These hold the Java primitives the code depends on: upper-casing, trim, Integer.parseInt over ASCII digits, the double-to-int cast, Math.round and the float test. They also hold the failures that abort a load.

Paths in the table below are relative to the repository root.

## Model

| member | source | states |
|---|---|---|
| Text.Upper | src/main/java/com/mhschmieder/fxdxfparser/reader/DxfReader.java:79 | English upper-casing keeps the length and maps each of a-z to its capital, every other character to itself |
| Text.UpperIsUpper | src/main/java/com/mhschmieder/fxdxfparser/reader/DxfReader.java:79 | an upper-cased name is upper case, and upper-casing it again changes nothing |
| Text.EqualsIgnoreCaseIsEquivalence | src/main/java/com/mhschmieder/fxdxfparser/reader/DxfReader.java:66 | equalsIgnoreCase is reflexive, symmetric and transitive |
| Text.TrimEndsNotSpace | src/main/java/com/mhschmieder/fxdxfparser/reader/DxfReader.java:268-271 | neither end of a trimmed line is a character trim removes (code at most ' ') |
| Text.TrimEmptyIffBlank | src/main/java/com/mhschmieder/fxdxfparser/reader/DxfParser.java:508 | `trim().isEmpty()` holds exactly when every character is at most ' ' |
| Text.TrimIdempotent | src/main/java/com/mhschmieder/fxdxfparser/reader/DxfReader.java:271 | trimming a trimmed line changes nothing |
| Text.ParseInt | src/main/java/com/mhschmieder/fxdxfparser/reader/DxfReader.java:268 | Integer.parseInt, restricted to ASCII digits, accepts only text starting with a digit or sign and only values in the 32-bit range |
| Text.ParseIntOfIntToString | src/main/java/com/mhschmieder/fxdxfparser/reader/DxfReader.java:268 | every 32-bit value Integer.toString writes is read back by Integer.parseInt |
| Text.ParseIntRejects | src/main/java/com/mhschmieder/fxdxfparser/reader/DxfReader.java:268 | the empty string, a lone sign and a digit followed by a letter are refused |
| Numerics.ParseDouble | src/main/java/com/mhschmieder/fxdxfparser/reader/DxfParser.java:521 | Double.parseDouble fails exactly on a missing value or one the number syntax refuses, and otherwise gives that number |
| Numerics.LenientDouble | src/main/java/com/mhschmieder/fxdxfparser/entity/DxfPoint.java:72 | NumberUtilities.parseDouble fails exactly when the number syntax refuses the (possibly missing) value |
| Numerics.LenientInteger | src/main/java/com/mhschmieder/fxdxfparser/entity/DxfVertex.java:105 | NumberUtilities.parseInteger fails exactly when the number syntax refuses the (possibly missing) value |
| Numerics.Trunc | src/main/java/com/mhschmieder/fxdxfparser/geometry/EllipticalArc2D.java:125 | a double-to-int cast truncates toward zero: within 1 of x, on the side of zero |
| Numerics.Rem360Range | src/main/java/com/mhschmieder/fxdxfparser/geometry/EllipticalArc2D.java:138 | `g %= 360d` lands in [0, 360) for a non-negative angle, in (-360, 0] for a negative one, and leaves [0, 360) alone |
| Numerics.Round | src/main/java/com/mhschmieder/fxdxfparser/geometry/EllipticalArc2D.java:125 | Math.round is within one half of its argument, halves rounding up |
| Numerics.FloatIsZeroExamples | src/main/java/com/mhschmieder/fxdxfparser/geometry/EllipticalArc2D.java:122 | illustration on samples: `(float) x == 0f` holds for 0 and fails for 0.5 and -1 |
| Numerics.HasBitExamples | src/main/java/com/mhschmieder/fxdxfparser/reader/DxfParser.java:285 | illustration on samples: the flag test `(flags & 2^k) != 0`, negative flags included |
| Pairs.FirstIndex | src/main/java/com/mhschmieder/fxdxfparser/reader/DxfPairContainer.java:95-106 | the search stops at the first pair with the code: that pair has it and none before it does; no result exactly when no pair has it |
| Pairs.GetValueOr | src/main/java/com/mhschmieder/fxdxfparser/reader/DxfPairContainer.java:177-179 | getValue(k, default) is the value of the first pair with code k, or the default when there is none |
| Pairs.GetValue | src/main/java/com/mhschmieder/fxdxfparser/reader/DxfPairContainer.java:173-175 | getValue(k) is non-null exactly when some pair has code k |
| Pairs.ValuesOfHead | src/main/java/com/mhschmieder/fxdxfparser/reader/DxfPairContainer.java:218-220 | the value iterator for k is empty exactly when getValue(k) is null, and its first value is getValue(k) |
| Pairs.ValuesOfAppend | src/main/java/com/mhschmieder/fxdxfparser/reader/DxfPairContainer.java:60-75 | the values of code k in two lists one after the other are those of the first list, then those of the second |
| Pairs.PairsFrom | src/main/java/com/mhschmieder/fxdxfparser/reader/DxfPairContainer.java:196-205 | iterator(k) is null exactly when no pair has code k, and otherwise the suffix of the list starting at the first such pair |
| Pairs.PairsFromKeepsValues | src/main/java/com/mhschmieder/fxdxfparser/reader/DxfPairContainer.java:196-205 | iterating from the first pair with code k loses none of the values of code k |
| Pairs.ValuesOfAbsent | src/main/java/com/mhschmieder/fxdxfparser/reader/DxfPairContainer.java:60-75 | a list with no pair of code k yields no value for k |
| Pairs.MarkerIndex | src/main/java/com/mhschmieder/fxdxfparser/reader/DxfPairContainer.java:142-143 | the first subclass marker (code 100) whose value equals the name exactly, none earlier |
| Pairs.MarkerIndexIgnoreCase | src/main/java/com/mhschmieder/fxdxfparser/reader/DxfPairContainer.java:156-159 | the first subclass marker whose value equals the name ignoring case, none earlier |
| Pairs.UpToMarker | src/main/java/com/mhschmieder/fxdxfparser/reader/DxfPairContainer.java:133-136 | the longest prefix without a code-100 pair: it stops at the next marker or the end |
| Pairs.SubclassPairs | src/main/java/com/mhschmieder/fxdxfparser/reader/DxfPairContainer.java:128-151 | getSubclassPairs is null exactly when no marker names the subclass, and otherwise the pairs after that marker up to the next marker |
| Pairs.SubclassValue | src/main/java/com/mhschmieder/fxdxfparser/reader/DxfPairContainer.java:154-164 | getSubclassValue is null without a marker naming the subclass in any case, and otherwise the first value of the code anywhere after that marker |
| Pairs.SubclassPairsOfRange | src/main/java/com/mhschmieder/fxdxfparser/reader/DxfPairContainer.java:128-151 | a list laid out as other pairs, the marker, a range without markers and the next marker gives back exactly that range |
| Pairs.SubclassPairsStopAtMarker | src/main/java/com/mhschmieder/fxdxfparser/reader/DxfPairContainer.java:134-135 | illustration on a sample list: the AcDbEntity range is empty because the next marker follows at once |
| Pairs.SubclassValueCrossesMarkers | src/main/java/com/mhschmieder/fxdxfparser/reader/DxfPairContainer.java:154-164 | on the same list, getSubclassValue(8, "AcDbEntity") still finds the layer after the next marker |
| Pairs.PairContainer.constructor | src/main/java/com/mhschmieder/fxdxfparser/reader/DxfPairContainer.java:112-114 | a new container holds no pair |
| Pairs.PairContainer.Add | src/main/java/com/mhschmieder/fxdxfparser/reader/DxfPairContainer.java:116-118 | add appends exactly one pair and keeps the others |
| Pairs.PairContainer.Clear | src/main/java/com/mhschmieder/fxdxfparser/reader/DxfPairContainer.java:120-122 | clear empties the container |
| Pairs.ValueIterator.constructor | src/main/java/com/mhschmieder/fxdxfparser/reader/DxfPairContainer.java:218-220 | iteratorForValue(k) will produce the values of code k in list order |
| Pairs.ValueIterator.HasNext | src/main/java/com/mhschmieder/fxdxfparser/reader/DxfPairContainer.java:60-75 | hasNext is true exactly when a value is left, consumes nothing it will not return, and caches the value found |
| Pairs.ValueIterator.Next | src/main/java/com/mhschmieder/fxdxfparser/reader/DxfPairContainer.java:77-88 | next returns the first remaining value and drops it, and throws NoSuchElementException when none is left |
| EntityTypes.ToString | src/main/java/com/mhschmieder/fxdxfparser/reader/EntityType.java:118-138 | toString prints FACE3D as 3DFACE and SOLID3D as 3DSOLID, every other constant as its declared name |
| EntityTypes.CanonicalRoundTrip | src/main/java/com/mhschmieder/fxdxfparser/reader/EntityType.java:87-138 | canonicalValueOf gives back every constant from its toString |
| EntityTypes.CanonicalIgnoresCase | src/main/java/com/mhschmieder/fxdxfparser/reader/EntityType.java:91 | canonicalValueOf does not depend on the case of the name |
| EntityTypes.CanonicalUnknown | src/main/java/com/mhschmieder/fxdxfparser/reader/EntityType.java:93-111 | illustration on samples: an empty or unknown name gives UNRECOGNIZED_ENTITY, and both 3DFACE and FACE3D give FACE3D |
| EntityTypes.SupportedCount | src/main/java/com/mhschmieder/fxdxfparser/reader/EntityTypeHash.java:42-94 | the supported set holds exactly the nineteen types added to it |
| EntityTypes.UnsupportedExamples | src/main/java/com/mhschmieder/fxdxfparser/reader/EntityTypeHash.java:96-98 | illustration on samples: VIEWPORT, TEXT, MTEXT, ATTRIB, ATTDEF, HATCH, SPLINE, 3DSOLID and the unrecognised type are not supported |
| DistanceUnits.Ordinal | src/main/java/com/mhschmieder/fxdxfparser/physics/DxfDistanceUnit.java:39-60 | the 21 constants have the ordinals 0 to 20 |
| DistanceUnits.IndexToDistanceUnit | src/main/java/com/mhschmieder/fxdxfparser/physics/DxfDistanceUnit.java:62-135 | indices 0 to 20 give the constant with that ordinal, and every other index gives UNITLESS |
| DistanceUnits.IndexOfOrdinal | src/main/java/com/mhschmieder/fxdxfparser/physics/DxfDistanceUnit.java:62-135 | every constant is found again from its ordinal |
| DistanceUnits.UnitlessIndices | src/main/java/com/mhschmieder/fxdxfparser/physics/DxfDistanceUnit.java:62-135 | UNITLESS comes exactly from index 0 and the out-of-range indices |
| Layers.Abs32 | src/main/java/com/mhschmieder/fxdxfparser/loader/DxfLayer.java:79 | FastMath.abs on an int is the magnitude, except that the smallest int stays negative |
| Layers.NewLayer | src/main/java/com/mhschmieder/fxdxfparser/loader/DxfLayer.java:66-81 | the layer keeps its name, upper-cases its line type (a null line type throws), is on exactly for a non-negative colour, and keeps the colour's magnitude |
| Layers.NewLayerIgnoresFlags | src/main/java/com/mhschmieder/fxdxfparser/loader/DxfLayer.java:66-81 | the flags never influence the layer |
| Layers.NewLayerSignOnlySwitches | src/main/java/com/mhschmieder/fxdxfparser/loader/DxfLayer.java:70-79 | a colour and its negation give the same layer except that the negative one is off |
| Layers.SetLayerOn | src/main/java/com/mhschmieder/fxdxfparser/loader/DxfLayer.java:110-124 | after setLayerOn(on), isLayerOn() is on and nothing else changes |
| Layers.DefaultLayerIsOnContinuous | src/main/java/com/mhschmieder/fxdxfparser/structure/DxfDocument.java:257-262 | a layer the table does not hold is looked up as the unnamed, switched-on, colour-7, CONTINUOUS layer |
| LineTypes.DefaultLineTypeIsContinuous | src/main/java/com/mhschmieder/fxdxfparser/structure/DxfDocument.java:303-308 | a line type the table does not hold is looked up as CONTINUOUS, which has no pattern and is continuous |
| LineTypes.PaddedDescription | src/main/java/com/mhschmieder/fxdxftoolkit/loader/DxfLineType.java:111-114 | the trimmed description, with one space added when its length is odd: always of even length, empty exactly when the description is blank |
| LineTypes.DashesSnoc | src/main/java/com/mhschmieder/fxdxftoolkit/loader/DxfLineType.java:134-164 | one more character adds its scaled on and off lengths at the end of the dash array |
| LineTypes.DashesShape | src/main/java/com/mhschmieder/fxdxftoolkit/loader/DxfLineType.java:134-164 | two entries per character, the on and off lengths of that character (space, dot, dash, underscore, anything else), scaled |
| LineTypes.DashArrayOfBlank | src/main/java/com/mhschmieder/fxdxftoolkit/loader/DxfLineType.java:109-166 | the dash array is empty exactly for a blank description, and otherwise has two entries per kept character |
| LineTypes.DashArrayExample | src/main/java/com/mhschmieder/fxdxftoolkit/loader/DxfLineType.java:109-166 | illustration on a sample: " . " scaled by 2 gives [2, 6, 0, 20] |
| LineTypes.MakeDashArray | src/main/java/com/mhschmieder/fxdxftoolkit/loader/DxfLineType.java:109-166 | makeDashArray builds exactly the dash array of the description and the scale |
| Status.AddToEntitiesByType | src/main/java/com/mhschmieder/fxdxfparser/structure/DxfStatus.java:39-50 | a null type leaves the tally alone; otherwise that type's count goes up by one (from 0 when absent) and no other entry changes |
| Status.TallyCountsOccurrences | src/main/java/com/mhschmieder/fxdxfparser/structure/DxfStatus.java:39-50 | counting a sequence of types one call at a time gives each type the number of its occurrences, and only occurring types have an entry |
| Status.DxfStatus.constructor | src/main/java/com/mhschmieder/fxdxfparser/structure/DxfStatus.java:52-88 | every counter starts at 0 and every tally empty |
| Status.DxfStatus.Count | src/main/java/com/mhschmieder/fxdxfparser/reader/DxfParser.java:404-471 | counting an entity raises the counter of its context by one and counts its type in that context's tally; nothing else changes |
| Status.DxfStatus.AddToBlockContextEntitiesIgnored | src/main/java/com/mhschmieder/fxdxfparser/structure/DxfStatus.java:90-92 | the block-context ignored tally counts the type, nothing else changes |
| Status.DxfStatus.AddToBlockContextEntitiesRead | src/main/java/com/mhschmieder/fxdxfparser/structure/DxfStatus.java:94-96 | the block-context read tally counts the type |
| Status.DxfStatus.AddToModelSpaceEntitiesIgnored | src/main/java/com/mhschmieder/fxdxfparser/structure/DxfStatus.java:98-100 | the model-space ignored tally counts the type |
| Status.DxfStatus.AddToModelSpaceEntitiesRead | src/main/java/com/mhschmieder/fxdxfparser/structure/DxfStatus.java:102-104 | the model-space read tally counts the type |
| Status.DxfStatus.AddToPaperSpaceEntitiesIgnored | src/main/java/com/mhschmieder/fxdxfparser/structure/DxfStatus.java:106-108 | the paper-space ignored tally counts the type |
| Status.DxfStatus.AddToPaperSpaceEntitiesRead | src/main/java/com/mhschmieder/fxdxfparser/structure/DxfStatus.java:110-112 | the paper-space read tally counts the type |
| Status.DxfStatus.AddToUnsupportedBlockContextEntities | src/main/java/com/mhschmieder/fxdxfparser/structure/DxfStatus.java:114-116 | the unsupported block-context tally counts the type |
| Status.DxfStatus.AddToUnsupportedModelAndPaperSpaceEntities | src/main/java/com/mhschmieder/fxdxfparser/structure/DxfStatus.java:118-120 | the unsupported model/paper-space tally counts the type |
| Documents.NewBlock | src/main/java/com/mhschmieder/fxdxfparser/loader/DxfBlock.java:161-170 | a fresh block has the given name, no entities and no property override |
| Documents.DecodeBlock | src/main/java/com/mhschmieder/fxdxfparser/loader/DxfBlock.java:177-182 | a BLOCK record decodes exactly when codes 10, 20 and 70 parse, into a block at that origin with those flags |
| Documents.Lookup | src/main/java/com/mhschmieder/fxdxfparser/structure/DxfDocument.java:201-203 | a lookup finds an entry exactly when the upper-cased name is filed, and finds that entry |
| Documents.LayerNamed | src/main/java/com/mhschmieder/fxdxfparser/structure/DxfDocument.java:256-263 | getLayer finds the layer filed under the upper-cased name, or the default layer when none is |
| Documents.LineTypeNamed | src/main/java/com/mhschmieder/fxdxfparser/structure/DxfDocument.java:302-309 | getLineType finds the line type filed under the upper-cased name, or the default one when none is |
| Documents.LookupAfterPut | src/main/java/com/mhschmieder/fxdxfparser/structure/DxfDocument.java:136-138 | after filing under the upper-cased name, every spelling of that name finds the new entry and every other name finds what it found before |
| Documents.LookupIgnoresCase | src/main/java/com/mhschmieder/fxdxfparser/structure/DxfDocument.java:201-203 | two spellings of a name find the same entry |
| Documents.WithArrowKeepsDistinct | src/main/java/com/mhschmieder/fxdxfparser/structure/DxfDocument.java:122-134 | addArrowBlock keeps the list free of duplicates in any spelling, lists the name, keeps earlier entries in place and adds at most one |
| Documents.WithArrowIdempotent | src/main/java/com/mhschmieder/fxdxfparser/structure/DxfDocument.java:127-131 | adding a name again in any spelling changes nothing |
| Documents.OverrideArrows | src/main/java/com/mhschmieder/fxdxfparser/structure/DxfDocument.java:317-330 | initialize keeps the number of blocks |
| Documents.OverrideArrowsAt | src/main/java/com/mhschmieder/fxdxfparser/structure/DxfDocument.java:320-329 | after initialize exactly the blocks some arrow name finds carry the ByBlock override, and nothing else about any block changes |
| Documents.OverrideArrowsEach | src/main/java/com/mhschmieder/fxdxfparser/structure/DxfDocument.java:320-329 | the same, for every block at once |
| Documents.Document.constructor | src/main/java/com/mhschmieder/fxdxfparser/structure/DxfDocument.java:108-120 | a new document is unitless, has statistics exactly when logging is on, and holds only the model-space and paper-space blocks filed under their names |
| Documents.Document.CreateBlock | src/main/java/com/mhschmieder/fxdxfparser/loader/DxfBlock.java:68-88 | a new block joins the end of the block store with a fresh pen (colour 7, no line type) |
| Documents.Document.AddBlock | src/main/java/com/mhschmieder/fxdxfparser/structure/DxfDocument.java:136-138 | the block is filed under its upper-cased name; nothing else changes |
| Documents.Document.CreateEntity | src/main/java/com/mhschmieder/fxdxfparser/entity/DxfEntity.java:70-84 | a new entity joins the end of the entity store |
| Documents.Document.AddEntityByRef | src/main/java/com/mhschmieder/fxdxfparser/structure/DxfDocument.java:140-142 | the entity is filed under its handle (a missing handle is a key too); nothing else changes |
| Documents.Document.AddArrowBlock | src/main/java/com/mhschmieder/fxdxfparser/structure/DxfDocument.java:122-134 | the arrow list becomes WithArrow of the old list and keeps its no-duplicates invariant |
| Documents.Document.AddLayer | src/main/java/com/mhschmieder/fxdxfparser/structure/DxfDocument.java:144-150 | a missing name or line type fails as a null reference; otherwise the layer is built under the upper-cased name and filed there |
| Documents.Document.AddLineType | src/main/java/com/mhschmieder/fxdxfparser/structure/DxfDocument.java:152-168 | a missing name fails as a null reference; otherwise the line type is built under the upper-cased name and filed there |
| Documents.Document.GetBlock | src/main/java/com/mhschmieder/fxdxfparser/structure/DxfDocument.java:201-203 | getBlock finds a block in the store exactly when the upper-cased name is filed |
| Documents.Document.GetEntityByRef | src/main/java/com/mhschmieder/fxdxfparser/structure/DxfDocument.java:239-241 | getEntityByRef finds the entity last filed under the handle, exactly when the handle is filed |
| Documents.Document.Initialize | src/main/java/com/mhschmieder/fxdxfparser/structure/DxfDocument.java:317-330 | exactly the blocks an arrow name finds get the ByBlock override; nothing else changes |
| Documents.Document.ClearDocument | src/main/java/com/mhschmieder/fxdxfparser/structure/DxfDocument.java:170-199 | the model-space and paper-space blocks are emptied, other blocks are untouched, and the arrow list and all tables are dropped |
| Documents.Document.SetDistanceUnit | src/main/java/com/mhschmieder/fxdxfparser/structure/DxfDocument.java:332-334 | the unit is set; nothing else changes |
| Documents.Document.SetGlobalLineTypeScale | src/main/java/com/mhschmieder/fxdxfparser/structure/DxfDocument.java:336-338 | the global line-type scale is set; nothing else changes |
| Documents.Document.SetLimitsMin | src/main/java/com/mhschmieder/fxdxfparser/structure/DxfDocument.java:348-351 | the lower drawing limit is set; nothing else changes |
| Documents.Document.SetLimitsMax | src/main/java/com/mhschmieder/fxdxfparser/structure/DxfDocument.java:343-346 | the upper drawing limit is set; nothing else changes |
| Documents.Document.AddEntityToBlock | src/main/java/com/mhschmieder/fxdxfparser/loader/DxfBlock.java:91-96 | the entity joins the end of the block's list, takes the block as parent and becomes the last added entity; no other block or entity changes |
| Documents.Document.SetKind | src/main/java/com/mhschmieder/fxdxfparser/reader/DxfParser.java:362-374 | the container's data is replaced by its updated data; no other entity changes |
| Documents.Document.SetCurrentColor | src/main/java/com/mhschmieder/fxdxfparser/loader/DxfBlock.java:184-186 | only the block's current colour changes |
| Documents.Document.SetCurrentLineType | src/main/java/com/mhschmieder/fxdxfparser/loader/DxfBlock.java:188-190 | only the block's current line type changes |
| Documents.Document.SetPropertyOverriding | src/main/java/com/mhschmieder/fxdxfparser/loader/DxfBlock.java:192-194 | only the block's property override changes |
| Documents.Document.ClearBlock | src/main/java/com/mhschmieder/fxdxfparser/loader/DxfBlock.java:98-105 | only the block's entity list changes, to empty |
| Entities.StrictInteger | src/main/java/com/mhschmieder/fxdxfparser/reader/DxfParser.java:350 | Integer.parseInt succeeds exactly on present text that parses as a 32-bit integer of ASCII digits, and yields that integer |
| Entities.ReadDefaults | src/main/java/com/mhschmieder/fxdxfparser/entity/DxfEntity.java:267-284 | the default literals "0" and "-1" the decoders supply are read as 0 and -1 by either number parser |
| Entities.DecodeCommon | src/main/java/com/mhschmieder/fxdxfparser/entity/DxfEntity.java:254-302 | a paper-space flag that does not parse aborts; the entity is rejected exactly when it is in paper space and paper space is ignored; otherwise handle and owner come from the whole list, layer and line type (default BYLAYER) from the AcDbEntity range |
| Entities.DecodeCommonDefaults | src/main/java/com/mhschmieder/fxdxfparser/entity/DxfEntity.java:267-284 | an entity stating no shared property is in model space, has no layer name, colour ByLayer, line type BYLAYER, scale 1 and is invisible |
| Entities.DecodeCommonPaperSpace | src/main/java/com/mhschmieder/fxdxfparser/entity/DxfEntity.java:267-271 | a paper-space entity is rejected exactly when paper space is ignored, and is kept flagged as paper space otherwise |
| Entities.DecodeCommonUsesSubclassRange | src/main/java/com/mhschmieder/fxdxfparser/entity/DxfEntity.java:262-265 | inside an AcDbEntity range a layer written before the marker is not the entity's layer |
| Entities.RealColorIndex | src/main/java/com/mhschmieder/fxdxfparser/entity/DxfEntity.java:213-233 | resolving a colour fails only as a null reference (ByBlock with no parent block) |
| Entities.RealColorIndexCases | src/main/java/com/mhschmieder/fxdxfparser/entity/DxfEntity.java:213-233 | an override wins over the entity's colour; an explicit colour is used as is, ByLayer becomes the layer's colour and ByBlock the block's current colour |
| Entities.RealColorIndexIdempotent | src/main/java/com/mhschmieder/fxdxfparser/entity/DxfEntity.java:213-233 | with explicit block and layer colours the resolved colour is explicit, and resolving it again changes nothing |
| Entities.LineTypeSourceOf | src/main/java/com/mhschmieder/fxdxfparser/entity/DxfEntity.java:173-187 | a named line type is looked up under the entity's own name |
| Entities.LineTypeSourceKeywords | src/main/java/com/mhschmieder/fxdxfparser/entity/DxfEntity.java:176-183 | BYLAYER and BYBLOCK are recognised in any case, and every other name is looked up as itself |
| Kinds.PolylineTypeOf | src/main/java/com/mhschmieder/fxdxfparser/reader/DxfParser.java:284-313 | a POLYLINE record is built as a plain polyline, a polygon mesh or a polyface mesh |
| Kinds.VertexTypeOf | src/main/java/com/mhschmieder/fxdxfparser/reader/DxfParser.java:349-359 | a VERTEX record is built as a vertex or a face record |
| Kinds.PolylineTypeOfBits | src/main/java/com/mhschmieder/fxdxfparser/reader/DxfParser.java:284-313 | illustration on samples: the polygon-mesh bit (16) wins over the polyface-mesh bit (64); with neither, closed and 3D polylines are plain polylines |
| Kinds.DecodeKind | src/main/java/com/mhschmieder/fxdxfparser/reader/DxfParser.java:198-395 | the class decoded matches the type: polygon mesh exactly for POLYGON3D, polyface mesh exactly for POLYFACE3D, and so on |
| Kinds.Build | src/main/java/com/mhschmieder/fxdxfparser/entity/DxfEntity.java:68-84 | a record is rejected exactly when its shared properties reject it, a failing shared property aborts, and a built entity carries the decoded shared properties and class data and no parent yet |
| Kinds.Construct | src/main/java/com/mhschmieder/fxdxfparser/reader/DxfParser.java:198-395 | a type with no constructor builds nothing, and a built entity has no parent yet |
| Kinds.ConstructRetypes | src/main/java/com/mhschmieder/fxdxfparser/reader/DxfParser.java:284-359 | a built record carries the type it was read as, except that a POLYLINE takes the class its flags select and a VERTEX with non-zero code 71 becomes a face record |
| Kinds.ConstructKinds | src/main/java/com/mhschmieder/fxdxfparser/reader/DxfParser.java:284-359 | the class built agrees with the type carried, both ways, for meshes, polylines, vertices and face records |
| Kinds.ConstructDecidingCodeThrows | src/main/java/com/mhschmieder/fxdxfparser/reader/DxfParser.java:284-350 | a POLYLINE flag word or a VERTEX code 71 that does not parse aborts the load with that failure |
| Kinds.ConstructRejectsPaperSpace | src/main/java/com/mhschmieder/fxdxfparser/entity/DxfEntity.java:75-79 | a paper-space record read while paper space is ignored builds nothing |
| Kinds.Attach | src/main/java/com/mhschmieder/fxdxfparser/reader/DxfParser.java:361-374 | attaching to a non-container fails the cast; a block reference ignores the child; a successful attach keeps the owner's class |
| Kinds.AttachVertex | src/main/java/com/mhschmieder/fxdxfparser/entity/DxfPolyline.java:90-119 | a vertex reaches its polyline's lists, whichever polyline form owns it, and the polyline stays consistent; a mesh's other data is unchanged |
| Kinds.AttachFaceRecord | src/main/java/com/mhschmieder/fxdxfparser/entity/DxfPolyFaceMesh.java:63-75 | a face record fails the cast on a plain polyline or polygon mesh; a polyface mesh appends it to its face list and keeps its polyline |
| Vertices.DecodePoint | src/main/java/com/mhschmieder/fxdxfparser/entity/DxfPoint.java:70-75 | a POINT decodes exactly when codes 10, 20 and 30 parse, into the point they give |
| Vertices.DecodePointReadsOnlyCoordinates | src/main/java/com/mhschmieder/fxdxfparser/entity/DxfPoint.java:70-75 | two pair lists that agree on codes 10, 20 and 30 decode to the same point |
| Vertices.DecodeVertex | src/main/java/com/mhschmieder/fxdxfparser/entity/DxfVertex.java:96-106 | a VERTEX decodes exactly when its point, widths, bulge and flags parse (each "0" when absent), with the point, flags and bulge they give |
| Vertices.DecodeVertexDefaults | src/main/java/com/mhschmieder/fxdxfparser/entity/DxfVertex.java:101-105 | a vertex stating only its point has no width, bulge or flags, and is a 2D vertex and not a control point |
| Vertices.IsVertex2DIsNotABitTest | src/main/java/com/mhschmieder/fxdxfparser/entity/DxfVertex.java:92-94 | illustration on samples: isVertex2D compares the flags with 32 as a number: flags -32 count as 2D though bit 32 is set, flags 64 do not though it is clear |
| Vertices.Bulge | src/main/java/com/mhschmieder/fxdxfparser/entity/DxfVertex.java:69-72 | a vertex that is not 2D reports bulge 0 |
| Vertices.StartWidth | src/main/java/com/mhschmieder/fxdxfparser/entity/DxfVertex.java:83-86 | a vertex that is not 2D reports start width 0 |
| Vertices.EndWidth | src/main/java/com/mhschmieder/fxdxfparser/entity/DxfVertex.java:74-77 | a vertex that is not 2D reports end width 0 |
| Vertices.GettersOf2DVertex | src/main/java/com/mhschmieder/fxdxfparser/entity/DxfVertex.java:69-86 | a 2D vertex reports its stored bulge and widths |
| Vertices.VertexArcOnlyFor2D | src/main/java/com/mhschmieder/fxdxfparser/entity/DxfVertex.java:64-67 | a 3D vertex never starts an arc; a 2D vertex starts one exactly when its bulge is not 0 in float |
| Vertices.AsPolyVertex | src/main/java/com/mhschmieder/fxdxfparser/entity/DxfPolyline.java:106-119 | the poly-vertex keeps the vertex's point and, for a 2D vertex, its widths and bulge |
| Vertices.FaceTypeOf | src/main/java/com/mhschmieder/fxdxfparser/entity/DxfFaceDef.java:53-74 | the face type is undefined exactly for no indices or more than four |
| Vertices.FaceVertexCount | src/main/java/com/mhschmieder/fxdxfparser/entity/DxfPolyFaceMesh.java:91-110 | a face type stands for at most four polygon vertices |
| Vertices.FaceIndicesShape | src/main/java/com/mhschmieder/fxdxfparser/entity/DxfFaceDef.java:84-99 | the index list keeps the indices in order up to the last non-negative one, has 1 to 4 entries (4 exactly when the fourth is non-negative, and so on), and its face type stands for exactly that many vertices |
| Vertices.NegativeIndexIsAbsent | src/main/java/com/mhschmieder/fxdxfparser/entity/DxfFaceDef.java:84-99 | a negative index counts as absent whatever its value |
| Vertices.DecodeFaceDef | src/main/java/com/mhschmieder/fxdxfparser/entity/DxfFaceDef.java:78-100 | a face record decodes exactly when code 71 and codes 72 to 74 (each -1 when absent) parse, into their index list |
| Vertices.DecodeFaceDefTriangle | src/main/java/com/mhschmieder/fxdxftoolkit/entity/DxfFaceDef.java:77-99 | a face record giving only codes 71 to 73 is a triangle of those three indices |
| Geometry.Abs | src/main/java/com/mhschmieder/fxdxfparser/geometry/Point.java:70-72 | the absolute value is non-negative and is the value or its negation |
| Geometry.PointEqualsReflexiveSymmetric | src/main/java/com/mhschmieder/fxdxfparser/geometry/Point.java:57-73 | equals is reflexive and symmetric, and objects of different classes are never equal |
| Geometry.PointEqualsNotTransitive | src/main/java/com/mhschmieder/fxdxfparser/geometry/Point.java:70-72 | equals is not transitive: (0,0,0) equals (0.0001,0,0), which equals (0.0002,0,0), but the ends differ |
| Geometry.VertexNeverEqualsPolyVertex | src/main/java/com/mhschmieder/fxdxfparser/geometry/Point.java:65-67 | a vertex never equals a poly-vertex with the same coordinates |
| Geometry.TotalAngle | src/main/java/com/mhschmieder/fxdxfparser/geometry/EllipticalArc2D.java:113-119 | the sweep is end minus start, plus 360 when the end is below the start |
| Geometry.TotalAngleRange | src/main/java/com/mhschmieder/fxdxfparser/geometry/EllipticalArc2D.java:113-119 | for angles in [0, 360) the sweep is in [0, 360) and is 0 exactly when start and end agree |
| Geometry.QuadrantAngleRange | src/main/java/com/mhschmieder/fxdxftoolkit/geometry/ArcUtilities.java:56-68 | the quadrant correction maps an atan angle in [-90, 90] into [0, 360), and into [90, 270] left of the centre |
| Geometry.GetArc | src/main/java/com/mhschmieder/fxdxftoolkit/geometry/ArcUtilities.java:37-77 | no arc exactly when the bulge is 0 as a float; otherwise a circular arc whose radius is the distance from the centre to the start point, with the end-point angles swapped for a negative bulge |
| Geometry.GetArcCentreEquidistant | src/main/java/com/mhschmieder/fxdxftoolkit/geometry/ArcUtilities.java:46-49 | the centre is as far from the end point as from the start point |
| Geometry.GetArcAngles | src/main/java/com/mhschmieder/fxdxftoolkit/geometry/ArcUtilities.java:51-76 | with atan in [-90, 90] degrees both arc angles and the sweep lie in [0, 360), and the axes are those of a circle |
| Geometry.GetArcHalfCircle | src/main/java/com/mhschmieder/fxdxftoolkit/geometry/ArcUtilities.java:37-77 | illustration on a sample: bulge 1 from (0,0) to (2,0) is the half circle centred at (1,0) from 180 to 0 degrees |
| Geometry.SampleStep | src/main/java/com/mhschmieder/fxdxfparser/geometry/EllipticalArc2D.java:122 | the step is never 0: 1 degree when the requested step is 0 as a float, otherwise the request capped at 20 |
| Geometry.SampleCount | src/main/java/com/mhschmieder/fxdxfparser/geometry/EllipticalArc2D.java:124-125 | at least two points are sampled |
| Geometry.SampleAngleRange | src/main/java/com/mhschmieder/fxdxfparser/geometry/EllipticalArc2D.java:135-138 | every sample angle lies within one turn of 0, in [0, 360) for a non-negative start and step, and the first is the start angle when that is in range |
| Geometry.SampledArc | src/main/java/com/mhschmieder/fxdxfparser/geometry/EllipticalArc2D.java:121-149 | the sampled list has as many points as the sample count |
| Geometry.SampledAnglesAt | src/main/java/com/mhschmieder/fxdxfparser/geometry/EllipticalArc2D.java:137-138 | angle i of the sampled list is the i-th sample angle |
| Geometry.SampledArcAngles | src/main/java/com/mhschmieder/fxdxfparser/geometry/EllipticalArc2D.java:121-149 | for an arc with angles in [0, 360) the first point is at the start angle and point i is at the i-th sample angle, in [0, 360) |
| Geometry.NormalizeGradients | src/main/java/com/mhschmieder/fxdxfparser/geometry/EllipticalArc2D.java:121-149 | normalizeGradients returns a new array holding exactly the sampled points of the arc |
| Geometry.FillSamples | src/main/java/com/mhschmieder/fxdxfparser/geometry/EllipticalArc2D.java:128-146 | the loop fills a new array with the points at the successive reduced angles |
| Arcs.DecodeArc | src/main/java/com/mhschmieder/fxdxfparser/entity/DxfArc.java:114-131 | an ARC decodes exactly when thickness (default 0), centre, radius, both angles and extrusion (default 0) parse, with the centre, radius and angles they give |
| Arcs.ArcExtentIsNegatedSweep | src/main/java/com/mhschmieder/fxdxfparser/entity/DxfArc.java:90-94 | the JavaFX extent is the negated counter-clockwise sweep; for angles in [0, 360) it lies in (-360, 0] and is 0 exactly when the angles agree |
| Arcs.ArcExtentEndsAtEnd | src/main/java/com/mhschmieder/fxdxfparser/entity/DxfArc.java:90-94 | sweeping by the extent from the negated start angle ends at the negated end angle, up to one turn |
| Arcs.DecodeCircle | src/main/java/com/mhschmieder/fxdxftoolkit/entity/DxfCircle.java:100-114 | a CIRCLE decodes, with Double.parseDouble, exactly when thickness, centre, radius and extrusion parse, with the centre and radius they give |
| Arcs.DecodeEllipse | src/main/java/com/mhschmieder/fxdxfparser/entity/DxfEllipse.java:239-258 | an ELLIPSE decodes exactly when its centre, axis end, normal, ratio and parameters parse; the parameters are stored converted to degrees |
| Arcs.EllipseChoiceCases | src/main/java/com/mhschmieder/fxdxfparser/entity/DxfEllipse.java:94-205 | a solid closed ellipse of ratio 1 is a circle; a solid closed one under the identity transform is an ellipse; a solid open one under the identity transform is an arc; every other case is sampled, each as an equivalence |
| Arcs.MinorAxisPerpendicular | src/main/java/com/mhschmieder/fxdxfparser/entity/DxfEllipse.java:211-216 | the minor axis is perpendicular to the major axis and the ratio times its length |
| Arcs.EllipseShapesSingle | src/main/java/com/mhschmieder/fxdxfparser/entity/DxfEllipse.java:94-237 | every ellipse is drawn as one shape; a sampled one is a polygon when closed and a polyline when open, through at least two points |
| Lines.DecodeLine | src/main/java/com/mhschmieder/fxdxfparser/entity/DxfLine.java:100-116 | a LINE decodes exactly when thickness (default 0), both end points and extrusion (default 0) parse, with the end points they give |
| Lines.DecodeLineDefaults | src/main/java/com/mhschmieder/fxdxfparser/entity/DxfLine.java:103-115 | a LINE giving only its end points has thickness 0 and a zero extrusion vector |
| Lines.DecodeRay | src/main/java/com/mhschmieder/fxdxfparser/entity/DxfRay.java:101-110 | a RAY (and an XLINE) decodes exactly when base and direction parse, into them |
| Lines.RayAndXLineSegments | src/main/java/com/mhschmieder/fxdxfparser/entity/DxfRay.java:78-84 | a ray's segment starts at the base and runs 300 times the direction; an xline's segment is centred on the base and runs the same 300 times the direction |
| Lines.XLineExtendsRayBackwards | src/main/java/com/mhschmieder/fxdxftoolkit/entity/DxfXLine.java:68-76 | an xline's segment is the ray's segment moved back by 150 direction lengths |
| Faces.DecodeFace3D | src/main/java/com/mhschmieder/fxdxfparser/entity/DxfFace3D.java:128-161 | a 3DFACE decodes exactly when its four corners and flags parse, into those corners; it is a triangle exactly when the fourth corner equals the third |
| Faces.Outline | src/main/java/com/mhschmieder/fxdxfparser/entity/DxfFace3D.java:82-93 | a triangle draws three corners and a quadrilateral four |
| Faces.Face3DShapePoints | src/main/java/com/mhschmieder/fxdxfparser/entity/DxfFace3D.java:98-109 | the polygon's points are the corners' x and y in stored order, and the invisible-edge flags play no part |
| Faces.ConvertFace3D | src/main/java/com/mhschmieder/fxdxfparser/entity/DxfFace3D.java:98-119 | the loop collects the corner coordinates and exactly one polygon is added to the container |
| Shapes.AppendApplies | src/main/java/com/mhschmieder/fxdxfparser/entity/DxfInsert.java:93-94 | an appended transform maps each point where the appended one and then the original take it |
| Shapes.AppendIdentity | src/main/java/com/mhschmieder/fxdxfparser/entity/DxfInsert.java:93-94 | appending the identity on either side changes nothing |
| Shapes.StrokeDashes | src/main/java/com/mhschmieder/fxdxfparser/entity/DxfLine.java:88-93 | no dash array without a line type or with a continuous one; otherwise the line type's dash array at the scale |
| Shapes.Coordinates | src/main/java/com/mhschmieder/fxdxfparser/entity/DxfFace3D.java:98-103 | the coordinate list has two entries per vertex |
| Shapes.CoordinatesAt | src/main/java/com/mhschmieder/fxdxfparser/entity/DxfFace3D.java:99-103 | entry 2i is the x of vertex i and entry 2i+1 its y |
| Shapes.ShapeContainer.constructor | src/main/java/com/mhschmieder/fxdxfparser/geometry/DxfShapeContainer.java:59-81 | a new container holds no shapes |
| Shapes.ShapeContainer.AddShape | src/main/java/com/mhschmieder/fxdxfparser/geometry/DxfShapeContainer.java:83-92 | one shape is appended with its stroke scale and the earlier ones are unchanged |
| Inserts.InsertTransformComposes | src/main/java/com/mhschmieder/fxdxfparser/entity/DxfInsert.java:125-139 | overwriting the translation entries equals translating to the insertion point after rotating (angle mod 360) and scaling |
| Inserts.InsertTransformApplies | src/main/java/com/mhschmieder/fxdxfparser/entity/DxfInsert.java:125-139 | a block point is scaled, then rotated, then moved to the insertion point |
| Inserts.InsertStrokeScale | src/main/java/com/mhschmieder/fxdxfparser/entity/DxfInsert.java:143-144 | the stroke factor exists exactly when the scales do not sum to 0, and times the mean scale it is 1 |
| Inserts.InsertStrokeScaleUniform | src/main/java/com/mhschmieder/fxdxfparser/entity/DxfInsert.java:143-144 | under a uniform scale s strokes are thinned by exactly 1/s |
| Inserts.DecodeInsert | src/main/java/com/mhschmieder/fxdxfparser/entity/DxfInsert.java:108-145 | an INSERT decodes exactly when rotation (default 0), insertion point and scales (default 1) parse; it names the block of code 2 and carries the block transform and stroke factor of those values |
| Inserts.DecodeInsertDefaults | src/main/java/com/mhschmieder/fxdxfparser/entity/DxfInsert.java:115-144 | an INSERT without rotation and scales places the block unrotated and unscaled at the insertion point with stroke factor 1 |
| Inserts.DecodeDimension | src/main/java/com/mhschmieder/fxdxfparser/entity/DxfDimension.java:83-106 | without an AcDbDimension range the decoder fails; otherwise block, text, style and both points come from that range |
| Inserts.DecodeDimensionRange | src/main/java/com/mhschmieder/fxdxfparser/entity/DxfDimension.java:88-105 | the fields are read from the range: block code 2, text code 1, style code 3, points codes 10 and 11 |
| Inserts.DecodeDimensionReadsOnlyItsRange | src/main/java/com/mhschmieder/fxdxfparser/entity/DxfDimension.java:86 | pairs before the AcDbDimension marker or after the next marker do not affect the decoded dimension |
| Inserts.BoundsCentred | src/main/java/com/mhschmieder/fxdxfparser/entity/DxfViewport.java:71-79 | the bounding box is centred on the viewport centre and spans its width and height |
| Inserts.ViewWidth | src/main/java/com/mhschmieder/fxdxfparser/entity/DxfViewport.java:109 | the view width exists exactly when the height is not 0, and keeps the viewport's aspect ratio |
| Inserts.ViewTransformAsWrittenMissesCentre | src/main/java/com/mhschmieder/fxdxfparser/entity/DxfViewport.java:113-119 | as written, the view centre lands on the viewport centre only when the factor is 1 or the centre is the scaled view centre |
| Inserts.ViewTransformAsWrittenApplies | src/main/java/com/mhschmieder/fxdxfparser/entity/DxfViewport.java:113-119 | as written, a point p lands on k·p + k·(centre − viewCentre·k) |
| Inserts.ViewTransformMapsViewCentre | src/main/java/com/mhschmieder/fxdxfparser/entity/DxfViewport.java:113-119 | the corrected transform sends the view centre to the viewport centre and scales distances by height / viewHeight |
| Inserts.DecodeViewport | src/main/java/com/mhschmieder/fxdxfparser/entity/DxfViewport.java:97-122 | a decoded viewport carries the corrected view transform, the centred bounding box and the heights of codes 41 and 45 |
| PolylineEntities.Listed | src/main/java/com/mhschmieder/fxdxfparser/entity/DxfPolyline.java:78-80 | a list that was never created reads as empty |
| PolylineEntities.Appended | src/main/java/com/mhschmieder/fxdxfparser/entity/DxfPolyline.java:94-97 | adding to a list, created on first use, gives the old elements followed by the new one |
| PolylineEntities.DecodePolyline | src/main/java/com/mhschmieder/fxdxfparser/entity/DxfPolyline.java:168-185 | the decode succeeds exactly when every lenient read succeeds; the flags and elevation are the code 70 and 10/20/30 values; all three vertex lists start null, so the polyline is consistent |
| PolylineEntities.AddVertex | src/main/java/com/mhschmieder/fxdxfparser/entity/DxfPolyline.java:90-122 | a control point goes only to the control points, a 3D vertex only to the vertex list with the count raised by one, a 2D vertex only to the poly-vertices; the width flag never goes back to false |
| PolylineEntities.AddVertexKeepsConsistent | src/main/java/com/mhschmieder/fxdxfparser/entity/DxfPolyline.java:90-122 | each vertex lands in exactly one list; lists stay null or non-empty and hold only their own kind; the count equals the 3D list length; the width flag is true exactly when some 2D vertex has a width |
| PolylineEntities.NeedClose | src/main/java/com/mhschmieder/fxdxfparser/entity/DxfPolyline.java:160-164 | closing is needed exactly when the closed flag is set and the first and last poly-vertices differ in x or y; a closed polyline without poly-vertices throws (null list or index 0) |
| PolylineEntities.Points | src/main/java/com/mhschmieder/fxdxfparser/entity/DxfPolyline.java:141 | the 3D vertex list handed to the conversion is null exactly when the vertex list is, with the same points in the same order |
| PolylineEntities.PolylineDrawing | src/main/java/com/mhschmieder/fxdxfparser/entity/DxfPolyline.java:124-146 | a degenerate polyline is not drawn; a drawn one adds at most one shape; an open non-degenerate one is drawn unless a conversion error occurs |
| PolylineEntities.AsWrittenSkips2DPolyline | src/main/java/com/mhschmieder/fxdxfparser/entity/DxfPolyline.java:152-153 | as written, an open 2D polyline with two straight vertices is never drawn; the corrected test draws it as one segment |
| PolylineEntities.PolylineDrawsStraight2D | src/main/java/com/mhschmieder/fxdxfparser/entity/DxfPolyline.java:131-145 | an open 2D polyline of at least two vertices and no bulge is drawn as one polyline through its vertices, in order |
| PolylineEntities.Closed3DPolylineThrows | src/main/java/com/mhschmieder/fxdxfparser/entity/DxfPolyline.java:160-163 | a closed 3D polyline throws a null reference, because the closing check reads the poly-vertex list, which only 2D vertices fill |
| PolylineEntities.ConvertPolylineEntity | src/main/java/com/mhschmieder/fxdxfparser/entity/DxfPolyline.java:124-146 | the container gains exactly the shapes of PolylineDrawing, or stays unchanged on failure; the result says whether the polyline was drawn |
| Polylines.CompareVertex2D | src/main/java/com/mhschmieder/fxdxftoolkit/geometry/PolylineUtilities.java:51-53 | the result is 0 exactly when x and y are equal, and 1 otherwise |
| Polylines.CompareVertex2DStricterThanEquals | src/main/java/com/mhschmieder/fxdxftoolkit/geometry/PolylineUtilities.java:51-53 | vertices it calls equal are equal within Point.equals' tolerance, but two vertices a hundred-thousandth apart are equal within that tolerance and still compare as 1 |
| Polylines.ProcessedReverse | src/main/java/com/mhschmieder/fxdxftoolkit/geometry/PolylineUtilities.java:321-324 | processing in reverse equals processing the reversed points forwards |
| Polylines.ProcessedPoints | src/main/java/com/mhschmieder/fxdxftoolkit/geometry/PolylineUtilities.java:334-345 | output point k keeps the x and y of source point k, or of the mirrored point when reversed, with z = 0 |
| Polylines.ProcessedWidths | src/main/java/com/mhschmieder/fxdxftoolkit/geometry/PolylineUtilities.java:329-346 | without width every width is 0; with width the widths run from start1 at the first point to end1 at the last, and each point starts where the previous one ended |
| Polylines.Process | src/main/java/com/mhschmieder/fxdxftoolkit/geometry/PolylineUtilities.java:314-348 | the new array holds exactly the processed points |
| Polylines.SegmentCount | src/main/java/com/mhschmieder/fxdxftoolkit/geometry/PolylineUtilities.java:238-309 | an open list of len >= 2 vertices draws len - 1 segments; a closed or single-vertex list draws len; an empty list draws none |
| Polylines.NextIndexIsRemainder | src/main/java/com/mhschmieder/fxdxftoolkit/geometry/PolylineUtilities.java:246 | (vi + 1) % len is the next vertex, wrapping to 0 after the last |
| Polylines.Segment | src/main/java/com/mhschmieder/fxdxftoolkit/geometry/PolylineUtilities.java:253-303 | a zero bulge gives the segment's two ends; a non-zero bulge gives at least two arc samples; the segment throws exactly when the bulge is non-zero but rounds to 0 as a float |
| Polylines.BulgedSegment | src/main/java/com/mhschmieder/fxdxftoolkit/geometry/PolylineUtilities.java:268-295 | a bulged segment throws exactly when its arc is null, which is when the bulge rounds to 0; otherwise it gives at least two points |
| Polylines.BulgedStrip | src/main/java/com/mhschmieder/fxdxftoolkit/geometry/PolylineUtilities.java:268-295 | the array the bulged branch builds is exactly BulgedSegment's points, and the branch throws exactly when BulgedSegment does |
| Polylines.Joined | src/main/java/com/mhschmieder/fxdxftoolkit/geometry/PolylineUtilities.java:232-303 | the list always has a slot; a failure is the exception of one of the segments drawn |
| Polylines.JoinedNext | src/main/java/com/mhschmieder/fxdxftoolkit/geometry/PolylineUtilities.java:264-266 | a segment that does not fail replaces the last slot with its points, so consecutive segments share their junction |
| Polylines.JoinedFailureSticks | src/main/java/com/mhschmieder/fxdxftoolkit/geometry/PolylineUtilities.java:269 | after a segment throws, later segments do not change the outcome |
| Polylines.JoinedKeepsPrefix | src/main/java/com/mhschmieder/fxdxftoolkit/geometry/PolylineUtilities.java:299-303 | drawing more segments never changes a point already final |
| Polylines.JoinedStraight | src/main/java/com/mhschmieder/fxdxftoolkit/geometry/PolylineUtilities.java:253-266 | with no bulges, count segments give count + 1 vertices in order, wrapping to vertex 0 after the last |
| Polylines.VertexListStraight | src/main/java/com/mhschmieder/fxdxftoolkit/geometry/PolylineUtilities.java:227-311 | with no bulges, an open list of len >= 2 gives its len points in order; a closed list gives len + 1 points, the last repeating the first; an empty list gives one null slot |
| Polylines.VertexListOneArc | src/main/java/com/mhschmieder/fxdxftoolkit/geometry/PolylineUtilities.java:268-303 | one bulged segment is replaced by the sampled arc of its bulge, reversed for a negative bulge, with at least two points |
| Polylines.VertexListTinyBulgeThrows | src/main/java/com/mhschmieder/fxdxftoolkit/geometry/PolylineUtilities.java:269 | a bulge that is not 0 but rounds to 0 as a float makes makeVertexList throw |
| Polylines.Splice | src/main/java/com/mhschmieder/fxdxftoolkit/geometry/PolylineUtilities.java:298-303 | the last slot is overwritten by the first sample and the rest follow it |
| Polylines.StripSegment | src/main/java/com/mhschmieder/fxdxftoolkit/geometry/PolylineUtilities.java:241-303 | one loop pass turns the list for vi segments into the list for vi + 1 segments, and iStrip stays at the last slot |
| Polylines.MakeVertexList | src/main/java/com/mhschmieder/fxdxftoolkit/geometry/PolylineUtilities.java:227-312 | the loop returns the join of exactly SegmentCount segments: all vertices when closed, one fewer when open |
| Polylines.PolyShapes | src/main/java/com/mhschmieder/fxdxftoolkit/geometry/PolylineUtilities.java:55-119 | at most one shape; nothing exactly when the stroke is solid and there is no vertex |
| Polylines.ConvertVertices | src/main/java/com/mhschmieder/fxdxftoolkit/geometry/PolylineUtilities.java:55-119 | the container gains exactly PolyShapes' shape: a Polygon when closed, a Polyline when open |
| Polylines.PolylineVertices | src/main/java/com/mhschmieder/fxdxftoolkit/geometry/PolylineUtilities.java:130-181 | for a 3D polyline there is one vertex per 3D vertex, and a null list throws; for a 2D polyline an empty list leaves a null slot, which throws |
| Polylines.ConvertPolyline | src/main/java/com/mhschmieder/fxdxftoolkit/geometry/PolylineUtilities.java:121-182 | when the vertices assemble, the result is true and the shape is added; otherwise the exception is passed on and the container is unchanged |
| LwPolylines.ScanAllSucceeds | src/main/java/com/mhschmieder/fxdxfparser/entity/DxfLwPolyline.java:146-180 | the vertex scan succeeds exactly when every value it reads (codes 10, 20, 30 and 42, and 40/41 when there is no constant width) parses |
| LwPolylines.ScanAllCount | src/main/java/com/mhschmieder/fxdxfparser/entity/DxfLwPolyline.java:149-152 | each code 10 adds exactly one vertex, and no other code adds one |
| LwPolylines.ScanStepXs | src/main/java/com/mhschmieder/fxdxfparser/entity/DxfLwPolyline.java:149-176 | one pair adds the x of a code 10 and leaves every stored x unchanged |
| LwPolylines.ScanAllXs | src/main/java/com/mhschmieder/fxdxfparser/entity/DxfLwPolyline.java:146-180 | the vertices' x values are the code-10 values, in order |
| LwPolylines.ScanAllConstantWidth | src/main/java/com/mhschmieder/fxdxfparser/entity/DxfLwPolyline.java:150-151 | with a constant width above 0, every vertex keeps that width at both ends; codes 40 and 41 are skipped (lines 162-173) |
| LwPolylines.ScanAllHasWidth | src/main/java/com/mhschmieder/fxdxfparser/entity/DxfLwPolyline.java:162-173 | the width flag ends true exactly when it was already true or some code 40 or 41 that is read gives a width above 0 |
| LwPolylines.PolylineVerticesOf | src/main/java/com/mhschmieder/fxdxfparser/entity/DxfLwPolyline.java:137-181 | a negative declared count throws as an illegal capacity; a list with no code 10 throws a null reference |
| LwPolylines.ParsePolylineVertices | src/main/java/com/mhschmieder/fxdxfparser/entity/DxfLwPolyline.java:137-181 | the iterator loop computes exactly PolylineVerticesOf |
| LwPolylines.DecodeLwPolyline | src/main/java/com/mhschmieder/fxdxfparser/entity/DxfLwPolyline.java:115-135 | the count is code 90 with no default; flags and constant width default to "0"; the vertices and width flag are the scan's, started from "constant width above 0" |
| LwPolylines.DecodedXs | src/main/java/com/mhschmieder/fxdxfparser/entity/DxfLwPolyline.java:117-135 | there is one vertex per code-10 pair, whatever code 90 declares, each at its code-10 x, in order |
| LwPolylines.DecodedConstantWidth | src/main/java/com/mhschmieder/fxdxfparser/entity/DxfLwPolyline.java:122-151 | with a constant width above 0, every vertex has it at both ends |
| LwPolylines.DecodedHasWidth | src/main/java/com/mhschmieder/fxdxfparser/entity/DxfLwPolyline.java:127-173 | the width flag is set exactly when the constant width is above 0 or a visited code 40/41 gives a width above 0 |
| LwPolylines.NeedClose | src/main/java/com/mhschmieder/fxdxfparser/entity/DxfLwPolyline.java:109-113 | closing is needed exactly when the polyline is closed and its first and last vertices differ in x or y; a closed polyline with no vertices throws |
| LwPolylines.LwPolylineDrawing | src/main/java/com/mhschmieder/fxdxfparser/entity/DxfLwPolyline.java:77-99 | a polyline with fewer than two vertices is not drawn; a drawn one adds at most one shape |
| LwPolylines.LwPolylineDrawsOpen | src/main/java/com/mhschmieder/fxdxfparser/entity/DxfLwPolyline.java:77-99 | an open polyline of at least two straight vertices is drawn as one Polyline through its vertices, in order |
| LwPolylines.LwPolylineDrawsClosed | src/main/java/com/mhschmieder/fxdxfparser/entity/DxfLwPolyline.java:77-113 | a closed polyline of straight vertices whose ends differ is drawn as one Polygon through its vertices and back to the first |
| LwPolylines.ConvertLwPolyline | src/main/java/com/mhschmieder/fxdxfparser/entity/DxfLwPolyline.java:77-99 | the container gains exactly LwPolylineDrawing's shapes, or stays unchanged on failure |
| Meshes.VertexAt | src/main/java/com/mhschmieder/fxdxfparser/entity/DxfPolyFaceMesh.java:115 | reading vertex i succeeds exactly when the list exists and holds index i |
| Meshes.ReadsAll | src/main/java/com/mhschmieder/fxdxfparser/entity/DxfPolyFaceMesh.java:113-120 | reading at a list of indices succeeds exactly when every index is inside an existing list, and then gives the x and y of those vertices in index order |
| Meshes.Gather | src/main/java/com/mhschmieder/fxdxfparser/entity/DxfPolygonMesh.java:78-84 | the inner loop's coordinates are exactly the x, y pairs of the vertices read, or it throws the first failure |
| Meshes.DecodePolyFaceMesh | src/main/java/com/mhschmieder/fxdxfparser/entity/DxfPolyFaceMesh.java:139-145 | the decode succeeds exactly when the polyline part and codes 71 and 72 parse; it carries their values, and the face list starts null |
| Meshes.AddFace | src/main/java/com/mhschmieder/fxdxfparser/entity/DxfPolyFaceMesh.java:63-75 | a face is appended and nothing else changes; creating the list on the first face throws exactly when the declared face count is negative |
| Meshes.CornerCount | src/main/java/com/mhschmieder/fxdxfparser/entity/DxfPolyFaceMesh.java:92-110 | a face of one to four indices draws all its corners, and never more than it has |
| Meshes.CornerPositions | src/main/java/com/mhschmieder/fxdxfparser/entity/DxfPolyFaceMesh.java:115 | corner k is read at list position iv[k] - 1, since face indices count from 1 |
| Meshes.FacePolygonCorners | src/main/java/com/mhschmieder/fxdxfparser/entity/DxfPolyFaceMesh.java:91-133 | a face of one to four indices is drawn exactly when every index lies between 1 and the vertex count, as a polygon through those vertices in order |
| Meshes.ReadCoordinates | src/main/java/com/mhschmieder/fxdxfparser/entity/DxfPolygonMesh.java:81-83 | coordinates 2k and 2k + 1 are the x and y of the k-th vertex read |
| Meshes.FaceSteps | src/main/java/com/mhschmieder/fxdxfparser/entity/DxfPolyFaceMesh.java:91-134 | there is one polygon outcome per face, in face order |
| Meshes.FaceMeshDrawingAsWritten | src/main/java/com/mhschmieder/fxdxfparser/entity/DxfPolyFaceMesh.java:85 | as written, a mesh that never received a face throws a null reference |
| Meshes.FaceMeshDrawing | src/main/java/com/mhschmieder/fxdxfparser/entity/DxfPolyFaceMesh.java:77-137 | a mesh without faces reports success and draws nothing; otherwise one polygon per face, and it succeeds exactly when every face can be drawn |
| Meshes.FaceMeshWithoutFaces | src/main/java/com/mhschmieder/fxdxfparser/entity/DxfPolyFaceMesh.java:63-87 | with no face record the conversion as written throws while the corrected one succeeds with nothing drawn; with a face list the two agree |
| Meshes.ConvertPolyFaceMesh | src/main/java/com/mhschmieder/fxdxfparser/entity/DxfPolyFaceMesh.java:77-137 | the container gains FaceMeshDrawing's polygons; a face that throws leaves the polygons of the faces before it |
| Meshes.DecodePolygonMesh | src/main/java/com/mhschmieder/fxdxfparser/entity/DxfPolygonMesh.java:150-159 | codes 71 and 72 are required and strictly parsed; 73 and 74 default to "0"; the decode succeeds exactly when every read succeeds |
| Meshes.GridIndexIs | src/main/java/com/mhschmieder/fxdxfparser/entity/DxfPolygonMesh.java:79 | vertex (m, n) is at list index N·m + n |
| Meshes.ColumnIndices | src/main/java/com/mhschmieder/fxdxfparser/entity/DxfPolygonMesh.java:78-79 | column n reads vertices (m, n) for m from 0 to M - 1 |
| Meshes.RowIndices | src/main/java/com/mhschmieder/fxdxfparser/entity/DxfPolygonMesh.java:113-114 | row m reads vertices (m, n) for n from 0 to N - 1 |
| Meshes.Columns | src/main/java/com/mhschmieder/fxdxfparser/entity/DxfPolygonMesh.java:76-109 | there are N columns, in order |
| Meshes.Rows | src/main/java/com/mhschmieder/fxdxfparser/entity/DxfPolygonMesh.java:111-145 | there are M rows, in order |
| Meshes.PolygonMeshDrawing | src/main/java/com/mhschmieder/fxdxfparser/entity/DxfPolygonMesh.java:67-148 | a successful drawing adds exactly N + M lines, counting a negative count as 0 |
| Meshes.GridIndexInRange | src/main/java/com/mhschmieder/fxdxfparser/entity/DxfPolygonMesh.java:79 | every vertex of an M x N grid lies among the first M·N entries |
| Meshes.ColumnDrawn | src/main/java/com/mhschmieder/fxdxfparser/entity/DxfPolygonMesh.java:76-109 | every column of a grid the list holds is drawn |
| Meshes.RowDrawn | src/main/java/com/mhschmieder/fxdxfparser/entity/DxfPolygonMesh.java:111-145 | every row of a grid the list holds is drawn |
| Meshes.PolygonMeshDrawsAll | src/main/java/com/mhschmieder/fxdxfparser/entity/DxfPolygonMesh.java:67-148 | when the counts are not negative and the list holds the grid, the whole mesh is drawn |
| Meshes.PolygonMeshShortListThrows | src/main/java/com/mhschmieder/fxdxfparser/entity/DxfPolygonMesh.java:79 | a list shorter than M·N makes the drawing throw |
| Meshes.LastColumnFails | src/main/java/com/mhschmieder/fxdxfparser/entity/DxfPolygonMesh.java:79 | the last column throws on vertex (M - 1, N - 1) when the list is short |
| Meshes.PolygonMeshNegativeCountThrows | src/main/java/com/mhschmieder/fxdxfparser/entity/DxfPolygonMesh.java:77-112 | a negative count throws an illegal capacity when the other family's first line creates its coordinate list |
| Meshes.GridLinePoints | src/main/java/com/mhschmieder/fxdxfparser/entity/DxfPolygonMesh.java:78-108 | a drawn grid line runs through the vertices at its indices, in order |
| Meshes.PolygonMeshLines | src/main/java/com/mhschmieder/fxdxfparser/entity/DxfPolygonMesh.java:76-145 | drawn line n is column n, and drawn line N + m is row m |
| Meshes.AddGridLine | src/main/java/com/mhschmieder/fxdxfparser/entity/DxfPolygonMesh.java:77-108 | one pass adds exactly its line, or nothing when it throws |
| Meshes.AddColumns | src/main/java/com/mhschmieder/fxdxfparser/entity/DxfPolygonMesh.java:76-109 | the container gains the columns up to the first that throws, and the result says whether all were drawn |
| Meshes.AddRows | src/main/java/com/mhschmieder/fxdxfparser/entity/DxfPolygonMesh.java:111-145 | the container gains the rows up to the first that throws, and the result says whether all were drawn |
| Meshes.ColumnsThrow | src/main/java/com/mhschmieder/fxdxfparser/entity/DxfPolygonMesh.java:76-109 | a column that throws ends the drawing with its failure, after the columns before it |
| Meshes.RowsAfterColumns | src/main/java/com/mhschmieder/fxdxfparser/entity/DxfPolygonMesh.java:111-147 | after all columns, the drawing is the columns followed by the rows; a row that throws keeps the lines before it |
| Meshes.ConvertPolygonMesh | src/main/java/com/mhschmieder/fxdxfparser/entity/DxfPolygonMesh.java:67-148 | the container gains the grid lines, columns first, up to the first that throws; the result matches PolygonMeshDrawing |
| Conversion.ResolveLineType | src/main/java/com/mhschmieder/fxdxfparser/entity/DxfEntity.java:173-187 | the lookup throws exactly when the line type comes from the block and the entity has no parent; a line type from the layer or the entity is always found, falling back to CONTINUOUS |
| Conversion.StyleFor | src/main/java/com/mhschmieder/fxdxftoolkit/geometry/PolylineUtilities.java:130-133 | the style carries the resolved colour, the given transform and stroke scale, and the global line-type scale times the entity's own; its only failure is a null reference |
| Conversion.LeafEffect | src/main/java/com/mhschmieder/fxdxfparser/entity/DxfLine.java:72-98 | lines, rays, construction lines, arcs, circles, ellipses and 3D faces return true and add exactly one shape; a polyline that throws adds nothing |
| Conversion.Then | src/main/java/com/mhschmieder/fxdxfparser/loader/DxfBlock.java:134-140 | the block's result stays true only if every child returned true; an exception wins |
| Conversion.EntityRun | src/main/java/com/mhschmieder/fxdxfparser/entity/DxfEntity.java:86-91 | points, vertices, face records and solids return false and add nothing; an entity on a switched-off layer returns false and adds nothing; only block references and dimensions change the blocks' pens |
| Conversion.InsertFrame | src/main/java/com/mhschmieder/fxdxfparser/entity/DxfInsert.java:93-102 | the block is drawn with the reference's block transform appended to the current one, and with the stroke scales multiplied |
| Conversion.InsertPlan | src/main/java/com/mhschmieder/fxdxfparser/entity/DxfInsert.java:83-103 | a reference that stops adds nothing and does not return true; a reference that goes on draws a block that exists |
| Conversion.FoundInsertPlan | src/main/java/com/mhschmieder/fxdxfparser/entity/DxfInsert.java:93-103 | once its block is found, a reference either throws, adding nothing, or draws that very block |
| Conversion.DimensionPlan | src/main/java/com/mhschmieder/fxdxfparser/entity/DxfDimension.java:76-78 | a dimension either throws, adding nothing, or draws an existing block in the same transform and stroke scale |
| Conversion.PlanRun | src/main/java/com/mhschmieder/fxdxfparser/entity/DxfInsert.java:103-105 | a reference that draws its block returns true unless the block threw, and with no depth left it cannot finish |
| Conversion.BlockRun | src/main/java/com/mhschmieder/fxdxfparser/loader/DxfBlock.java:121-143 | an empty block returns true and adds nothing; the number of pens never changes |
| Conversion.ChildrenRunStep | src/main/java/com/mhschmieder/fxdxfparser/loader/DxfBlock.java:130-138 | each child draws with the pens the one before it left; a child that throws ends the loop; one that returns false is counted |
| Conversion.InsertHandsPenToChildren | src/main/java/com/mhschmieder/fxdxfparser/entity/DxfInsert.java:96-99 | a ByBlock child of the referenced block draws in the reference's colour and line type, and no other block's pen changes |
| Conversion.DimensionColoursArrowHeads | src/main/java/com/mhschmieder/fxdxfparser/entity/DxfDimension.java:76-77 | every child of the dimension's arrow-head block draws in the dimension's colour, and no other block's pen changes |
| Conversion.ChildrenRunAppend | src/main/java/com/mhschmieder/fxdxfparser/loader/DxfBlock.java:130-138 | the loop over two lists is the loop over the first, then over the second from the pens the first left, unless the first throws |
| Conversion.SelfReferenceOverflows | src/main/java/com/mhschmieder/fxdxfparser/entity/DxfInsert.java:88-103 | a block whose first entity is a visible reference to that same block never finishes: the stack overflows at any depth |
| Conversion.EntityRunOfReference | src/main/java/com/mhschmieder/fxdxfparser/entity/DxfInsert.java:79-103 | a visible block reference runs its plan |
| Conversion.BlockRunHeadFails | src/main/java/com/mhschmieder/fxdxfparser/loader/DxfBlock.java:130-133 | a block whose first entity throws ends with the same exception |
| Conversion.EntityRunMoreFuel | src/main/java/com/mhschmieder/fxdxfparser/entity/DxfInsert.java:103 | a drawing that does not overflow the stack gives the same result, pens and shapes with more depth |
| Conversion.BlockRunMoreFuel | src/main/java/com/mhschmieder/fxdxfparser/loader/DxfBlock.java:121-143 | a block drawing that does not overflow the stack is unchanged by more depth |
| Conversion.ConvertLeaf | src/main/java/com/mhschmieder/fxdxfparser/entity/DxfLine.java:72-98 | the leaf's conversion returns LeafEffect's result and adds exactly its shapes |
| Conversion.ConvertEntity | src/main/java/com/mhschmieder/fxdxfparser/loader/DxfBlock.java:131-133 | converting one entity returns EntityRun's result, leaves EntityRun's pens and adds exactly its shapes |
| Conversion.ConvertInsert | src/main/java/com/mhschmieder/fxdxfparser/entity/DxfInsert.java:74-106 | a block reference's conversion matches PlanRun of its InsertPlan in result, pens and shapes |
| Conversion.ConvertFoundInsert | src/main/java/com/mhschmieder/fxdxfparser/entity/DxfInsert.java:93-105 | once the block is found, the reference sets its line type, then its colour, and draws it, as in FoundInsertPlan |
| Conversion.ConvertDimension | src/main/java/com/mhschmieder/fxdxfparser/entity/DxfDimension.java:68-81 | a dimension's conversion matches PlanRun of its DimensionPlan |
| Conversion.DrawPlanned | src/main/java/com/mhschmieder/fxdxfparser/entity/DxfInsert.java:103-105 | drawing the planned block one level deeper matches PlanRun |
| Conversion.ConvertBlock | src/main/java/com/mhschmieder/fxdxfparser/loader/DxfBlock.java:121-143 | the block loop returns BlockRun's result, leaves its pens and adds exactly its shapes |
| Conversion.ConvertModelSpace | src/main/java/com/mhschmieder/fxdxfparser/reader/DxfLoader.java:72-77 | the model-space block is drawn with the identity transform and stroke scale 1, and the document stays valid |
| Parser.Decide | src/main/java/com/mhschmieder/fxdxfparser/reader/DxfParser.java:164-402 | an unsupported type builds nothing; a supported one throws exactly when its constructor throws (the paper-space rejection is caught and counts as building nothing); a VERTEX record goes to its owner and any other entity is placed, neither with a parent yet |
| Parser.CountedAsReadIffFiled | src/main/java/com/mhschmieder/fxdxfparser/reader/DxfParser.java:404-485 | a structure is counted as read exactly when an entity was built for it and filed in a block, and the context it is counted in names that block |
| Parser.ConstructedCommon | src/main/java/com/mhschmieder/fxdxfparser/reader/DxfParser.java:191-397 | a built record's shared properties are the ones the shared-property reader gives for its type |
| Parser.PlacedEntitiesAreFiled | src/main/java/com/mhschmieder/fxdxfparser/reader/DxfParser.java:453-472 | while paper space is ignored, an ENTITIES-section entity is never left unfiled, so the "paper space ignored" count at lines 465-471 is never reached; every placed entity goes to paper space or model space by its flag |
| Parser.Placed | src/main/java/com/mhschmieder/fxdxfparser/reader/DxfParser.java:436-484 | filing a registered entity keeps every slot the filing refers to in range |
| Parser.Attached | src/main/java/com/mhschmieder/fxdxfparser/reader/DxfParser.java:349-379 | handing a record to its owner keeps every slot in range |
| Parser.FiledInto | src/main/java/com/mhschmieder/fxdxfparser/reader/DxfParser.java:191-485 | filing the outcome of the constructor switch keeps every slot in range |
| Parser.BlockStarted | src/main/java/com/mhschmieder/fxdxfparser/reader/DxfParser.java:110-119 | starting a block keeps every slot in range |
| Parser.NextValue | src/main/java/com/mhschmieder/fxdxfparser/reader/DxfParser.java:506-507 | the next value exists exactly when a pair is left, and it is that pair's value whatever its code |
| Parser.HeaderStep | src/main/java/com/mhschmieder/fxdxfparser/reader/DxfParser.java:492-540 | each turn moves forward within the list; a pair whose code is not 9 changes nothing |
| Parser.HeaderStepPrefix | src/main/java/com/mhschmieder/fxdxfparser/reader/DxfParser.java:492-540 | a turn that stays inside a list takes the same turn when more pairs follow |
| Parser.HeaderStepShift | src/main/java/com/mhschmieder/fxdxfparser/reader/DxfParser.java:492-540 | a turn past a prefix is the turn on what was appended, shifted by the prefix length |
| Parser.HeaderFromShift | src/main/java/com/mhschmieder/fxdxfparser/reader/DxfParser.java:491-541 | iterating a longer list past a prefix is iterating what was appended |
| Parser.HeaderFromAppend | src/main/java/com/mhschmieder/fxdxfparser/reader/DxfParser.java:488-542 | reading a longer list repeats the settings of the earlier pairs and then applies the new ones |
| Parser.ParseSteps | src/main/java/com/mhschmieder/fxdxfparser/reader/DxfParser.java:579 | each code-49 value is parsed with Double.parseDouble, in order |
| Parser.PatternOfShape | src/main/java/com/mhschmieder/fxdxfparser/reader/DxfParser.java:570-582 | the pattern has one entry per declared dash: the parsed code-49 values while there is room, then 0; it fails exactly when a value with room fails to parse; values past the count are neither stored nor parsed |
| Parser.PatternPrefixFails | src/main/java/com/mhschmieder/fxdxfparser/reader/DxfParser.java:579 | the first value that has room and does not parse aborts the pattern with its exception |
| Parser.PatternPrefixDone | src/main/java/com/mhschmieder/fxdxfparser/reader/DxfParser.java:570-582 | parsed values that fill the array, or use up every value, make the pattern, padded with zeros |
| Parser.AsWrittenPatternNeverEnds | src/main/java/com/mhschmieder/fxdxfparser/reader/DxfParser.java:576-581 | as written, an LTYPE record with more code-49 values than dashes never leaves the loop: the iterator always has a value left, and after count turns nothing changes |
| Parser.AsWrittenPatternEnds | src/main/java/com/mhschmieder/fxdxfparser/reader/DxfParser.java:576-581 | as written, with no more values than dashes the loop ends after handing out every value |
| Parser.LayerOf | src/main/java/com/mhschmieder/fxdxfparser/reader/DxfParser.java:551-557 | a LAYER record succeeds exactly when its flags (default "0") and its colour are integers and it has a name and a line type; it is filed under its upper-cased name and is off exactly when its colour is negative; bad flags throw NumberFormatException |
| Parser.PatternArgument | src/main/java/com/mhschmieder/fxdxfparser/reader/DxfParser.java:570-572 | there is no pattern array unless at least one dash is declared, and then it has one entry per dash |
| Parser.LineTypeOf | src/main/java/com/mhschmieder/fxdxfparser/reader/DxfParser.java:560-590 | an LTYPE record is filed under its upper-cased name, with its description (default empty) and dash count (default 0); it has a pattern exactly when the count is positive, of that length; a record with no name fails |
| Parser.DxfParser.CurrentFiling | src/main/java/com/mhschmieder/fxdxfparser/reader/DxfParser.java:73-89 | a valid parser's filing refers only to slots that exist |
| Parser.DxfParser.constructor | src/main/java/com/mhschmieder/fxdxfparser/reader/DxfParser.java:91-100 | a new parser has a fresh document with only the model-space and paper-space blocks, no entity, layer, line type or arrow block, no table and no block started |
| Parser.DxfParser.MarkBlockCompleted | src/main/java/com/mhschmieder/fxdxfparser/reader/DxfParser.java:106-108 | only the "reading a block" flag changes, and it becomes false |
| Parser.DxfParser.MarkBlockStarted | src/main/java/com/mhschmieder/fxdxfparser/reader/DxfParser.java:110-119 | a block is being read from now on; the model-space or paper-space name, in any spelling, changes nothing else; any other name appends the decoded block with a new pen, files it under its upper-cased name and makes it the open block |
| Parser.DxfParser.MarkTableStarted | src/main/java/com/mhschmieder/fxdxfparser/reader/DxfParser.java:121-161 | the table whose records follow is recorded |
| Parser.DxfParser.CountIn | src/main/java/com/mhschmieder/fxdxfparser/reader/DxfParser.java:404-485 | when statistics are logged, the structure is counted in the given context |
| Parser.DxfParser.AttachToOwner | src/main/java/com/mhschmieder/fxdxfparser/reader/DxfParser.java:349-379 | the record takes the next entity slot and is registered under its handle; with no owner nothing else changes; otherwise the owner must be a container (else the cast throws) and gains the record |
| Parser.DxfParser.Register | src/main/java/com/mhschmieder/fxdxfparser/reader/DxfParser.java:436-484 | the entity takes the next slot and is registered under its handle; filed in a block, it joins the end of the block's list, takes the block as parent and becomes the last entity added; a missing open block throws |
| Parser.DxfParser.File | src/main/java/com/mhschmieder/fxdxfparser/reader/DxfParser.java:191-485 | an exception changes nothing; an unsupported type or nothing built changes no entity or block; a record goes to its owner; an entity is registered and filed; the structure is then counted; the new filing is FiledInto's |
| Parser.DxfParser.FileRecord | src/main/java/com/mhschmieder/fxdxfparser/reader/DxfParser.java:349-379 | a vertex or face record is handed to its owner as Attached states, and counted |
| Parser.DxfParser.FileEntity | src/main/java/com/mhschmieder/fxdxfparser/reader/DxfParser.java:436-484 | an entity is registered and filed as Placed states, and counted |
| Parser.DxfParser.ParseEntity | src/main/java/com/mhschmieder/fxdxfparser/reader/DxfParser.java:163-485 | the document and statistics change exactly as the filing of the constructor switch's outcome says |
| Parser.DxfParser.SetHeaderVariable | src/main/java/com/mhschmieder/fxdxfparser/reader/DxfParser.java:498-540 | one header variable sets the document as one HeaderStep turn says, or throws its exception |
| Parser.DxfParser.SetArrow | src/main/java/com/mhschmieder/fxdxfparser/reader/DxfParser.java:500-511 | a non-blank value after $DIMBLK, $DIMBLK1 or $DIMBLK2 is added to the arrow blocks, as HeaderStep says |
| Parser.DxfParser.SetUnitOrScale | src/main/java/com/mhschmieder/fxdxfparser/reader/DxfParser.java:512-523 | $INSUNITS sets the unit from a strict integer; $LTSCALE sets the global line-type scale, as HeaderStep says |
| Parser.DxfParser.SetLimit | src/main/java/com/mhschmieder/fxdxfparser/reader/DxfParser.java:524-537 | $LIMMIN and $LIMMAX set a corner from the next two values, as HeaderStep says |
| Parser.DxfParser.ParseHeaderVariables | src/main/java/com/mhschmieder/fxdxfparser/reader/DxfParser.java:487-542 | the header settings become the ones the iteration over the pairs gives, or the first exception aborts the load |
| Parser.DxfParser.ReadPattern | src/main/java/com/mhschmieder/fxdxfparser/reader/DxfParser.java:570-582 | the corrected pattern loop computes exactly PatternOf of the code-49 values |
| Parser.DxfParser.FillPattern | src/main/java/com/mhschmieder/fxdxfparser/reader/DxfParser.java:575-581 | the loop stores parsed values from the start until the array is full or the values run out, and leaves the rest 0 |
| Parser.DxfParser.ParseLayer | src/main/java/com/mhschmieder/fxdxfparser/reader/DxfParser.java:551-557 | the record's layer is filed under its name, or the load is aborted and no layer changes |
| Parser.DxfParser.ParseLineType | src/main/java/com/mhschmieder/fxdxfparser/reader/DxfParser.java:560-590 | the record's line type is filed under its name, or the load is aborted and no line type changes |
| Parser.DxfParser.ParseTable | src/main/java/com/mhschmieder/fxdxfparser/reader/DxfParser.java:544-601 | a LAYER or LTYPE record is added to the document; records of every other table are passed over |
| Parser.DxfParser.Read | src/main/java/com/mhschmieder/fxdxfparser/reader/DxfParser.java:603-605 | the arrow blocks named in the header take the arrow overrides |
| Reader.NextPair | src/main/java/com/mhschmieder/fxdxfparser/reader/DxfReader.java:258-290 | every successful read moves the reader forward and leaves nothing pushed back |
| Reader.EncodeAt | src/main/java/com/mhschmieder/fxdxfparser/reader/DxfReader.java:265-272 | pair k is written as its code on line 2k and its value on line 2k + 1 |
| Reader.TrimIntToString | src/main/java/com/mhschmieder/fxdxfparser/reader/DxfReader.java:268 | a written code line is not changed by trimming |
| Reader.ReadPairOfLexed | src/main/java/com/mhschmieder/fxdxfparser/reader/DxfReader.java:265-272 | a code line holding the pair's code, followed by a line holding its value, is read as that pair, moving two lines on |
| Reader.ReadPairOfEncoded | src/main/java/com/mhschmieder/fxdxfparser/reader/DxfReader.java:258-290 | reading a written pair gives that pair back and moves past its two lines |
| Reader.LexOfWritten | src/main/java/com/mhschmieder/fxdxfparser/reader/DxfReader.java:268-271 | the two lines a writable pair is written as lex back to its code and its value |
| Reader.WrittenLines | src/main/java/com/mhschmieder/fxdxfparser/reader/DxfReader.java:268-271 | a written code line parses back to the code, and a written value line trims back to the value |
| Reader.ReadPairOfPushed | src/main/java/com/mhschmieder/fxdxfparser/reader/DxfReader.java:254-263 | a pushed-back pair is the next one read, and reading it leaves the reader where it was before the push |
| Reader.ReadPairCases | src/main/java/com/mhschmieder/fxdxfparser/reader/DxfReader.java:258-290 | a fresh read takes exactly the next two lines and adds 2 to the line counter; a code that is not an integer fails, naming the counter after that line; running out of lines fails as the end of input |
| Reader.LineOfTrims | src/main/java/com/mhschmieder/fxdxfparser/reader/DxfReader.java:268-271 | the value read is the trimmed line; a code line is a code exactly when its trimmed text parses as a 32-bit integer |
| Reader.StructureFrom | src/main/java/com/mhschmieder/fxdxfparser/reader/DxfReader.java:151-188 | the loop moves the reader forward and always ends with a code-0 pair pushed back |
| Reader.Structure | src/main/java/com/mhschmieder/fxdxfparser/reader/DxfReader.java:151-188 | parseStructure consumes at least one pair |
| Reader.StructureKeepsPositive | src/main/java/com/mhschmieder/fxdxfparser/reader/DxfReader.java:172-175 | the container only grows, and only by pairs with a positive code: negative codes, control strings and code-0 pairs never reach it |
| Reader.StructureStep | src/main/java/com/mhschmieder/fxdxfparser/reader/DxfReader.java:158-185 | a non-zero code is stored when positive; the first named code 0 read before any other code names the structure; any later code 0 is pushed back and ends it |
| Reader.BodyOfLines | src/main/java/com/mhschmieder/fxdxfparser/reader/DxfReader.java:158-185 | a structure's body, up to the code-0 pair that ends it, goes into the container without its negative codes, and that code-0 pair is pushed back |
| Reader.StructureOfLines | src/main/java/com/mhschmieder/fxdxfparser/reader/DxfReader.java:151-188 | a named code-0 pair followed by non-zero codes up to the next code 0 is read as a structure of that name holding the positive-code pairs |
| Reader.StructureOfEncoded | src/main/java/com/mhschmieder/fxdxfparser/reader/DxfReader.java:151-188 | a structure written as lines is read back as its name and its positive-code pairs, and the next code-0 pair is pushed back |
| Reader.SkipUntil | src/main/java/com/mhschmieder/fxdxfparser/reader/DxfReader.java:63-70 | eatUntil moves the reader forward |
| Reader.SkipUntilOfLines | src/main/java/com/mhschmieder/fxdxfparser/reader/DxfReader.java:63-70 | eatUntil stops right after the first pair with the code and, ignoring case, the value |
| Reader.SkipUntilOfEncoded | src/main/java/com/mhschmieder/fxdxfparser/reader/DxfReader.java:63-70 | the same holds on written pairs |
| Reader.SectionEnd | src/main/java/com/mhschmieder/fxdxfparser/reader/DxfReader.java:127-138 | reading structures up to ENDSEC moves the reader forward |
| Reader.HeaderSection | src/main/java/com/mhschmieder/fxdxfparser/reader/DxfReader.java:123-139 | the HEADER section moves the reader forward |
| Reader.StructureFromAnyPairs | src/main/java/com/mhschmieder/fxdxfparser/reader/DxfReader.java:151-188 | what the container held before changes neither the name returned, nor where the reader stops, nor whether it fails |
| Reader.HeaderSectionEnd | src/main/java/com/mhschmieder/fxdxfparser/reader/DxfReader.java:127-132 | the HEADER section ends at the first structure named ENDSEC as written (no upper-casing) |
| Reader.TablesSection | src/main/java/com/mhschmieder/fxdxfparser/reader/DxfReader.java:229-252 | the TABLES section moves the reader forward |
| Reader.TablesSectionEnd | src/main/java/com/mhschmieder/fxdxfparser/reader/DxfReader.java:233-239 | the TABLES section ends at the first structure named ENDSEC in any case |
| Reader.BlocksStep | src/main/java/com/mhschmieder/fxdxfparser/reader/DxfReader.java:79-96 | a BLOCKS-section structure keeps every slot of the filing in range |
| Reader.BlocksSection | src/main/java/com/mhschmieder/fxdxfparser/reader/DxfReader.java:73-99 | the BLOCKS section keeps every slot in range and moves the reader forward |
| Reader.EntitiesSection | src/main/java/com/mhschmieder/fxdxfparser/reader/DxfReader.java:102-120 | the ENTITIES section keeps every slot in range and moves the reader forward |
| Reader.SectionInto | src/main/java/com/mhschmieder/fxdxfparser/reader/DxfReader.java:320-344 | reading or skipping a section keeps every slot in range and moves the reader forward |
| Reader.DxfReader.LoadedOf | src/main/java/com/mhschmieder/fxdxfparser/reader/DxfReader.java:40-48 | what a valid reader's parser holds refers only to slots that exist |
| Reader.DxfReader.constructor | src/main/java/com/mhschmieder/fxdxfparser/reader/DxfReader.java:55-61 | a new reader is at the first line, with the line counter at 1 and nothing pushed back; control strings are kept |
| Reader.DxfReader.ReadPair | src/main/java/com/mhschmieder/fxdxfparser/reader/DxfReader.java:258-290 | the pair read and the new position are NextPair's, or its failure |
| Reader.DxfReader.PushPair | src/main/java/com/mhschmieder/fxdxfparser/reader/DxfReader.java:254-256 | the pair becomes the next one read, and nothing else moves |
| Reader.DxfReader.ParseStructure | src/main/java/com/mhschmieder/fxdxfparser/reader/DxfReader.java:151-188 | the loop returns Structure's name, leaves its pairs in the container and its position in the reader, or fails with its failure |
| Reader.DxfReader.EatUntil | src/main/java/com/mhschmieder/fxdxfparser/reader/DxfReader.java:63-70 | the loop leaves the reader where SkipUntil says, or fails with its failure |
| Reader.DxfReader.ParseHeaderSection | src/main/java/com/mhschmieder/fxdxfparser/reader/DxfReader.java:123-139 | the header settings and position become HeaderSection's; the container is never cleared |
| Reader.DxfReader.ParseTablesSection | src/main/java/com/mhschmieder/fxdxfparser/reader/DxfReader.java:229-252 | the table being read, the layer and line-type tables, and the position become TablesSection's |
| Reader.DxfReader.HandEntity | src/main/java/com/mhschmieder/fxdxfparser/reader/DxfReader.java:94-95 | handing a structure to parseEntity leaves the filing FiledInto gives |
| Reader.DxfReader.StartBlock | src/main/java/com/mhschmieder/fxdxfparser/reader/DxfReader.java:84-88 | starting a block leaves the filing BlockStarted gives |
| Reader.DxfReader.BlocksStructure | src/main/java/com/mhschmieder/fxdxfparser/reader/DxfReader.java:80-97 | the switch on a BLOCKS-section structure leaves the filing BlocksStep gives |
| Reader.DxfReader.ParseBlocksSection | src/main/java/com/mhschmieder/fxdxfparser/reader/DxfReader.java:73-99 | the filing and position become BlocksSection's |
| Reader.DxfReader.ParseEntitiesSection | src/main/java/com/mhschmieder/fxdxfparser/reader/DxfReader.java:102-120 | the filing and position become EntitiesSection's |
| Reader.DxfReader.ReadHeader | src/main/java/com/mhschmieder/fxdxfparser/reader/DxfReader.java:322-324 | the HEADER case of runReader loads what SectionInto gives for HEADER |
| Reader.DxfReader.ReadTables | src/main/java/com/mhschmieder/fxdxfparser/reader/DxfReader.java:328-330 | the TABLES case loads what SectionInto gives for TABLES |
| Reader.DxfReader.ReadBlocks | src/main/java/com/mhschmieder/fxdxfparser/reader/DxfReader.java:331-333 | the BLOCKS case loads what SectionInto gives for BLOCKS |
| Reader.DxfReader.ReadEntities | src/main/java/com/mhschmieder/fxdxfparser/reader/DxfReader.java:334-336 | the ENTITIES case loads what SectionInto gives for ENTITIES |
| Reader.DxfReader.ParseSection | src/main/java/com/mhschmieder/fxdxfparser/reader/DxfReader.java:320-344 | the switch on a code-2 value loads what SectionInto gives: the four sections are read, and any other is skipped to (0, ENDSEC) |
| Reader.DxfReader.RunReader | src/main/java/com/mhschmieder/fxdxfparser/reader/DxfReader.java:298-354 | the run loads what RunInto gives up to (0, EOF), finished by read(), or fails with the first exception |

## Left out

- Text.ParseInt: accepts only the ASCII digits '0' to '9'. Integer.parseInt reads digits through Character.digit and so also accepts other Unicode decimal digits. A code line such as "١٠" (Arabic-Indic one, zero) is code 10 in Java but aborts the model's load as a non-integer code. Entities.StrictInteger, which uses Text.ParseInt, has the same restriction.
- Text.Upper: folds only ASCII a-z, where `toUpperCase(Locale.ENGLISH)` folds all of Unicode. Text.EqualsIgnoreCase likewise compares after ASCII folding only.
- Doubles and FastMath: Java doubles are modelled as exact `real`. FastMath cos, sin, atan, atan2, hypot, toDegrees and toRadians are unconstrained function parameters, so no claim depends on their values or on rounding.
- Number parsing: Double.parseDouble and the NumberUtilities parsers are unconstrained partial-function parameters. NumberUtilities is not part of this model, so its grammar and its treatment of null are not captured.
- Inserts.InsertStrokeScale: an INSERT whose two scale factors sum to 0 gives None. Conversion.ConvertInsert then stops with `Fail(NonFiniteStrokeScale)`. Java computes an infinite stroke scale and keeps drawing; the model does not capture non-finite doubles.
- Inserts.ViewWidth and Inserts.ViewTransform: they give None on a zero divisor, where Java produces Infinity or NaN.
- Conversion.BlockRun: the recursion of block references takes a depth bound (fuel) that Conversion.ConvertModelSpace receives as a parameter. Running out of it gives `Fail(StackOverflow)`. The bound stands in for the Java stack, whose depth is not modelled. Only a block that draws itself overflows at every depth (Conversion.SelfReferenceOverflows). Conversion.EntityRunMoreFuel shows that a run that finishes gives the same result with more depth.
- Kinds.DecodeKind: SOLID and TRACE are built with their shared properties only and draw nothing. DxfSolid is not part of this model.
- Meshes.PolygonMeshDrawing: Meshes.Columns, Meshes.Rows and Meshes.GridIndexIs compute `2 * M`, `2 * N` and `N * m + n` as unbounded integers, where DxfPolygonMesh uses 32-bit int arithmetic that wraps. With M = 2^30 + 1, Java's `new ArrayList<>(2 * M)` gets a negative capacity and throws IllegalArgumentException. The model reads vertex 0 and then fails on an index outside the list. Both abort the load, but with different failures. For counts whose products fit in 32 bits the two agree.
- Statistics counters: the counters of DxfStatus are unbounded integers; 32-bit overflow of the Java int counters is not modelled.
- JavaFX shapes: the shape objects (Line, Arc, Circle, Ellipse, Polyline, Polygon), Color and the colour table are abstract records. The model keeps each shape's geometry, transforms, colour index, dash array and stroke scale.
- JavaFX transforms: Affine, Rotate, Scale and Translate objects are modelled as 2x3 matrices composed by Shapes.Append, with real arithmetic.
- Inserts.DecodeDimension: a DIMENSION without an AcDbDimension sub-range gives `Fail(MissingSubclass("AcDbDimension"))`, where Java throws a NullPointerException. Both abort the load.
- Exceptions: the Java exception classes are collapsed into one failure datatype. Catching them and printing their stack traces (DxfLoader, DxfParser) is not modelled.
- Reader.Lex: the Java reader trims and parses each line lazily from a BufferedReader. The model lexes the whole line list up front with the same values. An IOException while reading is not modelled.
- The markTableCompleted handler of DxfParser is an empty method and has no member.
- getBlockNames and getLayerNames of DxfDocument (src/main/java/com/mhschmieder/fxdxfparser/structure/DxfDocument.java:210-225 and 270-284) are not modelled. They copy key sets for display, and no modelled path calls them.
- DxfLoader (both packages) is a thin driver and is not part of this model. It catches every exception and OutOfMemoryError, clears the block after conversion, and hands the container to JavaFX. Conversion.ConvertModelSpace models the conversion call it makes.
- DxfShapeContainer's bounds and stroke-width property binding are not modelled. Shapes.ShapeContainer keeps only the append-only list of shapes and the stroke scale each was added with.
- getBulge, getX and getY of PolylineUtilities (src/main/java/com/mhschmieder/fxdxftoolkit/geometry/PolylineUtilities.java:184-225) are not modelled. They are accessors over Object that return 0 for any other class. The model's vertex lists are typed, so no such object can occur.
- Polylines.MakeVertexList: the `continue` on a null list element is not modelled, because the model's vertex lists hold no nulls.
- Polylines.MakeVertexList: the Vectorization modes SCALE_GRADS and VERTEX are not modelled. The polyline conversion always selects GRADS with a 5-degree step.
- The setters of Point, Vertex and PolyVertex have no members of their own. These records are immutable datatypes here, so a setter is a datatype update, which changes only its own field by construction.

## Findings

| source | as written | input that shows it | evidently intended | confidence | as-written member | corrected member |
|---|---|---|---|---|---|---|
| src/main/java/com/mhschmieder/fxdxfparser/entity/DxfPolyline.java:152-153 | isDegenerate tests only the 3D vertex list, but 2D vertices go to the poly-vertex list, so a 2D POLYLINE is never drawn | an open 2D POLYLINE with two VERTEX records of bulge 0: its 3D list stays null, so nothing is drawn | test the list that is drawn: the poly-vertex list for a 2D polyline, the vertex list for a 3D one | not executed | PolylineEntities.PolylineDrawingAsWritten, PolylineEntities.AsWrittenSkips2DPolyline | PolylineEntities.PolylineDrawing, PolylineEntities.PolylineDrawsStraight2D (used by PolylineEntities.ConvertPolylineEntity and Conversion.EarlyResult) |
| src/main/java/com/mhschmieder/fxdxfparser/entity/DxfPolyFaceMesh.java:85 | the face list is created only when the first face record is added (lines 63-75), so `_faces.isEmpty()` throws a NullPointerException for a mesh with no faces | a POLYLINE with flag 64 followed directly by SEQEND | a mesh without faces draws nothing and returns true, as the empty-list branch does | not executed | Meshes.FaceMeshDrawingAsWritten | Meshes.FaceMeshDrawing, Meshes.FaceMeshWithoutFaces (used by Meshes.ConvertPolyFaceMesh and Conversion.EarlyResult) |
| src/main/java/com/mhschmieder/fxdxfparser/reader/DxfParser.java:576-581 | once the dash array is full, the loop neither reads another value nor stops, so it spins while code-49 values remain | an LTYPE record with code 73 = 1 and two code-49 values | stop after the number of dashes code 73 announces | not executed | Parser.AsWrittenPatternNeverEnds | Parser.DxfParser.ReadPattern, Parser.PatternOfShape |
| src/main/java/com/mhschmieder/fxdxfparser/entity/DxfViewport.java:113-119 | the translation centre - viewCentre * factor is appended to the scaling, so it is applied before the scaling and the view centre misses the viewport centre | a view of height 1 centred at (1, 0) in a viewport of height 2 centred at the origin: the view centre lands on (-2, 0) | scale, then translate, so the view centre lands on the viewport centre | not executed | Inserts.ViewTransformAsWritten, Inserts.ViewTransformAsWrittenMissesCentre | Inserts.ViewTransform, Inserts.ViewTransformMapsViewCentre (used by Inserts.DecodeViewport; the parser never builds a VIEWPORT, see DxfParser.java:380-388) |
