# Haze Weather Radio: a verified model

A Dafny model of six parts of the Haze Weather Radio repository, and proofs of what they are for.

* **CAP delivery** (`CapBridge.dfy`, `CapPublisher.dfy`). A publisher journals an alert, publishes
  it on the event bridge, waits for the router's acknowledgement and deletes the journal. Publishers
  of one id run side by side, the process may crash at every step, and a restart replays what is left.
* **Location catalogue** (`Longitude.dfy`, `Shoelace.dfy`, `Centroid.dfy`, `Wkb.dfy`,
  `WkbLoader.dfy`, `Catalog.dfy`, `CatalogTables.dfy`, `CatalogLoader.dfy`, `Publication.dfy`).
  Representative points of areas across the antimeridian, well-known binary as it is written and as
  the loader reads it, the tables and their derived indexes, and publication as file operations that
  may stop anywhere.
* **Receiver audio** (`Pcm.dfy`, `RawPacer.dfy`, `Handoff.dfy`, `ProcessorPump.dfy`). The two jitter
  buffers, the bounded queue between reader and writer, the WAV splitter and the pacing clocks.
* **CGEN editor** (`CgenMerge.dfy`, `CgenProtocol.dfy`). The merge of server state with unsaved
  pipelines, and refresh and save against a server that compares revisions.
* **Public player** (`Reconnect.dfy`). Reconnect timers, player replacement and the backoff of a feed.
* **Geocode crosswalk** (`Nearest.dfy`, `Crosswalk.dfy`, `Ranking.dfy`). Nearest neighbours by tree
  and by loop, table loading, key uniqueness, and the choice of candidates.

Code that changes state is modelled by classes and loops. Each method's contract ties the new state
to a specification function, and the lemmas prove what that function guarantees over every input,
every run and every interleaving. What the environment decides (queue arrivals, clocks, crashes,
network answers) is an input, so "every run" ranges over all of it.

## Findings

Properties that do not hold as one would wish are stated with an input that shows it, and with the
condition under which they do.

* Journal files are named after the delivery id without its `cap-` prefix, so the ids `cap-x` and `x`
  share a file and one alert can be lost. No alert is lost exactly when the paths are distinct, which
  ids made by the ingest always are (`LosingRunLoses`, `NoAlertLostIff`, `CapAlertsAreNotLost`).
* Of two publishers of one delivered alert, the second returns an error (`SecondPublisherFails`). An
  acknowledged publisher returns Ok exactly when its file was not deleted since it was last
  committed, and only another publisher of that file deletes it (`AcknowledgedReturnsOkIff`,
  `AnotherPublisherDeleted`).
* The guard on distinct destinations leaves out the staging names: an output called like another's
  staging file is moved away (`BuildPublishesIff`, `DistinctDestinationsCanLoseTheCore`).
* The loader cannot load anything between the first and the fourth rename
  (`LoadableExactlyOutsideTheRenames`); a later build that runs to its end repairs that
  (`RecoveryLoads`).
* A build may finish with a source of which no entity was taken and no row counted, or with a hole of
  three points. For a record missing, for a ring too short or a polygon without rings, and for no
  source at all the loader refuses its packs, and among the checks modelled for nothing else
  (`ShortHoleIsRefused`, `FinishedPackLoadsIff`). A name without a locale is stored again each time
  its record comes (`NamesAddedAgainIff`).
* An edge of exactly half a turn has a direction: written otherwise or walked backwards, a ring with
  one can have another centroid (`HalfTurnEdgeIsAmbiguous`, `HalfTurnEdgeHasADirection`). The writing
  of a ring never matters to its unwrapped form exactly if it has no such edge
  (`UnwrapsModuloTurnsIff`); walking it backwards reverses that form exactly if the first vertex of
  every such edge is written on the side the edge comes from (`UnwrapReversesIff`,
  `EastwardReverses`), and then its centroid stays (`RingCentroidReversed`). Without such edges,
  and without a hole or part exactly half a turn away, neither matters to the representative point
  (`GeometryCentroidOutlined`).
* The WAV header is found independently of read sizes up to 4097 bytes, one more than the 4096 the
  fallback compares with (`SplitDependsOnReads`, `SplitIsIndependentIff`). A short stream without a
  header is never written.
* A CGEN revision is a hash of the files. When another writer restores an old state, its revision is
  valid again and a save can overwrite a pipeline the user never touched
  (`ReusedRevisionOverwrites`). Exactly when the revision of a version is current again after a
  version with other pipelines, some save based on it can do so (`OverwrittenIff`). A
  pipeline typed into an empty list is not marked as edited and can be dropped
  (`TypingIsRecordedIff`, `UnrecordedEditIsLost`).
* Deleting a feed's backoff does not reset the delay of a live player, which remembers its own count
  (`PreferencesResetIff`).
* A county's first zone is missing from its zone list (`FirstZoneIsMissing`,
  `CountyZonesAreLaterRows`), and the check for an empty zone code never applies, since codes are
  padded first (`SkippedIff`).

## Model

| member | source | states |
|---|---|---|
| `CapBridge.JournalPathCollision` | crates/haze-cap/src/bridge.rs:208-211 | exactly which pairs of delivery ids are given the same journal file |
| `CapBridge.ListedIff` | crates/haze-cap/src/bridge.rs:178-192 | the ids whose journal file a replay finds: a name that is not empty and not below another directory |
| `CapBridge.DeliveryIdIdentifiesDocument` | crates/haze-cap/src/bridge.rs:36-67 | two alerts get one delivery id if and only if they are the same document from the same source |
| `CapBridge.ApplyKeepsInv` | crates/haze-cap/src/bridge.rs:123-175 | every step of a publisher, the reader, a crash or a replay keeps the journal, disk, wake-up and acknowledgement invariants |
| `CapBridge.RunKeepsInv` | crates/haze-cap/src/bridge.rs:123-319 | the invariants hold after every interleaving |
| `CapBridge.NoLostWakeup` | crates/haze-cap/src/bridge.rs:142-175 | a publisher in its wait loop is registered under its id, or its channel is already resolved or closed, although others of the same id may drop the registrations |
| `CapBridge.AcknowledgementReachesAllWaiters` | crates/haze-cap/src/bridge.rs:291-317 | a line that says committed, duplicate or no status resolves every publisher that waits for its id as committed, any other status as refused, and a line that is no acknowledgement changes nothing |
| `CapBridge.OkMeansAcknowledged` | crates/haze-cap/src/bridge.rs:155-166 | a publisher returns Ok, or goes on to delete its file, only if the router sent, while it waited, an acknowledgement of its id that says committed, duplicate or no status |
| `CapBridge.AcknowledgedIff` | crates/haze-cap/src/bridge.rs:284-317 | over every run, an id counts as acknowledged if and only if some line said so: the event type, the id, and the status committed, duplicate or none |
| `CapBridge.VerdictIsFollowed` | crates/haze-cap/src/bridge.rs:155-174 | a publisher in its select goes on to delete its file after such a line, to start over after another status, and waits on otherwise |
| `CapBridge.WithoutABridge` | crates/haze-cap/src/bridge.rs:124-134 | a run without a bridge address journals nothing, and a call is an error if and only if its event has no id |
| `CapBridge.AlertIsJournaled` | crates/haze-cap/src/bridge.rs:136-140 | after any run with a free lock, an alert whose I/O succeeds is on disk within five steps, as given; a file that is there is left as it is |
| `CapBridge.AlertIsDelivered` | crates/haze-cap/src/bridge.rs:136-166 | two steps later it waits, and when the router then commits its id the publisher returns Ok, with its journal file gone and every other one in place |
| `CapBridge.RefusedWaitsAgain` | crates/haze-cap/src/bridge.rs:142-175 | after a refusal the publisher is back in its select, waiting, in four steps |
| `CapBridge.TimerSendsAgain` | crates/haze-cap/src/bridge.rs:151-171 | the timer sends the event again |
| `CapBridge.JournalIsReplayable` | crates/haze-cap/src/bridge.rs:178-206 | every journal file on disk is complete, parses, and leads back to its own path |
| `CapBridge.ReplayDelivers` | crates/haze-cap/src/bridge.rs:193-206 | a replay returns Ok only after each file it found had been acknowledged |
| `CapBridge.ReplayCoversTheDirectory` | crates/haze-cap/src/bridge.rs:184-206 | over every run, the files of a replay are exactly the journal files that were in the directory at its scan |
| `CapBridge.ReplayCanEmptyTheJournal` | crates/haze-cap/src/bridge.rs:178-206 | after a crash at any point of any run there is a way on in which the replay delivers all of them, in whatever order, and leaves none |
| `CapBridge.SecondPublisherFails` | crates/haze-cap/src/bridge.rs:158-163 | a concrete run of two publishers of one alert: both are acknowledged, the first deletes the journal and returns Ok, the second returns an error |
| `CapBridge.AcknowledgedReturnsOkIff` | crates/haze-cap/src/bridge.rs:155-166 | after every run, a publisher that was acknowledged returns Ok if and only if its removal works and nobody deleted its file since it was last committed |
| `CapBridge.AnotherPublisherDeleted` | crates/haze-cap/src/bridge.rs:155-166 | and who deleted it was another publisher of the same file, acknowledged and returning Ok while this one was past its journal |
| `CapBridge.NothingLost` | crates/haze-cap/src/bridge.rs:123-175 | no run over ids with distinct journal paths loses an accepted alert |
| `CapBridge.LosingRunLoses` | crates/haze-cap/src/bridge.rs:208-211 | a concrete run that loses an alert when two ids share a path |
| `CapBridge.NoAlertLostIff` | crates/haze-cap/src/bridge.rs:123-211 | no run loses an accepted alert if and only if no two ids share a journal path |
| `CapBridge.CapAlertsAreNotLost` | crates/haze-cap/src/bridge.rs:53-54 | ids built by `cap_alert` never share a path, so their alerts are never lost |
| `CapPublisher.EventPublisher.LockJournal` | crates/haze-cap/src/bridge.rs:137-139 | the journal lock has one holder |
| `CapPublisher.EventPublisher.CheckJournal` | crates/haze-cap/src/bridge.rs:264-266 | an existing journal file ends the call with success, without looking at its content |
| `CapPublisher.EventPublisher.CommitJournal` | crates/haze-cap/src/bridge.rs:273-275 | the written temporary file becomes the journal file and the lock is released |
| `CapPublisher.EventPublisher.RegisterChannel` | crates/haze-cap/src/bridge.rs:142-150 | a new channel is appended to those of the id |
| `CapPublisher.EventPublisher.SendToAll` | crates/haze-cap/src/bridge.rs:313-315 | the loop over the waiters resolves exactly the publishers whose current channel is among them |
| `CapPublisher.EventPublisher.StartOver` | crates/haze-cap/src/bridge.rs:173 | the retry drops every registration of the id, other publishers' included |
| `CapPublisher.EventPublisher.ReadLine` | crates/haze-cap/src/bridge.rs:284-317 | one line from the router: ignored, or the verdict sent to all waiters of its id |
| `CapPublisher.EventPublisher.ReplayNextFile` | crates/haze-cap/src/bridge.rs:193-206 | the replay publishes file after file and stops at the first failure |
| `CapPublisher.EventPublisher.RunAll` | crates/haze-cap/src/bridge.rs:82-319 | the imperative steps in any order reach the state the proofs are about |
| `Longitude.AlignLongitude` | scripts/util/build_location_catalog.py:289-294 | the two loops end, at the longitude's own meridian, at most half a turn from the reference |
| `Longitude.AlignIsNear` | scripts/util/build_location_catalog.py:289-294 | aligning keeps the meridian and gets within half a turn |
| `Longitude.NearIsUnique` | scripts/util/build_location_catalog.py:289-294 | less than half a turn from a reference there is one longitude of a meridian |
| `Longitude.NormalizeIsCanonical` | scripts/util/build_location_catalog.py:244-248 | normalizing keeps the meridian and lands in [-180, 180] |
| `Longitude.NormalizeModuloTurns` | scripts/util/build_location_catalog.py:244-248 | two longitudes have one normal form, up to the two names of the antimeridian, if and only if they are whole turns apart |
| `Shoelace.Totals` | scripts/util/build_location_catalog.py:271-279 | the loop computes the three shoelace sums |
| `Shoelace.ClosedTranslation` | scripts/util/build_location_catalog.py:271-279 | translating a closed chain keeps its area sum and moves both first moments by it |
| `Shoelace.TotalReversed` | scripts/util/build_location_catalog.py:271-279 | walking a chain backwards negates every sum |
| `Centroid.UnwrapRing` | scripts/util/build_location_catalog.py:251-265 | the loops unwrap and close a ring as the specification says |
| `Centroid.ComputeRingCentroid` | scripts/util/build_location_catalog.py:268-287 | centroid and area of a ring, or None below four points or without area |
| `Centroid.ComputePolygonCentroid` | scripts/util/build_location_catalog.py:297-318 | holes aligned to the exterior and subtracted, with every error case |
| `Centroid.ComputeGeometryCentroid` | scripts/util/build_location_catalog.py:321-341 | parts aligned to the first and averaged by area, normalized and range-checked |
| `Centroid.TriangleCentroid` | scripts/util/build_location_catalog.py:268-287 | a triangle with edges shorter than half a turn has the mean of its corners and half the parallelogram's area, or no centroid if that is next to nothing |
| `Centroid.RectangleCentroid` | scripts/util/build_location_catalog.py:268-287 | a rectangle has its middle, and width times height |
| `Centroid.ShortRingIsUnwrapped` | scripts/util/build_location_catalog.py:251-265 | a closed ring whose edges are shorter than half a turn is unwrapped as it is |
| `Centroid.ExteriorAlone` | scripts/util/build_location_catalog.py:297-318 | a polygon without holes has centroid and area of its exterior |
| `Centroid.HoleIsTakenAway` | scripts/util/build_location_catalog.py:307-318 | one hole more: area and moments of what is left and of the hole, beside the exterior, add up to those before; nothing is left exactly if no area remains, and a hole without area changes nothing |
| `Centroid.PartAlone` | scripts/util/build_location_catalog.py:321-336 | a multipolygon of one part has that part's centroid; of none there is none |
| `Centroid.PartIsAdded` | scripts/util/build_location_catalog.py:326-335 | one part more: area and moments of the parts before and of the new one, beside the first, add up to the whole; the first part without a centroid decides the error |
| `Centroid.PointIsNormalized` | scripts/util/build_location_catalog.py:338-341 | the representative point is the centroid with its longitude in [-180, 180], and fails only if there is no centroid or its latitude is out of range |
| `Centroid.UnwrapIsTheChain` | scripts/util/build_location_catalog.py:251-265 | a chain from the ring's first vertex is the unwrapped ring if and only if each of its vertices is the ring's, aligned to the one before |
| `Centroid.UnwrapIsUnique` | scripts/util/build_location_catalog.py:251-265 | the unwrapped ring is the only chain over its meridians whose steps are shorter than half a turn |
| `Centroid.RingCentroidMoves` | scripts/util/build_location_catalog.py:268-287 | translating any ring translates its centroid and keeps its area |
| `Centroid.RingCentroidReversed` | scripts/util/build_location_catalog.py:268-287 | if every edge goes back the way it came, reversing a ring keeps its area, and its centroid up to the whole turns by which the last vertex is written elsewhere than unwrapping takes it |
| `Centroid.UnwrapReversesIff` | scripts/util/build_location_catalog.py:251-265 | unwrapping the reversed ring gives the reversed chain, from its new start, if and only if the first vertex of every half-turn edge is written on the side the edge comes from |
| `Centroid.EastwardReverses` | scripts/util/build_location_catalog.py:258-261 | a ring with an edge of half a turn that meets this condition, and has the same centroid backwards |
| `Centroid.ClosedRingReversed` | scripts/util/build_location_catalog.py:268-287 | reversing a closed ring whose edges go back and that does not go round the globe changes neither centroid nor area |
| `Centroid.HalfTurnEdgeHasADirection` | scripts/util/build_location_catalog.py:258-261 | a closed ring with an edge of half a turn that has another centroid and another area backwards |
| `Centroid.UnwrapModuloTurns` | scripts/util/build_location_catalog.py:251-265 | two writings of a ring that differ by whole turns unwrap to the same chain, up to the writing of the first vertex |
| `Centroid.UnwrapsModuloTurnsIff` | scripts/util/build_location_catalog.py:251-265 | every writing of a ring unwraps to one chain, up to the writing of the first vertex, if and only if no edge spans exactly half a turn |
| `Centroid.RingCentroidModuloTurns` | scripts/util/build_location_catalog.py:268-287 | a ring's centroid depends on longitudes only modulo 360 |
| `Centroid.PolygonTranslates` | scripts/util/build_location_catalog.py:297-318 | polygons with holes inherit translation |
| `Centroid.RawCentroidTranslates` | scripts/util/build_location_catalog.py:321-341 | every geometry, multipolygons included, inherits translation before normalization |
| `Centroid.PolygonCentroidModuloTurns` | scripts/util/build_location_catalog.py:297-318 | a polygon's centroid depends on longitudes only modulo 360, holes included |
| `Centroid.GeometryCentroidModuloTurns` | scripts/util/build_location_catalog.py:321-341 | the representative point is the same for every way of writing the longitudes, with no edge, hole or part offset of exactly 180 degrees |
| `Centroid.PolygonCentroidOutlined` | scripts/util/build_location_catalog.py:297-318 | nor does it depend on the direction of exterior or holes, up to whole turns of the polygon |
| `Centroid.GeometryCentroidOutlined` | scripts/util/build_location_catalog.py:321-341 | the representative point is the same whichever way each ring is walked and its longitudes are written, up to the two names of the antimeridian, with no edge, hole or part offset of exactly 180 degrees |
| `Centroid.GeometryCentroidReversed` | scripts/util/build_location_catalog.py:321-341 | walking closed rings backwards whose edges go back and that do not go round the globe changes nothing, half-turn offsets of holes and parts included |
| `Centroid.HalfTurnEdgeIsAmbiguous` | scripts/util/build_location_catalog.py:258-261 | with an edge of exactly 180 degrees, writing 180 as -180 changes the centroid |
| `Wkb.RoundTrip` | scripts/util/build_location_catalog.py:344-363 | a decoder after clause 8 of OGC 06-103r4 recovers type, nesting and coordinates of every encoded geometry, rings closed, whatever bytes follow |
| `Wkb.BytesIdentifyGeometry` | scripts/util/build_location_catalog.py:610-669 | encoded bytes are equal if and only if the geometries are equal to the encoder, so the deduplication key is sound |
| `Wkb.EncodesIff` | scripts/util/build_location_catalog.py:351-363 | a geometry is encodable if and only if it is of a supported type and all its counts fit 32 bits |
| `Wkb.DecodedReencodes` | scripts/util/build_location_catalog.py:344-363 | what decodes to a geometry with closed rings is the encoding of that geometry |
| `Wkb.PointIsWritten` | scripts/util/build_location_catalog.py:354-355 | a point is the little-endian mark, type 1, longitude and latitude, each lowest byte first |
| `Wkb.AreasAreMarked` | scripts/util/build_location_catalog.py:356-362 | areas carry the same mark and type 3 or 6 |
| `Wkb.LowestByteFirst` | scripts/util/build_location_catalog.py:348 | byte i of a number is its i-th base-256 digit |
| `Wkb.RingIsClosedOnce` | scripts/util/build_location_catalog.py:345-347 | a ring whose ends differ as numbers gets its first position once more; any other is left alone |
| `WkbLoader.LoadsWhatWasEncodedIff` | crates/haze-location/src/geometry.rs:69-163 | the loader reads an encoded geometry as what was encoded if every polygon has a ring, every closed ring has four positions and all of them are inside WGS84; otherwise it refuses it |
| `WkbLoader.InsideIff` | crates/haze-location/src/geometry.rs:150-163 | a bit pattern is taken as an ordinate if and only if it is finite and its value is within 180, or 90, degrees |
| `WkbLoader.LoadedIsMarked` | crates/haze-location/src/geometry.rs:78-115 | what the loader takes is marked 0 or 1, and the lowest byte of its type word, in that byte order, is 1, 3 or 6 as the geometry it gives |
| `WkbLoader.FlagsAreIgnored` | crates/haze-location/src/geometry.rs:84-85 | the other three bytes of the type word make no difference |
| `WkbLoader.EitherByteOrder` | crates/haze-location/src/geometry.rs:78-84 | a number with its highest byte first is the one whose bytes are these backwards |
| `Catalog.BoundingBox` | scripts/util/build_location_catalog.py:232-241 | a box exists if and only if there are coordinates and all are inside WGS84, and it is the smallest one |
| `Catalog.BoxIsExact` | scripts/util/build_location_catalog.py:232-241 | the bounds as numbers: every position is between the sides of the box, and on each side there is one |
| `Catalog.Catalog.InsertEntity` | scripts/util/build_location_catalog.py:504-539 | a record that comes again is merged under the key it has |
| `Catalog.Catalog.InsertIdentifiers` | scripts/util/build_location_catalog.py:541-555 | blank and repeated identifiers are dropped, the rest inserted in order |
| `Catalog.Catalog.InsertNames` | scripts/util/build_location_catalog.py:556-580 | each name that is new to the call and to the unique constraint goes into the table and both text indexes |
| `Catalog.Catalog.InsertRecordGeometry` | scripts/util/build_location_catalog.py:581-694 | sanitized, boxed and encoded; in a split build areas go to the geometry file and their centroid to the core; what fails leaves what was inserted |
| `Catalog.Catalog.InsertArea` | scripts/util/build_location_catalog.py:731-795 | a new area gets the next key and one R-tree row |
| `Catalog.Catalog.AddEntityRecord` | scripts/util/build_location_catalog.py:483-696 | the whole call: new store and error |
| `Catalog.Catalog.InsertDeployment` | scripts/util/build_location_catalog.py:1688-1716 | a buoy position goes into geometries and R-tree under one key |
| `Catalog.Catalog.RunAdapters` | scripts/util/build_location_catalog.py:1910-1942 | the calls of the adapters one by one, rows they count themselves among them, up to the first that fails |
| `Catalog.Catalog.AddHistoryRow` | scripts/util/build_location_catalog.py:1719-1778 | one row of the deployment history: an entity if it is new, its deployment if it has a position, and a count in any case |
| `Catalog.Catalog.AddPopulation` | scripts/util/build_location_catalog.py:1343-1403 | the loop over the population rows: each that finds its division counts, and none adds an entity |
| `Catalog.Catalog.FinishBuild` | scripts/util/build_location_catalog.py:798-858 | the loop over the expected counts and the checks, in their order |
| `Catalog.AddEntityKeeps` | scripts/util/build_location_catalog.py:483-696 | whether a record is taken or fails half way, indexes and tables agree |
| `Catalog.AddDeploymentKeeps` | scripts/util/build_location_catalog.py:1759-1777 | direct inserts keep geometries and R-tree in step |
| `Catalog.IndexesAgree` | scripts/util/build_location_catalog.py:541-795 | after every sequence of calls, failed ones included: text rows match names one for one, R-tree keys and boxes match geometries in both files, every area's entity exists and its box is ordered and inside WGS84 |
| `Catalog.FinishFailsOnlyForMissingRecords` | scripts/util/build_location_catalog.py:798-906 | `finish` succeeds if and only if every source has its expected records; its index, R-tree and orphan checks cannot fail |
| `CatalogTables.EntitiesSumUpRecords` | scripts/util/build_location_catalog.py:504-539 | after every sequence of calls: an entity for exactly the ids records were given for: the best quality of them, active if any is, else as the last one says, valid from the first start given to the last end given |
| `CatalogTables.TextsAreTheGivenOnes` | scripts/util/build_location_catalog.py:541-580 | the names and identifiers in the tables are those records gave that are not blank when normalized, each under its record's entity, identifiers once |
| `CatalogTables.GeometriesAreTheGivenOnes` | scripts/util/build_location_catalog.py:581-694 | the geometries of the core are those that calls asked for, and each of these is there |
| `CatalogTables.OnlyDeploymentsRepeat` | scripts/util/build_location_catalog.py:614-694 | a geometry of the core that repeats an earlier one, in entity, kind, bytes, source and times, is one that a deployment asked for |
| `CatalogTables.DeploymentHasItsRow` | scripts/util/build_location_catalog.py:1754-1777 | a deployment of an entity that is there has a row of its own if and only if its position is inside WGS84, whether or not it repeats one |
| `CatalogTables.AreasAreTheAskedOnes` | scripts/util/build_location_catalog.py:731-795 | in a split build the areas of the geometry file, boxes included, are those that calls asked for, and each of these is there |
| `CatalogTables.GeometryIsSnapped` | scripts/util/build_location_catalog.py:176-202 | sanitizing snaps every coordinate next to a bound and changes nothing else |
| `CatalogTables.PointsAreVertices` | scripts/util/build_location_catalog.py:232-233 | the points a box is drawn around are exactly the vertices |
| `CatalogTables.BlobHoldsGeometry` | scripts/util/build_location_catalog.py:344-363 | a stored blob decodes to the geometry of its row: every vertex, longitude first, rings closed |
| `CatalogTables.RecordIsTakenIff` | scripts/util/build_location_catalog.py:483-696 | after every sequence of calls a record is taken if and only if its source is registered and its geometry has positions, all in WGS84, and can be written, as must the representative point of an area in a split build |
| `CatalogTables.HistoryRowIs` | scripts/util/build_location_catalog.py:1719-1778 | a deployment row gives a record exactly if there is no entity of its id, a deployment of the entity that has the id if it has a position, and one count |
| `CatalogTables.PopulationRowsCount` | scripts/util/build_location_catalog.py:1343-1403 | as many counts as there are population rows whose DGUID an entity has |
| `CatalogLoader.AreasAreTheGivenOnes` | scripts/util/build_location_catalog.py:731-795 | the area table holds the areas that were given, each once: every row comes from a call, every given area is a row, no two rows repeat each other |
| `CatalogLoader.StoredAreasDiffer` | scripts/util/build_location_catalog.py:749-766 | two stored areas of one entity, source and time decode to different geometries: comparing bytes drops repetitions only |
| `CatalogLoader.CountsAreRecords` | scripts/util/build_location_catalog.py:481-696 | a source is counted if and only if it is registered, and counts exactly the entities of it that were taken since then and the rows its adapter counted; above zero if and only if there is one |
| `CatalogLoader.CountedRowIsRecord` | scripts/util/build_location_catalog.py:1778 | a row counted for a registered source is a record of it, entity or not |
| `CatalogLoader.FinishedPackLoadsIff` | crates/haze-location/src/catalog.rs:570-839 | the loader takes the packs of a finished build if and only if a source was registered, every registered source has an entity or a counted row, and no area that was given has a ring of fewer than four positions or a polygon without rings |
| `CatalogLoader.ExpectedRecordsSuffice` | scripts/util/build_location_catalog.py:798-802 | with at least one record expected of every source, entities or counted rows, only such rings are left to refuse a finished build for |
| `CatalogLoader.ShortHoleIsRefused` | scripts/util/build_location_catalog.py:307-311 | a build with a three-point hole, which has no centroid: it finishes with a record for its source, and the loader refuses it |
| `Catalog.NamesAddedAgainIff` | scripts/util/build_location_catalog.py:556-580 | a record added again adds no names if and only if all its names have a locale |
| `Publication.Build` | scripts/util/build_location_catalog.py:1883-2000 | starts if and only if output, geometry output and manifest output, as far as given, and the checksums of the packs are pairwise distinct paths; then performs the operations of its branch as far as the process gets, and completes every output if it gets to the end over clear staging names |
| `Publication.PublishedIsComplete` | scripts/util/build_location_catalog.py:1957-2000 | that every target holds its content means, written out: the packs at their paths, their checksums beside them, and the manifest with both digests, as far as asked for |
| `Publication.StopsAtPrefix` | scripts/util/build_location_catalog.py:1957-2000 | wherever the process stops, the disk is what a prefix of its operations left, but for the file of a write it stopped in, which holds anything |
| `Publication.PublishesIff` | scripts/util/build_location_catalog.py:1990-2000 | a sequence of renames publishes everything if and only if no staging name is the destination of an earlier rename |
| `Publication.NoClobberIff` | scripts/util/build_location_catalog.py:1883-1892 | for the files of a build that is four inequalities between output names |
| `Publication.BuildPublishesIff` | scripts/util/build_location_catalog.py:1883-2000 | a build whose paths are distinct and that is not interrupted leaves every output in place if and only if those inequalities hold |
| `Publication.DistinctDestinationsCanLoseTheCore` | scripts/util/build_location_catalog.py:1890-1892 | outputs that pass the guard on distinct destinations, after whose uninterrupted build the core is not at its path but at that of the geometry pack |
| `Publication.CommitsAtManifest` | scripts/util/build_location_catalog.py:1846-2000 | on the disk a build leaves wherever it stops: the new manifest is at its path, unless torn there, only if every member and checksum is at its own with the digest it records, the geometry bound to that core |
| `Publication.CrashIsOldOrNew` | scripts/util/build_location_catalog.py:1971-2000 | at every crash point each path holds what it held, a new content, or a later file under its staging name |
| `Publication.LoaderNeverMixes` | crates/haze-location/src/catalog.rs:400-545 | on any disk, after any sequence of builds that each crashed anywhere, also in the middle of a file, the loader finds nothing, what it found at first, both packs of one build, or a build's core with an old geometry pack bound to exactly that core; a torn staging file can be read only under its own name and if it matches a checksum that was there without its pack |
| `Publication.CrashesNeverMix` | crates/haze-location/src/catalog.rs:400-545 | from a disk that loads, or has neither pack nor a checksum a torn staging file could match, the case of an old geometry pack does not arise |
| `Publication.RecoveryLoads` | scripts/util/build_location_catalog.py:1957-2000 | however crashes left the disk, a build with distinct paths that then runs to its end makes it load that build |
| `Publication.LoadableExactlyOutsideTheRenames` | crates/haze-location/src/catalog.rs:725-747 | between the first and the fourth rename the loader finds nothing to load; before and after it does |
| `Pcm.Parsed` | hazeReceiver.py:2644-2668 | the clamps give a configuration every writer can use, and change none that is one already |
| `Pcm.SizesAreSound` | hazeReceiver.py:1314-1331 | for every configuration, at the rate of each writer, sample divides frame, target and limit, frame <= target, target + frame <= limit |
| `Pcm.SizesAreEqualIff` | hazeReceiver.py:1813-1831 | the two writers get the same sizes, although one rounds bytes and the other samples, if and only if their rates give the same numbers of samples |
| `Pcm.WritersGetTheirDurations` | hazeReceiver.py:1314-1331 | of every parsed configuration, frame, target and limit of each writer are the durations asked for, at its own rate and in whole samples, the target at least a frame and the limit a frame more |
| `Pcm.OptionsAreClamped` | hazeReceiver.py:2644-2666 | every option is the nearest allowed value to the one given: what each bound is, and that values within it stay |
| `Pcm.SampleIsDecoded` | hazeReceiver.py:235-240 | a sample is the number its two bytes stand for, low byte first and in two's complement |
| `Pcm.ActiveIff` | hazeReceiver.py:1424 | audio is active if and only if one of its complete samples is louder than 96 either way |
| `Pcm.Peak` | hazeReceiver.py:235-240 | the largest magnitude among the complete samples |
| `RawPacer.Writer.TakeChunks` | hazeReceiver.py:1377-1391 | the queue is emptied into the buffer in order |
| `RawPacer.Writer.TrimBuffer` | hazeReceiver.py:1394-1415 | both trims, in their order |
| `RawPacer.Writer.PlayRound` | hazeReceiver.py:1376-1489 | one pass through the loop |
| `RawPacer.Writer.Play` | hazeReceiver.py:1376-1492 | the loop, for every finite sequence of inputs |
| `RawPacer.TrimKeepsTheNewest` | hazeReceiver.py:1394-1415 | trimming keeps a suffix, leaves a primed buffer within its limit alone, and ends within one sample of the target |
| `RawPacer.RunConservesAudio` | hazeReceiver.py:1376-1457 | over every run: bytes dequeued are bytes played, dropped and buffered, in order; what left is whole samples, frames are whole frames, the buffer is within its limit |
| `RawPacer.SilenceNeverFollowsActiveAudio` | hazeReceiver.py:1421-1442 | over every run silence is never written right after a frame above the quiet level |
| `RawPacer.NoCatchUpBurst` | hazeReceiver.py:1458-1490 | any two writes are apart at least by the frames strictly between them |
| `RawPacer.JitterIsAbsorbed` | hazeReceiver.py:1417-1424 | a primed writer plays as many frames as buffer and target hold without a gap, whatever arrives |
| `RawPacer.FilledBufferIsPlayed` | hazeReceiver.py:1376-1490 | over every run, what each round takes, drops and writes: a primed buffer, or one that reaches the target, plays its next frame, any other silence, and when the next round is due |
| `Handoff.ParsedIsUsable` | hazeReceiver.py:2644-2648 | every parsed configuration suits the hand-off |
| `Handoff.Coroutines.PushAudioChunk` | hazeReceiver.py:1979-1989 | the loop over a full queue: refuses, or drops the oldest until one fits |
| `Handoff.Coroutines.ReceiveFrames` | hazeReceiver.py:1797-1811 | frames are fitted to whole samples, joined, and pushed without dropping |
| `Handoff.Coroutines.DeliverFrame` | hazeReceiver.py:1876-1944 | overflow, priming and the three kinds of write |
| `Handoff.Coroutines.RunSchedule` | hazeReceiver.py:1777-1977 | reader and writer under every schedule |
| `Handoff.Coroutines.FinishDrain` | hazeReceiver.py:1946-1976 | after the drain of a frame: the session ends if the encoder refused it, took it too slowly, or the clock is behind by the longest lag; else the next tick, never in a hurry |
| `Handoff.WritesKeepPace` | hazeReceiver.py:1832-1976 | over every schedule, any two writes are apart at least by the frames strictly between them, and every write but the last was taken before a frame and the longest lag had passed |
| `Handoff.PushKeepsNewest` | hazeReceiver.py:1979-1989 | the queue refuses exactly when it is full and nothing may be dropped; otherwise it keeps the newest chunks in order |
| `Handoff.FilledBufferIsPlayed` | hazeReceiver.py:1845-1944 | over every schedule, what each round of the writer does: a buffer at its threshold or primed plays its next frame as it is, a nearly full one is padded, one below plays nothing, and when the session ends instead |
| `Handoff.ReceivedIsQueued` | hazeReceiver.py:1797-1810 | what is received is queued as one chunk, frames in order, unless the queue is full, which ends the reader |
| `Handoff.FrameIsFitted` | hazeReceiver.py:1798-1802 | a frame gives exactly the samples it says: those of its plane, then zeros |
| `Handoff.DrainedFrameGoesOn` | hazeReceiver.py:1945-1976 | after a write the session goes on if and only if the encoder took it, in time, and the clock is not behind by the longest lag; when the next frame is due, and which end it is otherwise |
| `Handoff.IntervalsLast` | hazeReceiver.py:1813-1832 | of a parsed configuration, intervals are frames and the limits the ones asked for |
| `Handoff.NothingIsDroppedOrReordered` | hazeReceiver.py:1777-1977 | over every schedule: bytes accepted are bytes written without padding, then buffer, then queue; writes are whole frames of whole samples |
| `Handoff.PrimingComesBeforeOverflow` | hazeReceiver.py:1882-1885 | the threshold for playing on lies between a frame and the target, a frame below the overflow limit |
| `Handoff.ConcealmentIsBounded` | hazeReceiver.py:1887-1944 | while the loop runs, concealment in active audio since the last complete frame is below the limit |
| `Handoff.StarvedRunsEnd` | hazeReceiver.py:1892-1944 | a starved active run has fewer writes than the limit has milliseconds |
| `ProcessorPump.FirstTag` | hazeReceiver.py:2103 | the first position of the data tag |
| `ProcessorPump.Processor.WriteAudioPayload` | hazeReceiver.py:2044-2071 | the loop writes paced pieces until the data or the session ends |
| `ProcessorPump.Processor.FeedChunk` | hazeReceiver.py:2101-2129 | header detection, the fallback after 4096 bytes, and pass-through |
| `ProcessorPump.Processor.PumpAll` | hazeReceiver.py:2073-2131 | the loop, for every sequence of reads |
| `ProcessorPump.PumpIsTransparent` | hazeReceiver.py:2044-2129 | bytes written and the header held back are the bytes read; every paced write is one piece at most |
| `ProcessorPump.PumpDecides` | hazeReceiver.py:2101-2126 | the split depends on the reads alone, and nothing is written before it |
| `ProcessorPump.SplitPoint` | hazeReceiver.py:2101-2126 | where the header ends for every way of reading the stream |
| `ProcessorPump.SplitDependsOnReads` | hazeReceiver.py:2101-2126 | two ways of reading one stream that are split differently |
| `ProcessorPump.SplitIsIndependentIff` | hazeReceiver.py:2101-2126 | the split is the same for every chunking if and only if there is no complete header, or it ends within 4097 bytes, or more than one read beyond 4096 |
| `ProcessorPump.ShortStreamIsNeverWritten` | hazeReceiver.py:2116-2117 | a stream of at most 4096 bytes without a complete header is never written |
| `ProcessorPump.WritesAre` | hazeReceiver.py:2099-2129 | over every run: the header, which ends with the four bytes after the first data tag, is written first and in one piece if and only if the reads show its end in time; the rest is audio, and nothing comes before |
| `ProcessorPump.PiecesAreFull` | hazeReceiver.py:2044-2071 | a read after the decision is written in full pieces and a last one with what is left |
| `ProcessorPump.StallsEndTheSession` | hazeReceiver.py:2023-2071 | a session goes on exactly as long as the pipe takes every write in time and the clock stays within the longest lag |
| `ProcessorPump.PiecesLast` | hazeReceiver.py:1991-2007 | of a parsed configuration, a piece is a frame of audio at the output rate and the longest lag the one asked for |
| `ProcessorPump.NoCatchUpBurst` | hazeReceiver.py:2044-2071 | the audio strictly between two paced writes never exceeds the time between them |
| `CgenMerge.BuildMaps` | bundle/webroot/js/cgen.js:1329-1332 | the two lookup maps, the last entry of a key winning |
| `CgenMerge.WalkLatest` | bundle/webroot/js/cgen.js:1333-1347 | the loop over the server's list, updating shared local objects in place |
| `CgenMerge.MergeLatest` | bundle/webroot/js/cgen.js:1328-1351 | the whole merge |
| `CgenMerge.MergeKeepsIdsUnique` | bundle/webroot/js/cgen.js:1328-1351 | ids stay unique, even when the server repeats one |
| `CgenMerge.DirtyFeedsSurvive` | bundle/webroot/js/cgen.js:1328-1351 | every dirty local feed is in the result exactly once with all its settings |
| `CgenMerge.RenamedIdsStayAway` | bundle/webroot/js/cgen.js:1330-1340 | the old id of a renamed feed comes back only if a dirty local feed holds it |
| `CgenMerge.ServerFeedsKeepTheirOrder` | bundle/webroot/js/cgen.js:1334-1347 | the rest of the result is every other server feed, unchanged and in server order, and nothing else |
| `CgenMerge.MergeKeepsDirtyIds` | bundle/webroot/js/cgen.js:1328-1351 | dirty ids stay ids of the list |
| `CgenMerge.DirtyFeedsTakeTheirPlaces` | bundle/webroot/js/cgen.js:1335-1350 | before a dirty feed come exactly the other server feeds before the first one it stands for, by its id or by the id it was loaded under; all of them if there is none |
| `CgenMerge.LeftoversKeepTheirOrder` | bundle/webroot/js/cgen.js:1348-1350 | dirty feeds that stand for none of the server's come in local order |
| `CgenMerge.RuntimeIsTheServers` | bundle/webroot/js/cgen.js:1340 | a dirty feed shows the runtime of the last server feed it stands for, or keeps its own |
| `CgenProtocol.View.UpsertEditor` | bundle/webroot/js/cgen.js:949-960 | the form replaces the selected pipeline, or the id is refused |
| `CgenProtocol.View.OnAdd` | bundle/webroot/js/cgen.js:1400-1415 | the new pipeline is selected and dirty |
| `CgenProtocol.View.OnRefreshed` | bundle/webroot/js/cgen.js:1310-1359 | a refresh is discarded during and after a save; otherwise it adopts what nothing local contradicts |
| `CgenProtocol.View.StartSave` | bundle/webroot/js/cgen.js:1362-1380 | generation, upsert and request |
| `CgenProtocol.View.OnSaved` | bundle/webroot/js/cgen.js:1381-1389 | an accepted save replaces everything local |
| `CgenProtocol.LowerIff` | bundle/webroot/js/cgen.js:953-955 | ids are compared without regard to the case of the letters A to Z |
| `CgenProtocol.SelectingShows` | bundle/webroot/js/cgen.js:1434-1446 | selecting puts the form into its own pipeline and shows the other one, or the first; while the form's id is taken it does nothing |
| `CgenProtocol.AddingSelects` | bundle/webroot/js/cgen.js:1400-1415 | adding puts the form into its own pipeline; the new one is last, selected, shown and dirty, unless its id is empty or taken |
| `CgenProtocol.SaveSendsWhatIsShown` | bundle/webroot/js/cgen.js:1362-1380 | a save is sent if and only if the form is valid and its id is free; it sends every pipeline as the user sees it, the switch, and the revision of the base version |
| `CgenProtocol.FailedSaveIsRepeated` | bundle/webroot/js/cgen.js:1390-1397 | after a save that failed the same request is sent when the user saves again |
| `CgenProtocol.ServerTakesIff` | services/go/internal/webgateway/cgen_control.go:525-584 | the server takes a save if and only if its ids are valid and there is no file or the file's revision is the expected one; the save is then the file |
| `CgenProtocol.SavedIsShown` | bundle/webroot/js/cgen.js:1381-1389 | a save that was taken leaves the editor with that file, nothing dirty, and the form on the selected pipeline |
| `CgenProtocol.RefreshIsTakenIff` | bundle/webroot/js/cgen.js:1310-1356 | over every schedule, an answer is taken if and only if no save was begun since the refresh; what it then changes, written out, and otherwise nothing |
| `CgenProtocol.SwitchIsTheUsers` | bundle/webroot/js/cgen.js:1322-1325 | over every schedule, the switch is the user's if and only if it was set since the last save that was taken, and then it is what it was last set to |
| `CgenProtocol.View.RunAll` | bundle/webroot/js/cgen.js:1289-1415 | the handlers in any order reach the state the proofs are about |
| `CgenProtocol.EditorFollowsScript` | bundle/webroot/js/cgen.js:1289-1415 | in every schedule the editor is where its own handlers bring it, signal by signal |
| `CgenProtocol.UserKeepsShape` | bundle/webroot/js/cgen.js:949-960 | typing, selecting and adding keep ids unique, dirty ids among them, and the form on its pipeline |
| `CgenProtocol.TakePayloadShape` | bundle/webroot/js/cgen.js:1318-1356 | so does every refresh |
| `CgenProtocol.TakePayloadSynced` | bundle/webroot/js/cgen.js:1318-1352 | a refresh that does not adopt a revision loses nothing of the version the editor is based on |
| `CgenProtocol.ServeKeepsInv` | services/go/internal/webgateway/cgen_control.go:525-584 | the server's compare-and-swap keeps the invariant |
| `CgenProtocol.RunKeepsInv` | bundle/webroot/js/cgen.js:1289-1398 | the invariant holds over every interleaving of user, refresh, saves and other writers |
| `CgenProtocol.AcceptedSaveSawEverything` | services/go/internal/webgateway/cgen_control.go:709-756 | as long as no version after the one a save is based on has other pipelines, the save replaces only the user's own ones, and as long as none has another switch, it changes the switch only if the user did, however often the file was rewritten or the editor refreshed |
| `CgenProtocol.OverwrittenIsReturned` | services/go/internal/webgateway/cgen_control.go:709-756 | whatever revisions are: a save the server takes replaces a pipeline the user never touched only if the revision of its base version is current again, over a file that has pipelines, after a version with other ones |
| `CgenProtocol.OverwrittenIff` | services/go/internal/webgateway/cgen_control.go:709-756 | for every history of the server and every version in it: some editor can have a save based on it that the server takes and that replaces pipelines the user never touched, if and only if that happens |
| `CgenProtocol.ReusedRevisionOverwrites` | services/go/internal/webgateway/cgen_control.go:725-756 | when a file is restored its old revision matches again, and a save overwrites a pipeline the user never touched |
| `CgenProtocol.EditsSurvive` | bundle/webroot/js/cgen.js:1310-1398 | every dirty pipeline and what the user sees of it survives every step but typing over it and a successful save |
| `CgenProtocol.TypingIsRecordedIff` | bundle/webroot/js/cgen.js:1473-1477 | typing marks its pipeline dirty if and only if the list is not empty |
| `CgenProtocol.UnrecordedEditIsLost` | bundle/webroot/js/cgen.js:1318-1351 | whatever the server held: another writer removes the file, the editor refreshes, the user types a pipeline and adds another one, and the next refresh drops what was typed |
| `Reconnect.PublicPage.ScheduleReconnect` | bundle/webroot/js/public.js:1957-1991 | a reconnect is armed for a live player, once unless forced, with the delay of its feed |
| `Reconnect.PublicPage.StopFeed` | bundle/webroot/js/public.js:2427-2473 | reconnect and disconnect timer of the player are cleared and it leaves the map |
| `Reconnect.PublicPage.StartFeedWebRTC` | bundle/webroot/js/public.js:2081-2145 | the part before the first await: resumes, or replaces the player by one that takes over the count |
| `Reconnect.PublicPage.OnReconnectTimer` | bundle/webroot/js/public.js:1982-1989 | the callback detaches, removes and starts again |
| `Reconnect.PublicPage.MarkPacketsRecent` | bundle/webroot/js/public.js:1640-1652 | count, backoff and both timers are reset, for stale players too |
| `Reconnect.PublicPage.RunAll` | bundle/webroot/js/public.js:1896-1997 | the callbacks in any order reach the state the proofs are about |
| `Reconnect.ApplyKeepsInv` | bundle/webroot/js/public.js:1896-1997 | every event keeps players, timers and backoffs consistent |
| `Reconnect.RunKeepsInv` | bundle/webroot/js/public.js:1896-1997 | over every run `reconnectPending` holds exactly when `reconnectTimer` is set, and a player that is not live owns no timer |
| `Reconnect.FiringReconnects` | bundle/webroot/js/public.js:1982-1989 | a reconnect timer that fires always finds its player live and replaces it |
| `Reconnect.ReconnectIsArmedIff` | bundle/webroot/js/public.js:1934-1991 | over every run, an event arms a reconnect if and only if it gives up the live player of the feed: not stopping, and a codec fallback, or a failure with none pending, or its grace ending while still disconnected and stale; then exactly one timer, after min(1000 * 2^k, 10000) ms, is to reconnect that player |
| `Reconnect.LivePlayerIs` | bundle/webroot/js/public.js:2081-2145 | over every run, which player is live: a stop leaves none, a restart a new one that takes over the backoff, and nothing else changes it |
| `Reconnect.TimersOfPlayerAre` | bundle/webroot/js/public.js:1934-1989 | over every run, which of its two timers a player has: from when it is given up or gets a grace, until it loses them |
| `Reconnect.BackoffOutlivesPlayers` | bundle/webroot/js/public.js:1976-1981 | over every run, after k schedules since a reset last took effect the next delay is min(1000 * 2^k, 10000) ms, although every reconnect replaces the player |
| `Reconnect.DelayIs` | bundle/webroot/js/public.js:199-200 | the delays are 1000, 2000, 4000, 8000 and then 10000 ms |
| `Reconnect.PreferencesResetIff` | bundle/webroot/js/public.js:1023-1037 | a change of preferences resets the delay of a live player if and only if it stops the player or there was nothing to reset |
| `Reconnect.LatePacketsKeepTheDelay` | bundle/webroot/js/public.js:1861-1864 | late packets of a replaced player do not change the delay of the live one |
| `Nearest.ChordIsHaversine` | scripts/util/mergeCLC_SGC.py:1475-1487 | the squared chord between two earth vectors is four times the haversine of their distance |
| `Nearest.HaversineIsInRange` | scripts/util/mergeCLC_SGC.py:1480-1481 | both square roots are defined for all coordinates |
| `Nearest.BruteForce` | scripts/util/mergeCLC_SGC.py:928 | the first of the nearest places |
| `Nearest.FindNearest` | scripts/util/mergeCLC_SGC.py:921-929 | nothing for no places; else the tree's or the loop's place and its distance |
| `Nearest.ChordsOrderArcs` | scripts/util/mergeCLC_SGC.py:924-927 | a nearest point in space is a nearest place on the sphere |
| `Nearest.SearchesAgree` | scripts/util/mergeCLC_SGC.py:921-929 | both branches return the same distance for every list, and the same place when only one is nearest |
| `Crosswalk.UniquePlaces` | scripts/util/mergeCLC_SGC.py:1504-1513 | the loop with its seen-set |
| `Crosswalk.UniqueKeepsFirsts` | scripts/util/mergeCLC_SGC.py:1504-1513 | every key once, and for each key the first place that has it |
| `Crosswalk.LoadNwsTable` | scripts/util/mergeCLC_SGC.py:510-586 | the loop over the rows with its dictionaries and seen-set |
| `Crosswalk.NwsTablesAreSound` | scripts/util/mergeCLC_SGC.py:510-586 | codes are unique in both tables and every link, listed once, joins places that are there |
| `Crosswalk.LoadMarineTable` | scripts/util/mergeCLC_SGC.py:589-665 | the loop over the marine rows with its dictionaries and seen-set |
| `Crosswalk.MarineTablesAreSound` | scripts/util/mergeCLC_SGC.py:589-665 | the same of the two marine tables and their links |
| `Crosswalk.ZonesAreFirstRows` | scripts/util/mergeCLC_SGC.py:516-541 | the zone table is, in order of first rows, the zone of every row with a state: code, name, region and place of that first row |
| `Crosswalk.CountiesAreFirstRows` | scripts/util/mergeCLC_SGC.py:542-557 | so is the county table, of rows that also have a county code |
| `Crosswalk.MarinePlacesAreFirstRows` | scripts/util/mergeCLC_SGC.py:595-641 | so are the two marine tables |
| `Crosswalk.MarineLinksAreWhatRowsSay` | scripts/util/mergeCLC_SGC.py:642-664 | a marine link is listed if and only if a row gives it |
| `Crosswalk.LinksAreWhatRowsSay` | scripts/util/mergeCLC_SGC.py:562-585 | a link is listed if and only if a row says it |
| `Crosswalk.CountyZonesAreLaterRows` | scripts/util/mergeCLC_SGC.py:544-561 | the zones kept with a county are exactly those of its rows after the first |
| `Crosswalk.FirstZoneIsMissing` | scripts/util/mergeCLC_SGC.py:544-561 | two rows of one county in two zones: both zones are listed and linked, and the county keeps only the second |
| `Crosswalk.AllPlacesHaveDistinctKeys` | scripts/util/mergeCLC_SGC.py:242-249 | the assembled list never repeats its primary key |
| `Crosswalk.CodeSimilarity` | scripts/util/mergeCLC_SGC.py:1418-1430 | between 0 and 1; 1 exactly for equal codes, 0 exactly when the first characters differ or a code is empty; else the shared prefix over the longer length |
| `Crosswalk.LinkArea` | scripts/util/mergeCLC_SGC.py:894-909 | the station is a nearest candidate within reach, or there is none |
| `Crosswalk.MatchNearestStations` | scripts/util/mergeCLC_SGC.py:887-909 | every area with a station in reach is linked, once, to a nearest one of those of its region; links never repeat an area |
| `Ranking.ScoreIsMonotone` | scripts/util/mergeCLC_SGC.py:801-826 | scores stay in [0, 1] and no part that gets better makes the score worse |
| `Ranking.ScoreAddsUp` | scripts/util/mergeCLC_SGC.py:807-816 | up to 1 each part contributes its weight and a shared region 0.02 |
| `Ranking.RerankerHasAShare` | scripts/util/mergeCLC_SGC.py:824-826 | the combined score is 0.78 of the score and 0.22 of the reranker's, moved from [-1, 1] to [0, 1] and clamped |
| `Ranking.SortRanks` | scripts/util/mergeCLC_SGC.py:819 | the ranking is a permutation, descending, ties in candidate order |
| `Ranking.ShortlistIsBest` | scripts/util/mergeCLC_SGC.py:819-820 | nothing left off the shortlist of sixteen outranks anything on it |
| `Ranking.BestWins` | scripts/util/mergeCLC_SGC.py:819-827 | the winner is the first of the highest scores, or with a reranker the first of the highest combined scores of a shortlist of sixteen that nothing outside outranks |
| `Ranking.MatchSgcToClc` | scripts/util/mergeCLC_SGC.py:733-748 | one link for every item as soon as there is a zone: its own code, or the winner among the zones of its region, or among all if its region has none |

## Left out

- Floating point: coordinates, clocks and scores are exact reals, byte counts integers; byte sizes computed as `int(x / 1000)` are floor divisions.
- RawPacer.RunConservesAudio: a write that fails counts as a write; whether the pipe took part of it is not modelled.
- Handoff.NothingIsDroppedOrReordered: the short frame in hand when the concealment limit ends a session is given up, and is a term of its own in the statement.
- Handoff.WritesKeepPace: assumes, as RawPacer.NoCatchUpBurst does, a clock that does not run backwards and sleeps that last as long as asked.
- ProcessorPump.NoCatchUpBurst: the clock after the header is one reading, and sleeping at least as long as asked is a premise, as it is of RawPacer.NoCatchUpBurst.
- RawPacer.NoCatchUpBurst: assumes a clock that does not run backwards and sleeps that last as long as asked.
- CapBridge.NoAlertLostIff: assumes that a completed rename and a synced file survive a crash; the crash of the machine below the file system is not part of this model.
- CapBridge.CapAlertsAreNotLost: SHA-256 and JSON are a digest function and an opaque body.
- CapBridge.JournalPathCollision: paths are compared as strings. Ids that hold `.` or empty components, or `..`, can name one file in two ways; ids made by the ingest are a prefix and hexadecimal digits.
- Publication.LoaderNeverMixes: digests are collision-free by assumption, and paths are compared as strings, without resolving links or folding case.
- Publication.CommitsAtManifest: counts, sizes and the generation id in the manifest are left out.
- Catalog.Catalog.AddHistoryRow: the row of the deployments table itself is left out, as are the population attributes in Catalog.Catalog.AddPopulation, which no index or check reads.
- Catalog.IndexesAgree: capabilities, relationships, and the attributes of rows are left out; normal forms, stable ids and the rounding of coordinates to doubles are functions given from outside.
- Catalog.FinishFailsOnlyForMissingRecords: `integrity_check` and `rtreecheck`, which are the database's own, are an input.
- CatalogLoader.FinishedPackLoadsIff: the loader's checks of schema versions and pack ids are left out, those of digests are in `Publication.Load`; that a rounded coordinate stays in range is a premise, and negative zero is not told from zero.
- Crosswalk.LoadNwsTable: cells are taken after cleaning, and attributes other than a county's zones are left out.
- Wkb.RoundTrip: doubles are 64-bit patterns, compared as floating point where the encoder compares them.
- CgenProtocol.AcceptedSaveSawEverything: the server stores what it is sent; its normalisation of settings and the sections it preserves are not modelled. An untouched form is assumed to read back as the pipeline it shows. Settings are opaque texts.
- CgenProtocol.OverwrittenIff: that files of one revision have the same pipelines is a premise, since revisions are SHA-256 hashes; the other direction, CgenProtocol.OverwrittenIsReturned, is proved without it.
- CgenProtocol.View.OnAdd: the search for a free `cgen-<n>` is replaced by any id that no pipeline has.
- Reconnect.PublicPage.StopFeed: of the player's timers only those for reconnecting are modelled; statistics and media timers, buffers and connections are left out, as they are in Reconnect.PublicPage.MarkPacketsRecent.
- Reconnect.BackoffOutlivesPlayers: the late part of `startFeedWebRTC`, after its first await, appears only as events; status texts are left out.
- Nearest.SearchesAgree: the tree is a function that returns a nearest vector; sine and cosine are known by the Pythagorean, difference and half-angle identities, the arc by growing with its argument.
- Ranking.BestWins: text similarity, distance scores and neural scores are given numbers; rounding of reported scores is left out.
- The remaining catalogue adapters, CSV, XML and HTML reading, projections, downloads and online geocoding.
- `recoverMutedWebRTCOutputMixer`, whose effect is on audio elements only.
- `match_forecasts_to_clc` and `match_postal_to_areas`, which repeat the matching modelled for `match_sgc_to_clc` and `match_nearest_stations`.
- Logging, metrics, status strings, process launch and network transport.
- That router, network and scheduler are fair: what a publisher or a replay gets done if they are is stated as the steps that do it.
