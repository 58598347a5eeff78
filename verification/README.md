# mbtiles-extracts, modelled in Dafny

`extract(mbTilesPath, geojson, propName)` splits one MBTiles archive into
one archive per region: every tile coordinate of the source is classified by
the polygon that contains its center, and the tile is copied into the
partition named after that polygon's `propName` value. This project models
the core of `index.js`:

- `filename.dfy`, module `FileName`: `toFileName`, the partition file name
  derived from a property value (ASCII lower-casing, every space to `_`,
  `.mbtiles` appended), and when two values share a partition.
- `queue_total.dfy`, module `QueueTotal`: the number of tiles buffered across
  all per-partition write queues, with the lemmas that let the counting
  invariant follow a queue update.
- `router.dfy`, module `Router`: the closure state of `extract` as an event
  machine. The events are a coordinate arriving (`onData`, with the
  classifier's answer as a parameter), a partition becoming writable (the
  ready callback of `writeExtract`), a completion reaching `tileSaved`
  (either the scheduled completion of an unclassified tile or the
  acknowledgement of a copy), and the end of the enumeration (`onEnd`).
  Pure step functions on a `State` value say what each event does. The
  lemmas prove that every event keeps an invariant: tile counting,
  partition lifecycle, copies only to writable partitions, pause/resume
  hysteresis, and shutdown exactly at quiescence. They also prove this for
  every run of events the environment can deliver. The class `Extractor`
  holds the same variables and updates them in place. Each of its event
  methods is proved to produce the state that the step function
  prescribes. The drain of a partition's buffer is a `while` loop that pops
  from the end.
- `metadata.dfy`, module `Metadata`: the non-I/O part of `updateInfo`:
  one-sided clamping of the bounds, the center and its zoom, the identity
  fields, and the `for` loop that empties every vector layer's `fields`.
  The record is a class that is rewritten in place.

Behaviour of `index.js` worth noting:

- Partition keys are file names: the key is `toFileName(value)` including
  `.mbtiles`, and `updateInfo` sets `name`, `description` and `basename` to
  that key (index.js:63, 113, 221).
- When the extent query returns no row, `updateInfo` leaves the record
  untouched and hands back the record itself, not the archive
  (index.js:194-196).
- The bounds clamp is one-sided: a west edge east of 180 or a north edge
  south of -90 is written unchanged (index.js:207-212).

## Model

| member | source | states |
|---|---|---|
| FileName.LowerChar | index.js:160 | an upper-case ASCII letter moves up by 32 (its code point plus 32) to the lower-case letter; every other character is unchanged; the result is never upper-case |
| FileName.StemChar | index.js:160 | a space becomes `_`, an upper-case ASCII letter moves up by 32 (its code point plus 32) to the lower-case letter, every other character is kept; the result is never a space and never upper-case |
| FileName.ToLower | index.js:160 | `toLowerCase`: same length, each character lower-cased in place |
| FileName.ReplaceSpaces | index.js:160 | `replace(/ /g, '_')`: same length, every space (not only the first) becomes `_`, every other character kept |
| FileName.Stem | index.js:160 | the stem has the value's length, each character is the value's character normalised, and it contains no space and no upper-case letter |
| FileName.ToFileName | index.js:159-161 | the file name is the normalised stem followed by exactly `.mbtiles`; its length is the value's plus 8 |
| FileName.StemIdempotent | index.js:160 | normalising an already normalised stem changes nothing |
| FileName.SameFileNameIff | index.js:159-161 | two values map to the same partition if and only if they have the same length and agree character by character after normalisation |
| FileName.DistinctValuesCollide | index.js:159-161 | the distinct values `"A b"` and `"a_b"` name the same partition, so their tiles go into one archive |
| Router.DrainReversed | index.js:76-79 | draining a buffer issues one copy per buffered tile, all to that partition, in reverse order of buffering (last pushed, first copied) |
| Router.Drain | index.js:76-79 | draining a buffer issues exactly as many copies as the buffer holds tiles |
| Router.InitInv | index.js:19-33 | before any event the invariant holds, nothing is outstanding and intake is not paused |
| Router.RouteKeepsInv | index.js:63-81 | routing a classified tile (copy at once if writable, else buffer and open the partition if absent) keeps the registry and copy invariants and accounts the new tile exactly once |
| Router.DataKeepsInv | index.js:44-84 | `onData` keeps the invariant: tilesGot rises by one, and the tile is pending in exactly one place (a scheduled completion, a buffer or a copy in flight) |
| Router.ReadyKeepsInv | index.js:74-79 | the ready callback keeps the invariant: the partition becomes writable with an empty buffer, and every buffered tile becomes a copy in flight to a writable partition |
| Router.SavedKeepsInv | index.js:86-104 | a completion keeps the invariant, including resume below 50 outstanding and shutdown when ended and balanced |
| Router.EndKeepsInv | index.js:39-42 | `onEnd` keeps the invariant |
| Router.DrainedWhenBalanced | index.js:103 | when tilesDone equals tilesGot there is no scheduled completion, no copy in flight, every partition is writable and every buffer is empty |
| Router.ShutdownOnlyWhenQuiescent | index.js:93-104 | after a completion, shutdown has started at most once, it starts on this completion exactly when the enumeration has ended and tilesDone equals tilesGot, and it then finds everything drained |
| Router.ShutdownOnEndOnlyWhenQuiescent | index.js:39-42 | `onEnd` starts shutdown exactly when nothing is outstanding, at most once, and only with everything drained |
| Router.NoCopyBeforeWritable | index.js:60-81 | every copy `onData` issues is of this tile to its partition, and only when that partition was already writable; otherwise the tile is appended to the partition's buffer and the partition is registered |
| Router.OpenedOnce | index.js:73-74 | `onData` opens at most one partition, exactly when the tile is classified into a partition not yet registered, and no partition is ever opened twice |
| Router.StepKeepsInv | index.js:36-104 | every event the environment can deliver keeps the invariant |
| Router.RunKeepsInv | index.js:36-104 | every enabled sequence of events from an invariant state ends in an invariant state |
| Router.Reachable | index.js:19-104 | every state reachable from the start satisfies the invariant |
| Router.InvFacts | index.js:46-103 | at every reachable state 0 <= tilesDone <= tilesGot, shutdown has started at most once and exactly when ended and balanced, no partition is opened twice and every copy targets a writable partition |
| Router.OnData | index.js:44-84 | tilesGot rises by one, tilesDone is unchanged, intake is paused when more than 100 tiles are outstanding and stays paused if it was; an unclassified tile only schedules its completion; a classified one is routed to `toFileName(value)` |
| Router.Route | index.js:63-81 | when the partition is registered and writable the tile is copied at once and nothing else changes; otherwise the tile is appended to the partition's buffer (created empty if absent), the partition is registered and recorded as opened if it was not registered yet, and no copy is issued; counters, flags and writable set are untouched |
| Router.WriteExtractStep | index.js:141-148 | the absent partition is registered and appended to the opened list; nothing else changes |
| Router.SaveTileStep | index.js:86-91 | exactly one copy of the tile to the partition is appended to the issued copies and added to those in flight; nothing else changes |
| Router.OnReady | index.js:74-79 | the partition becomes writable, its buffer is empty, and the drain's copies are appended to the issued copies and to those in flight |
| Router.TileSavedStep | index.js:93-104 | tilesDone rises by one; intake resumes once fewer than 50 tiles are outstanding; shutdown starts when ended and tilesDone equals tilesGot |
| Router.OnSaved | index.js:86-104 | a completion removes one scheduled completion or one copy in flight (the copy then counts as stored) and then counts as `tileSaved`: tilesDone rises by one, paused stays set only while at least 50 tiles are outstanding, and shutdown starts exactly when ended and balanced; registry and buffers are untouched |
| Router.OnEnd | index.js:39-42 | the enumeration is marked ended and shutdown starts if tilesDone equals tilesGot |
| Router.ShutdownStep | index.js:106-108 | the shutdown counter rises by one and nothing else changes |
| Router.Extractor.constructor | index.js:19-33 | the closure starts in the initial state |
| Router.Extractor.Data | index.js:44-84 | performs `onData` in place, ending in exactly the state `OnData` prescribes |
| Router.Extractor.RouteTile | index.js:63-81 | performs the classified branch of `onData` in place, as `Route` prescribes |
| Router.Extractor.WriteExtract | index.js:141-148 | registers the partition and records it as opened |
| Router.Extractor.SaveTile | index.js:86-91 | issues one copy of the tile to the partition, which is then in flight |
| Router.Extractor.Ready | index.js:74-79 | performs the ready callback in place, ending in exactly the state `OnReady` prescribes |
| Router.Extractor.PopAll | index.js:76-79 | the `while` loop empties the partition's buffer, issuing exactly the copies `Drain` lists, in that order |
| Router.Extractor.TileSaved | index.js:93-104 | tilesDone rises by one, paused stays set only while at least 50 tiles are outstanding, shutdown starts when ended and balanced |
| Router.Extractor.Saved | index.js:89-104 | performs a completion in place, as `OnSaved` prescribes |
| Router.Extractor.End | index.js:39-42 | performs `onEnd` in place, as `OnEnd` prescribes |
| Router.Extractor.Shutdown | index.js:106-108 | records that shutdown has started |
| QueueTotal.TotalUpdate | index.js:70-79 | replacing one partition's buffer changes the number of buffered tiles by the difference in that buffer's length |
| QueueTotal.QueueBelowTotal | index.js:70-71 | no single buffer holds more tiles than all buffers together |
| Metadata.ClampBounds | index.js:207-212 | west >= -180, south >= -90, east <= 180, north <= 90; each side is either the tile box's own edge or the limit, and never moves the other way |
| Metadata.ClampKeepsInRange | index.js:207-212 | edges already in the world range pass through unchanged, and clamping clamped bounds again changes nothing |
| Metadata.ClampLeavesFarSides | index.js:207-212 | the clamp is one-sided: a west edge of 200 and a north edge of -95 are written unchanged |
| Metadata.Midpoint | index.js:217-218 | the center coordinate is equidistant from both edges and lies between them when they are ordered |
| Metadata.CenterZoom | index.js:215-219 | the zoom is maxzoom when the range is at most 1, otherwise half the range rounded down above minzoom, and it lies in [minzoom, maxzoom] whenever minzoom <= maxzoom |
| Metadata.CenterOf | index.js:216-220 | the center longitude and latitude are each equidistant from the opposite edges of the bounds, and the zoom is the center zoom of the zoom range |
| Metadata.CenterZoomStrictlyInside | index.js:219 | for a range of at least 2 the center zoom lies strictly between minzoom and maxzoom |
| Metadata.CenterZoomInverted | index.js:215-219 | with maxzoom < minzoom the center zoom is maxzoom, below minzoom |
| Metadata.CenterInsideBounds | index.js:216-220 | for ordered bounds the center lies inside them, halfway between opposite edges |
| Metadata.CenterZoomExamples | index.js:219 | zoom ranges 0-14, 5-6, 3-3, 0-3 and 2-7 center at 7, 6, 3, 1 and 4 |
| Metadata.ClearLayerFields | index.js:223-225 | every vector layer keeps its id and position and its `fields` become empty; the layer count is unchanged |
| Metadata.Cleared | index.js:224 | a cleared layer keeps its id and has an empty field map |
| Metadata.UpdateInfo | index.js:182-232 | on a query error: fails with the record unchanged; on no row: hands back the record unchanged; otherwise bounds are the clamped tile boxes, the center is their midpoint at the center zoom, name, description and basename are the partition id, every layer's fields are emptied, and the archive is handed on |

## Left out

- MBTiles I/O is not modelled: opening archives, `startWriting`, `getTile`, `putTile`, `getInfo`, `putInfo`, `stopWriting`, `close` and the extent SQL. These are foreign asynchronous calls. They appear only as events (ready, completion) or as the `Query` value `updateInfo` receives.
- The `which-polygon` classifier is a parameter: each data event carries the property value found, or none. Each event may carry any answer, so the same tile may be classified differently on two events; the proofs hold for every classifier, deterministic or not.
- `unproject` and `sm.bbox` are floating-point and library code. The tile boxes reach `updateInfo` as real inputs. Coordinates are exact reals, so IEEE rounding of the midpoint is not modelled.
- The parsing of `"z/x/y"` strings into numbers is not modelled: a data event carries the tile coordinate directly.
- Stream plumbing (`split`, `createZXYStream`, `pause`/`resume`) is reduced to the `paused` flag.
- The `queue-async` fan-out in `shutdown`, the status timer, stderr output, `mkdirp` and path joining are not modelled. Shutdown is recorded as a counter of starts.
- Thrown errors (`if (err) throw err`) are not modelled: every completion succeeds.
- Router.Enabled: the environment protocol is an assumption, not something the model proves. A completion arrives only for something pending; this is also the precondition of `Router.OnSaved` and `Router.Extractor.Saved`. A ready signal arrives only while its partition is opening, so at most once per partition. No data arrives and no second end arrives after the end. The last two rules are stated by `Router.Enabled` and by the preconditions of `Router.DataKeepsInv`, `Router.ReadyKeepsInv`, `Router.EndKeepsInv` and `Router.OpenedOnce`. `Router.OnReady` and `Router.Extractor.Ready` do not require them: `Router.Extractor.Ready` requires only that the partition has a buffer entry.
- Router.Extractor.PopAll: pops a local copy of the buffer (a sequence value) and stores the empty sequence back once the loop ends, rather than popping the map entry in place; nothing reads the buffer while the loop runs.
- Router.Extractor: the class methods are proved to follow the step functions; the invariant itself is proved on `State` values, not as a class invariant.
- Metadata.UpdateInfo: `NoRow` models the code's `!row` branch only. It does not stand for a partition with no tiles at `minzoom`. The extent query aggregates without `GROUP BY`, so it always yields one row, and an empty partition yields a row of NULL extents. Such a row is not modelled, so `ReturnedInfo` must not be read as the outcome for an empty partition.
- Aliasing hazards in `shutdown` are not modelled. One `info` object is rewritten by every partition's `updateInfo` (index.js:114). The no-row branch hands `info` to a list that later receives `stopWriting` (index.js:123, 194-196). `UpdateInfo` models one call on one record.
- FileName.LowerChar: lower-cases ASCII letters only; Unicode case mapping is not modelled.
- A property value that is not a string (missing, null, a number or a boolean) makes `toLowerCase` throw (index.js:160, reached from index.js:63), ending the run. A data event carries only string values, so this crash is not modelled. A missing `vector_layers` array (index.js:214) is not modelled either.
- `debug.js` is not part of this model.
