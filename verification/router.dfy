/**
 * The tile router and partition registry of `extract`: the closure state
 * that the stream and store callbacks update. Each asynchronous callback is
 * one event, applied atomically:
 *   Data(tile, cls)  a coordinate arrives from the source enumeration,
 *                    `cls` being the classifier's property value, if any;
 *   Ready(name)      partition `name` has become writable;
 *   Saved(c)         a completion reaches `tileSaved`;
 *   End()            the source enumeration has ended.
 *
 * `State` is the abstract view: the closure variables, what the event loop
 * holds on the router's behalf (scheduled completions of dropped tiles,
 * copies in flight) and a history (copies issued and acknowledged,
 * partitions opened, shutdowns started). The step functions `OnData`,
 * `OnReady`, `OnSaved` and `OnEnd` say what each event does to it; the
 * lemmas prove the invariant `Inv` and the promises of the callbacks about
 * them; the class `Extractor` performs the events in place and is proved to
 * follow the step functions.
 */
module Router {
  import opened FileName
  import opened QueueTotal

  datatype Option<T> = None | Some(value: T)

  /** A tile coordinate from the source enumeration. */
  datatype Tile = Tile(z: nat, x: nat, y: nat)

  /** One copy of a tile into the partition `name`: read from the source,
      then written to that partition. */
  datatype Copy = Copy(name: string, tile: Tile)

  /** What reaches `tileSaved`: a dropped tile's scheduled completion, or the
      acknowledgement of a partition write. */
  datatype Completion = Skipped | Copied(copy: Copy)

  /** Above this many tiles fetched and not completed, intake is paused. */
  const PauseLimit: nat := 100
  /** Below this many, a paused intake resumes. */
  const ResumeLimit: nat := PauseLimit / 2

  datatype State = State(
    // the closure variables of `extract`
    tilesGot: nat,
    tilesDone: nat,
    paused: bool,
    ended: bool,
    extracts: set<string>,
    writable: set<string>,
    writeQueue: map<string, seq<Tile>>,
    // held by the event loop: dropped tiles whose completion is scheduled,
    // and copies whose write is not yet acknowledged
    skips: nat,
    inFlight: multiset<Copy>,
    // history: copies issued (in order) and acknowledged, partitions opened
    // (in order), shutdowns started
    issued: seq<Copy>,
    stored: multiset<Copy>,
    opens: seq<string>,
    shutdowns: nat)

  /** The state before the first event. */
  function Init(): State {
    State(0, 0, false, false, {}, {}, map[], 0, multiset{}, [], multiset{}, [], 0)
  }

  /** Tiles fetched and not yet completed. */
  function Outstanding(s: State): int {
    s.tilesGot - s.tilesDone
  }

  /** Partition `name` has been opened but is not writable yet. */
  predicate Opening(s: State, name: string) {
    name in s.extracts && name !in s.writable
  }

  /** A completion that some callback still owes. */
  predicate Pending(s: State, c: Completion) {
    match c
    case Skipped => s.skips > 0
    case Copied(copy) => copy in s.inFlight
  }

  /** `writeQueue[name] || []`. */
  function QueueOf(s: State, name: string): seq<Tile> {
    if name in s.writeQueue then s.writeQueue[name] else []
  }

  predicate NoDuplicates<T(==)>(xs: seq<T>) {
    forall i, j :: 0 <= i < j < |xs| ==> xs[i] != xs[j]
  }

  // ---------------------------------------------------------------------
  // The invariant

  /** Partition lifecycle: absent, opening (with a non-empty buffer), then
      writable (with an empty one); each partition opened exactly once. */
  predicate RegistryOk(s: State) {
    && s.writable <= s.extracts
    && s.writeQueue.Keys == s.extracts
    && (forall n :: n in s.writable ==> s.writeQueue[n] == [])
    && (forall n :: n in s.extracts && n !in s.writable ==> s.writeQueue[n] != [])
    && NoDuplicates(s.opens)
    && (forall n :: n in s.opens ==> n in s.extracts)
    && (forall n :: n in s.extracts ==> n in s.opens)
  }

  /** Copies go only to writable partitions; every issued copy is in flight
      or acknowledged, exactly once. */
  predicate CopiesOk(s: State) {
    && (forall c :: c in s.issued ==> c.name in s.writable)
    && multiset(s.issued) == s.inFlight + s.stored
  }

  /** Every fetched tile is done, or pending in exactly one place. */
  ghost predicate Counted(s: State) {
    s.tilesGot == s.tilesDone + s.skips + Total(s.writeQueue) + |s.inFlight|
  }

  /** Above the high-water mark intake is paused; paused intake has not yet
      fallen below the low-water mark. */
  predicate HysteresisOk(s: State) {
    && (Outstanding(s) > PauseLimit ==> s.paused)
    && (s.paused ==> Outstanding(s) >= ResumeLimit)
  }

  /** Shutdown has started once exactly when the run is quiescent. */
  predicate ShutdownOk(s: State) {
    s.shutdowns == if s.ended && s.tilesDone == s.tilesGot then 1 else 0
  }

  ghost predicate Inv(s: State) {
    RegistryOk(s) && CopiesOk(s) && Counted(s) && HysteresisOk(s) && ShutdownOk(s)
  }

  /** Nothing is left to do: every partition is writable, every buffer empty
      and every issued copy acknowledged. */
  predicate Drained(s: State) {
    && s.skips == 0
    && s.inFlight == multiset{}
    && multiset(s.issued) == s.stored
    && s.writable == s.extracts
    && (forall n :: n in s.writeQueue ==> s.writeQueue[n] == [])
  }

  // ---------------------------------------------------------------------
  // The callbacks, as functions of the state

  /** `writeExtract`: the partition is recorded as opened synchronously; it
      becomes writable later, with `OnReady`. */
  function WriteExtractStep(s: State, name: string): (r: State)
    requires name !in s.extracts
    ensures r.extracts == s.extracts + {name} && name !in s.extracts
    ensures r.opens == s.opens + [name]
    ensures r.(extracts := s.extracts, opens := s.opens) == s
  {
    s.(extracts := s.extracts + {name}, opens := s.opens + [name])
  }

  /** `saveTile`: one copy is issued and is in flight. */
  function SaveTileStep(s: State, name: string, tile: Tile): (r: State)
    ensures r.issued == s.issued + [Copy(name, tile)]
    ensures r.inFlight == s.inFlight + multiset{Copy(name, tile)}
    ensures |r.inFlight| == |s.inFlight| + 1
    ensures r.(issued := s.issued, inFlight := s.inFlight) == s
  {
    s.(issued := s.issued + [Copy(name, tile)],
       inFlight := s.inFlight + multiset{Copy(name, tile)})
  }

  /** The classified branch of `onData`: copy at once if the partition is
      open and writable, otherwise buffer, opening the partition if absent. */
  function Route(s: State, name: string, tile: Tile): (r: State)
    ensures name in s.extracts && name in s.writable ==> r == SaveTileStep(s, name, tile)
    ensures !(name in s.extracts && name in s.writable) ==>
              && r.writeQueue == s.writeQueue[name := QueueOf(s, name) + [tile]]
              && r.extracts == s.extracts + {name}
              && r.opens == s.opens + (if name in s.extracts then [] else [name])
              && r.issued == s.issued && r.inFlight == s.inFlight
    ensures r.tilesGot == s.tilesGot && r.tilesDone == s.tilesDone && r.paused == s.paused
    ensures r.ended == s.ended && r.writable == s.writable && r.skips == s.skips
    ensures r.stored == s.stored && r.shutdowns == s.shutdowns
  {
    if name in s.extracts && name in s.writable then
      SaveTileStep(s, name, tile)
    else
      var s1 := s.(writeQueue := s.writeQueue[name := QueueOf(s, name) + [tile]]);
      if name !in s1.extracts then WriteExtractStep(s1, name) else s1
  }

  /** `onData`: count the tile, pause above the high-water mark, then drop
      the tile (scheduling its completion) or route it. */
  function OnData(s: State, tile: Tile, cls: Option<string>): (r: State)
    ensures r.tilesGot == s.tilesGot + 1 && r.tilesDone == s.tilesDone
    ensures r.paused == (s.paused || Outstanding(r) > PauseLimit)
    ensures r.ended == s.ended && r.shutdowns == s.shutdowns && r.stored == s.stored
    ensures cls.None? ==>
              r == s.(tilesGot := s.tilesGot + 1, paused := r.paused, skips := s.skips + 1)
    ensures cls.Some? ==>
              r == Route(s.(tilesGot := s.tilesGot + 1, paused := r.paused),
                         ToFileName(cls.value), tile)
  {
    var s1 := s.(tilesGot := s.tilesGot + 1);
    var s2 := if !s1.paused && Outstanding(s1) > PauseLimit then s1.(paused := true) else s1;
    match cls
    case None => s2.(skips := s2.skips + 1)
    case Some(value) => Route(s2, ToFileName(value), tile)
  }

  /** The copies that draining queue `q` of partition `name` issues, in
      issue order: the queue is popped from its end, so the last buffered
      tile is copied first. */
  function Drain(name: string, q: seq<Tile>): (r: seq<Copy>)
    ensures |r| == |q|
  {
    if q == [] then [] else [Copy(name, q[|q| - 1])] + Drain(name, q[..|q| - 1])
  }

  /** Drain issues the buffer in reverse (last in, first out), one copy per
      entry, all to partition `name`. */
  lemma {:induction false} DrainReversed(name: string, q: seq<Tile>)
    ensures forall i :: 0 <= i < |q| ==> Drain(name, q)[i] == Copy(name, q[|q| - 1 - i])
    decreases |q|
  {
    if q != [] {
      var p := q[..|q| - 1];
      var d := Drain(name, q);
      assert d == [Copy(name, q[|q| - 1])] + Drain(name, p);
      DrainReversed(name, p);
      forall i | 0 <= i < |q| ensures d[i] == Copy(name, q[|q| - 1 - i]) {
        if i > 0 {
          assert d[i] == Drain(name, p)[i - 1];
          assert p[|p| - 1 - (i - 1)] == q[|q| - 1 - i];
        }
      }
    }
  }

  /** One pop of the drain loop: the last entry of what is left of `q` is
      the next copy of `Drain(name, q)`. */
  lemma DrainPop(name: string, q: seq<Tile>, k: nat)
    requires k < |q|
    ensures var left := q[..|q| - k];
      && left[|left| - 1] == q[|q| - 1 - k]
      && left[..|left| - 1] == q[..|q| - (k + 1)]
      && Drain(name, q)[..k + 1] == Drain(name, q)[..k] + [Copy(name, left[|left| - 1])]
  {
    var d := Drain(name, q);
    DrainReversed(name, q);
    assert d[..k + 1] == d[..k] + [d[k]];
  }

  /** The ready callback given to `writeExtract`: mark the partition
      writable, then pop its buffer empty, issuing one copy per entry. */
  function OnReady(s: State, name: string): (r: State)
    ensures r.writable == s.writable + {name}
    ensures r.writeQueue == s.writeQueue[name := []]
    ensures r.issued == s.issued + Drain(name, QueueOf(s, name))
    ensures r.inFlight == s.inFlight + multiset(Drain(name, QueueOf(s, name)))
    ensures |r.inFlight| == |s.inFlight| + |QueueOf(s, name)|
    ensures r.(writable := s.writable, writeQueue := s.writeQueue,
               issued := s.issued, inFlight := s.inFlight) == s
  {
    var d := Drain(name, QueueOf(s, name));
    s.(writable := s.writable + {name}, writeQueue := s.writeQueue[name := []],
       issued := s.issued + d, inFlight := s.inFlight + multiset(d))
  }

  /** `shutdown` starts: finalising and closing the partitions is I/O. */
  function ShutdownStep(s: State): (r: State)
    ensures r.shutdowns == s.shutdowns + 1 && r.(shutdowns := s.shutdowns) == s
  {
    s.(shutdowns := s.shutdowns + 1)
  }

  /** `tileSaved`: count one completion, resume below the low-water mark,
      and start shutdown if the run is now quiescent. */
  function TileSavedStep(s: State): (r: State)
    ensures r.tilesDone == s.tilesDone + 1 && r.tilesGot == s.tilesGot
    ensures r.paused == (s.paused && Outstanding(r) >= ResumeLimit)
    ensures r.shutdowns == s.shutdowns + (if r.ended && r.tilesDone == r.tilesGot then 1 else 0)
    ensures r.(tilesDone := s.tilesDone, paused := s.paused, shutdowns := s.shutdowns) == s
  {
    var s1 := s.(tilesDone := s.tilesDone + 1);
    var s2 := if s1.paused && Outstanding(s1) < ResumeLimit then s1.(paused := false) else s1;
    if s2.ended && s2.tilesDone == s2.tilesGot then ShutdownStep(s2) else s2
  }

  /** A completion: the scheduled `tileSaved` of a dropped tile, or the
      acknowledgement of a copy's write followed by `tileSaved`. */
  function OnSaved(s: State, c: Completion): (r: State)
    requires Pending(s, c)
    ensures r.tilesDone == s.tilesDone + 1 && r.tilesGot == s.tilesGot
    ensures c.Skipped? ==> r.skips + 1 == s.skips && r.inFlight == s.inFlight && r.stored == s.stored
    ensures c.Copied? ==> r.skips == s.skips && r.inFlight + multiset{c.copy} == s.inFlight
                          && r.stored == s.stored + multiset{c.copy}
    ensures r.extracts == s.extracts && r.writable == s.writable && r.writeQueue == s.writeQueue
    ensures r.issued == s.issued && r.opens == s.opens && r.ended == s.ended
    ensures r.paused == (s.paused && Outstanding(r) >= ResumeLimit)
    ensures r.shutdowns == s.shutdowns + (if r.ended && r.tilesDone == r.tilesGot then 1 else 0)
  {
    match c
    case Skipped => TileSavedStep(s.(skips := s.skips - 1))
    case Copied(copy) =>
      TileSavedStep(s.(inFlight := s.inFlight - multiset{copy}, stored := s.stored + multiset{copy}))
  }

  /** `onEnd`: the enumeration is over; shut down at once if nothing is
      outstanding. */
  function OnEnd(s: State): (r: State)
    ensures r.ended
    ensures r.shutdowns == s.shutdowns + (if s.tilesDone == s.tilesGot then 1 else 0)
    ensures r.(ended := s.ended, shutdowns := s.shutdowns) == s
  {
    var s1 := s.(ended := true);
    if s1.tilesDone == s1.tilesGot then ShutdownStep(s1) else s1
  }

  // ---------------------------------------------------------------------
  // The invariant is kept by every event

  lemma InitInv()
    ensures Inv(Init()) && Outstanding(Init()) == 0 && !Init().paused
  {
    assert Total(Init().writeQueue) == 0;
  }

  lemma {:induction false} RouteKeepsInv(s: State, name: string, tile: Tile)
    requires RegistryOk(s) && CopiesOk(s)
    requires s.tilesGot == s.tilesDone + s.skips + Total(s.writeQueue) + |s.inFlight| + 1
    ensures var r := Route(s, name, tile);
      RegistryOk(r) && CopiesOk(r) && Counted(r)
  {
    var r := Route(s, name, tile);
    if !(name in s.extracts && name in s.writable) {
      TotalUpdate(s.writeQueue, name, QueueOf(s, name) + [tile]);
      if name !in s.extracts {
        assert name !in s.opens;
        forall i, j | 0 <= i < j < |r.opens| ensures r.opens[i] != r.opens[j] {
          if j == |s.opens| {
            assert r.opens[i] == s.opens[i];
          }
        }
      }
    }
  }

  lemma DataKeepsInv(s: State, tile: Tile, cls: Option<string>)
    requires Inv(s) && !s.ended
    ensures Inv(OnData(s, tile, cls))
  {
    var r := OnData(s, tile, cls);
    var s2 := s.(tilesGot := s.tilesGot + 1, paused := r.paused);
    if cls.Some? {
      RouteKeepsInv(s2, ToFileName(cls.value), tile);
    }
  }

  lemma ReadyKeepsInv(s: State, name: string)
    requires Inv(s) && Opening(s, name)
    ensures Inv(OnReady(s, name))
  {
    var r := OnReady(s, name);
    var d := Drain(name, QueueOf(s, name));
    DrainReversed(name, QueueOf(s, name));
    TotalUpdate(s.writeQueue, name, []);
    forall c | c in r.issued ensures c.name in r.writable {
      if c !in s.issued {
        var i :| 0 <= i < |d| && d[i] == c;
      }
    }
  }

  lemma SavedKeepsInv(s: State, c: Completion)
    requires Inv(s) && Pending(s, c)
    ensures Inv(OnSaved(s, c))
  {
    if c.Copied? {
      assert |s.inFlight| >= 1;
    }
  }

  lemma EndKeepsInv(s: State)
    requires Inv(s) && !s.ended
    ensures Inv(OnEnd(s))
  {
  }

  // ---------------------------------------------------------------------
  // What the callbacks promise

  /** With every fetched tile done, nothing is pending anywhere. */
  lemma DrainedWhenBalanced(s: State)
    requires Inv(s) && s.tilesDone == s.tilesGot
    ensures Drained(s)
  {
    forall n | n in s.writeQueue ensures s.writeQueue[n] == [] {
      QueueBelowTotal(s.writeQueue, n);
    }
  }

  /** Shutdown starts only at quiescence, only once, and finds everything
      drained: on `onEnd` and on every completion. */
  lemma ShutdownOnlyWhenQuiescent(s: State, c: Completion)
    requires Inv(s) && Pending(s, c)
    ensures var r := OnSaved(s, c);
      && r.shutdowns <= 1
      && (r.shutdowns > s.shutdowns <==> r.ended && r.tilesDone == r.tilesGot)
      && (r.shutdowns > s.shutdowns ==> Drained(r))
  {
    SavedKeepsInv(s, c);
    var r := OnSaved(s, c);
    if r.tilesDone == r.tilesGot {
      DrainedWhenBalanced(r);
    }
  }

  lemma ShutdownOnEndOnlyWhenQuiescent(s: State)
    requires Inv(s) && !s.ended
    ensures var r := OnEnd(s);
      && r.shutdowns <= 1
      && (r.shutdowns > s.shutdowns <==> r.tilesDone == r.tilesGot)
      && (r.shutdowns > s.shutdowns ==> Drained(r))
  {
    EndKeepsInv(s);
    if s.tilesDone == s.tilesGot {
      DrainedWhenBalanced(OnEnd(s));
    }
  }

  /** A tile's copy is issued by `onData` only if its partition was already
      writable; the classified tile otherwise lands in the buffer. */
  lemma NoCopyBeforeWritable(s: State, tile: Tile, cls: Option<string>)
    ensures var r := OnData(s, tile, cls);
      forall i :: |s.issued| <= i < |r.issued| ==>
        cls.Some? && r.issued[i] == Copy(ToFileName(cls.value), tile)
        && ToFileName(cls.value) in s.writable
    ensures var r := OnData(s, tile, cls);
      cls.Some? && ToFileName(cls.value) !in s.writable ==>
        r.writeQueue[ToFileName(cls.value)] == QueueOf(s, ToFileName(cls.value)) + [tile]
        && ToFileName(cls.value) in r.extracts
  {
  }

  /** A partition is opened by the first classified tile routed to it and
      never again. */
  lemma OpenedOnce(s: State, tile: Tile, cls: Option<string>)
    requires Inv(s) && !s.ended
    ensures var r := OnData(s, tile, cls);
      && |r.opens| <= |s.opens| + 1
      && (|r.opens| == |s.opens| + 1 <==> cls.Some? && ToFileName(cls.value) !in s.extracts)
      && NoDuplicates(r.opens)
  {
    DataKeepsInv(s, tile, cls);
  }

  // ---------------------------------------------------------------------
  // Runs: sequences of events from the initial state

  datatype Event =
    | DataEvent(tile: Tile, cls: Option<string>)
    | ReadyEvent(name: string)
    | SavedEvent(completion: Completion)
    | EndEvent

  /** What the environment can deliver: no data after the end, one end, a
      ready signal only for an opening partition, completions only for
      something pending. */
  predicate Enabled(s: State, e: Event) {
    match e
    case DataEvent(_, _) => !s.ended
    case ReadyEvent(name) => Opening(s, name)
    case SavedEvent(c) => Pending(s, c)
    case EndEvent => !s.ended
  }

  function Step(s: State, e: Event): State
    requires Enabled(s, e)
  {
    match e
    case DataEvent(tile, cls) => OnData(s, tile, cls)
    case ReadyEvent(name) => OnReady(s, name)
    case SavedEvent(c) => OnSaved(s, c)
    case EndEvent => OnEnd(s)
  }

  /** The state after `events`, or None if one of them cannot happen. */
  function Run(s: State, events: seq<Event>): Option<State>
    decreases |events|
  {
    if events == [] then Some(s)
    else if !Enabled(s, events[0]) then None
    else Run(Step(s, events[0]), events[1..])
  }

  lemma StepKeepsInv(s: State, e: Event)
    requires Inv(s) && Enabled(s, e)
    ensures Inv(Step(s, e))
  {
    match e
    case DataEvent(tile, cls) => DataKeepsInv(s, tile, cls);
    case ReadyEvent(name) => ReadyKeepsInv(s, name);
    case SavedEvent(c) => SavedKeepsInv(s, c);
    case EndEvent => EndKeepsInv(s);
  }

  lemma {:induction false} RunKeepsInv(s: State, events: seq<Event>)
    requires Inv(s) && Run(s, events).Some?
    ensures Inv(Run(s, events).value)
    decreases |events|
  {
    if events != [] {
      StepKeepsInv(s, events[0]);
      RunKeepsInv(Step(s, events[0]), events[1..]);
    }
  }

  /** What the invariant guarantees at any observation point: the counters
      are ordered, shutdown starts at most once and exactly at quiescence,
      no partition is opened twice and no copy targets a partition that is
      not writable. */
  lemma InvFacts(t: State)
    requires Inv(t)
    ensures 0 <= t.tilesDone <= t.tilesGot
    ensures t.shutdowns <= 1
    ensures t.shutdowns == 1 <==> t.ended && t.tilesDone == t.tilesGot
    ensures NoDuplicates(t.opens)
    ensures forall c :: c in t.issued ==> c.name in t.writable
  {
  }

  /** Every state reached from the start by events the environment can
      deliver satisfies the invariant. */
  lemma Reachable(events: seq<Event>)
    requires Run(Init(), events).Some?
    ensures Inv(Run(Init(), events).value)
  {
    InitInv();
    RunKeepsInv(Init(), events);
  }

  // ---------------------------------------------------------------------
  // The closure state, updated in place

  class Extractor {
    var tilesGot: nat
    var tilesDone: nat
    var paused: bool
    var ended: bool
    var extracts: set<string>
    var writable: set<string>
    var writeQueue: map<string, seq<Tile>>

    ghost var skips: nat
    ghost var inFlight: multiset<Copy>
    ghost var issued: seq<Copy>
    ghost var stored: multiset<Copy>
    ghost var opens: seq<string>
    ghost var shutdowns: nat

    /** The abstract state of this router. */
    ghost function Snap(): State
      reads this
    {
      State(tilesGot, tilesDone, paused, ended, extracts, writable, writeQueue,
            skips, inFlight, issued, stored, opens, shutdowns)
    }

    constructor ()
      ensures Snap() == Init()
    {
      tilesGot, tilesDone := 0, 0;
      paused, ended := false, false;
      extracts, writable, writeQueue := {}, {}, map[];
      skips, inFlight := 0, multiset{};
      issued, stored, opens, shutdowns := [], multiset{}, [], 0;
    }

    /** `onData`. */
    method Data(tile: Tile, cls: Option<string>)
      modifies this
      ensures Snap() == OnData(old(Snap()), tile, cls)
    {
      tilesGot := tilesGot + 1;
      if !paused && tilesGot - tilesDone > PauseLimit {
        paused := true;
      }
      match cls {
        case None =>
          // process.nextTick(tileSaved)
          skips := skips + 1;
        case Some(value) =>
          RouteTile(ToFileName(value), tile);
      }
    }

    /** The classified branch of `onData`. */
    method RouteTile(name: string, tile: Tile)
      modifies this`extracts, this`opens, this`writeQueue, this`issued, this`inFlight
      ensures Snap() == Route(old(Snap()), name, tile)
    {
      if name in extracts && name in writable {
        SaveTile(name, tile);
      } else {
        var q := if name in writeQueue then writeQueue[name] else [];
        writeQueue := writeQueue[name := q + [tile]];
        if name !in extracts {
          WriteExtract(name);
        }
      }
    }

    /** `writeExtract`. */
    method WriteExtract(name: string)
      requires name !in extracts
      modifies this`extracts, this`opens
      ensures Snap() == WriteExtractStep(old(Snap()), name)
    {
      extracts := extracts + {name};
      opens := opens + [name];
    }

    /** `saveTile`. */
    method SaveTile(name: string, tile: Tile)
      modifies this`issued, this`inFlight
      ensures issued == old(issued) + [Copy(name, tile)]
      ensures inFlight == old(inFlight) + multiset{Copy(name, tile)}
      ensures Snap() == SaveTileStep(old(Snap()), name, tile)
    {
      issued := issued + [Copy(name, tile)];
      inFlight := inFlight + multiset{Copy(name, tile)};
    }

    /** The ready callback of `writeExtract`. */
    method Ready(name: string)
      requires name in writeQueue
      modifies this`writable, this`writeQueue, this`issued, this`inFlight
      ensures Snap() == OnReady(old(Snap()), name)
    {
      ghost var s0 := Snap();
      ghost var d := Drain(name, writeQueue[name]);
      writable := writable + {name};
      PopAll(name);
      assert Snap() == s0.(writable := s0.writable + {name}, writeQueue := s0.writeQueue[name := []],
                           issued := s0.issued + d, inFlight := s0.inFlight + multiset(d));
    }

    /** The `while (writeQueue[name].length) saveTile(name, pop())` loop.
        The buffer is popped through a local copy of it and stored
        back empty; nothing else reads it meanwhile. */
    method PopAll(name: string)
      requires name in writeQueue
      modifies this`writeQueue, this`issued, this`inFlight
      ensures writeQueue == old(writeQueue)[name := []]
      ensures issued == old(issued) + Drain(name, old(writeQueue[name]))
      ensures inFlight == old(inFlight) + multiset(Drain(name, old(writeQueue[name])))
    {
      var q := writeQueue[name];
      ghost var q0 := q;
      ghost var d := Drain(name, q0);
      ghost var k := 0;
      while q != []
        invariant 0 <= k <= |q0| && q == q0[..|q0| - k]
        invariant writeQueue == old(writeQueue)
        invariant issued == old(issued) + d[..k]
        invariant inFlight == old(inFlight) + multiset(d[..k])
        decreases |q|
      {
        var t := q[|q| - 1];
        DrainPop(name, q0, k);
        q := q[..|q| - 1];
        SaveTile(name, t);
        k := k + 1;
      }
      assert d[..k] == d;
      writeQueue := writeQueue[name := q];
    }

    /** `tileSaved`. */
    method TileSaved()
      modifies this`tilesDone, this`paused, this`shutdowns
      ensures Snap() == TileSavedStep(old(Snap()))
    {
      tilesDone := tilesDone + 1;
      if paused && tilesGot - tilesDone < ResumeLimit {
        paused := false;
      }
      if ended && tilesDone == tilesGot {
        Shutdown();
      }
    }

    /** A completion reaching `tileSaved`. */
    method Saved(c: Completion)
      requires Pending(Snap(), c)
      modifies this
      ensures Snap() == OnSaved(old(Snap()), c)
    {
      match c {
        case Skipped =>
          skips := skips - 1;
        case Copied(copy) =>
          inFlight := inFlight - multiset{copy};
          stored := stored + multiset{copy};
      }
      TileSaved();
    }

    /** `onEnd`. */
    method End()
      modifies this`ended, this`shutdowns
      ensures Snap() == OnEnd(old(Snap()))
    {
      ended := true;
      if tilesDone == tilesGot {
        Shutdown();
      }
    }

    /** `shutdown`. */
    method Shutdown()
      modifies this`shutdowns
      ensures Snap() == ShutdownStep(old(Snap()))
    {
      shutdowns := shutdowns + 1;
    }
  }
}
