/**
 * The Hazelcast adapter: a client that, depending on the mode chosen at
 * configuration time, keeps records in a distributed map (MAP mode) or a
 * distributed queue (QUEUE mode) of the cluster it is attached to.
 *
 * The cluster is the `Cluster` class: named maps from key to record and named
 * FIFO queues of records.  Each adapter operation is specified by a pure step
 * function over a `Grid` value (the cluster's state); the lemmas at the end
 * are stated over those step functions.
 */
module Hazelcast {
  import opened Records

  /** dataStructureType: MAP (1) or QUEUE (2). */
  datatype Mode = MapMode | QueueMode

  const DefaultPollTimeoutMs: int := 100

  /** The name every operation uses in debug mode, whatever table it is given. */
  const DebugStructureName: string := "default"

  /** The hc.* properties that init reads; hc.queuePollTimeoutMs is already parsed. */
  datatype Config = Config(
    dataStructureType: Option<string>,
    queuePollTimeoutMs: Option<int>,
    groupName: Option<string>,
    groupPassword: Option<string>,
    address: Option<string>)

  /** init either returns or ends the process through System.exit. */
  datatype InitOutcome = Initialized | Exit(code: int)

  // ---------------------------------------------------------------------
  // Configuration

  function LowerAscii(c: char): char {
    if 'A' <= c <= 'Z' then (c as int + 32) as char else c
  }

  /** String.equalsIgnoreCase, for strings compared with an ASCII literal. */
  predicate EqualsIgnoreCase(a: string, b: string) {
    |a| == |b| && forall i :: 0 <= i < |a| ==> LowerAscii(a[i]) == LowerAscii(b[i])
  }

  /** The mode that hc.dataStructureType selects; None means the value is fatal. */
  function ModeFor(dataStructureType: Option<string>): (r: Option<Mode>)
    ensures r.None? <==> dataStructureType.None? ||
                         (!EqualsIgnoreCase("queue", dataStructureType.value) && !EqualsIgnoreCase("map", dataStructureType.value))
    ensures r == Some(QueueMode) ==> EqualsIgnoreCase("queue", dataStructureType.value)
    ensures r == Some(MapMode) ==> EqualsIgnoreCase("map", dataStructureType.value)
  {
    if dataStructureType.Some? && EqualsIgnoreCase("queue", dataStructureType.value) then Some(QueueMode)
    else if dataStructureType.Some? && EqualsIgnoreCase("map", dataStructureType.value) then Some(MapMode)
    else None
  }

  /** The distributed structure an operation on `table` reaches. */
  function StructureName(debug: bool, table: string): (name: string)
    ensures debug ==> name == "default"
    ensures !debug ==> name == table
  {
    if debug then DebugStructureName else table
  }

  // ---------------------------------------------------------------------
  // The cluster's state and the step function of each operation

  /**
   * The cluster's distributed maps and queues, by name.  A name that has no
   * entry denotes an empty structure: Hazelcast creates them on first use.
   * When the cluster is not reachable, every map and queue operation raises.
   */
  datatype Grid = Grid(
    reachable: bool,
    maps: map<string, map<string, Record>>,
    queues: map<string, seq<Record>>)
  {
    function MapNamed(name: string): map<string, Record> {
      if name in maps then maps[name] else map[]
    }

    function QueueNamed(name: string): seq<Record> {
      if name in queues then queues[name] else []
    }

    function WithMap(name: string, m: map<string, Record>): (g: Grid)
      ensures g.reachable == reachable && g.queues == queues
      ensures g.MapNamed(name) == m
      ensures forall other :: other != name ==> g.MapNamed(other) == MapNamed(other)
    {
      this.(maps := maps[name := m])
    }

    function WithQueue(name: string, q: seq<Record>): (g: Grid)
      ensures g.reachable == reachable && g.maps == maps
      ensures g.QueueNamed(name) == q
      ensures forall other :: other != name ==> g.QueueNamed(other) == QueueNamed(other)
    {
      this.(queues := queues[name := q])
    }
  }

  /** The cluster after a write, and the status the write returns. */
  datatype Step = Step(grid: Grid, status: Status)

  /** The cluster after a read, the caller's result map, and the status. */
  datatype ReadStep = ReadStep(grid: Grid, result: Record, status: Status)

  /** insert succeeds exactly when the cluster is reachable and, in QUEUE mode, the queue has room. */
  function InsertStep(g: Grid, mode: Mode, maxQueueSize: nat, name: string, key: string, values: Record): (s: Step)
    ensures s.status == Ok <==> g.reachable && (mode == MapMode || |g.QueueNamed(name)| < maxQueueSize)
    ensures s.status != Ok ==> s.status == Failed && s.grid == g
    ensures s.grid.reachable == g.reachable
    ensures mode == MapMode ==> s.grid.queues == g.queues
    ensures mode == QueueMode ==> s.grid.maps == g.maps
  {
    if !g.reachable then Step(g, Failed)
    else match mode
      case MapMode => Step(g.WithMap(name, g.MapNamed(name)[key := values]), Ok)
      case QueueMode =>
        if |g.QueueNamed(name)| < maxQueueSize then Step(g.WithQueue(name, g.QueueNamed(name) + [values]), Ok)
        else Step(g, Failed)
  }

  /** A failed read changes neither the cluster nor the caller's map; a MAP read changes no structure. */
  function ReadStepOf(g: Grid, mode: Mode, name: string, key: string, result: Record): (r: ReadStep)
    ensures r.status == Ok || r.status == Failed
    ensures r.status == Failed ==> r.grid == g && r.result == result
    ensures mode == MapMode ==> r.grid == g
    ensures r.status == Ok ==> result.Keys <= r.result.Keys
  {
    if !g.reachable then ReadStep(g, result, Failed)
    else match mode
      case MapMode =>
        if key in g.MapNamed(name) then ReadStep(g, result + g.MapNamed(name)[key], Ok)
        else ReadStep(g, result, Failed)  // result.putAll(null) raises
      case QueueMode =>
        var q := g.QueueNamed(name);
        if q == [] then ReadStep(g, result, Ok)
        else ReadStep(g.WithQueue(name, q[1..]), result + q[0], Ok)
  }

  /** update never touches a queue, and a failed update changes nothing. */
  function UpdateStep(g: Grid, mode: Mode, name: string, key: string, values: Option<Record>): (s: Step)
    ensures s.status == Ok || s.status == Failed
    ensures s.status == Failed ==> s.grid == g
    ensures s.grid.queues == g.queues && s.grid.reachable == g.reachable
  {
    match mode
    case MapMode =>
      if values.None? || |values.value| == 0 then Step(g, Ok)
      else if !g.reachable then Step(g, Failed)
      else if key !in g.MapNamed(name) then Step(g, Failed)  // resultMap.put on null raises
      else Step(g.WithMap(name, g.MapNamed(name)[key := g.MapNamed(name)[key] + values.value]), Ok)
    case QueueMode => Step(g, Ok)
  }

  /** delete fails only on an unreachable cluster in MAP mode, and never touches a queue. */
  function DeleteStep(g: Grid, mode: Mode, name: string, key: string): (s: Step)
    ensures s.status == Failed <==> mode == MapMode && !g.reachable
    ensures s.status == Ok || s.status == Failed
    ensures s.status == Failed ==> s.grid == g
    ensures s.grid.queues == g.queues && s.grid.reachable == g.reachable
  {
    match mode
    case MapMode =>
      if !g.reachable then Step(g, Failed)
      else Step(g.WithMap(name, g.MapNamed(name) - {key}), Ok)
    case QueueMode => Step(g, Ok)
  }

  // ---------------------------------------------------------------------
  // The cluster and the client

  /** The Hazelcast cluster: the distributed structures every client shares. */
  class Cluster {
    var reachable: bool
    var maps: map<string, map<string, Record>>
    var queues: map<string, seq<Record>>
    /** The capacity of every queue; an offer to a full queue is rejected. */
    const maxQueueSize: nat

    constructor (maxQueueSize: nat)
      ensures State() == Grid(true, map[], map[]) && this.maxQueueSize == maxQueueSize
    {
      reachable := true;
      maps := map[];
      queues := map[];
      this.maxQueueSize := maxQueueSize;
    }

    function State(): Grid
      reads this
    {
      Grid(reachable, maps, queues)
    }

    /** IMap.get: the record under `key`, or null. */
    method MapGet(name: string, key: string) returns (r: Option<Record>)
      requires reachable
      ensures r == if key in State().MapNamed(name) then Some(State().MapNamed(name)[key]) else None
    {
      var m := State().MapNamed(name);
      r := if key in m then Some(m[key]) else None;
    }

    /** IMap.put: `record` replaces whatever was stored under `key`. */
    method MapPut(name: string, key: string, record: Record)
      requires reachable
      modifies this
      ensures State() == old(State()).WithMap(name, old(State()).MapNamed(name)[key := record])
    {
      maps := maps[name := State().MapNamed(name)[key := record]];
    }

    /** IMap.remove. */
    method MapRemove(name: string, key: string)
      requires reachable
      modifies this
      ensures State() == old(State()).WithMap(name, old(State()).MapNamed(name) - {key})
    {
      maps := maps[name := State().MapNamed(name) - {key}];
    }

    /** IQueue.offer: append at the tail unless the queue is full. */
    method QueueOffer(name: string, record: Record) returns (accepted: bool)
      requires reachable
      modifies this
      ensures accepted == (|old(State()).QueueNamed(name)| < maxQueueSize)
      ensures State() == if accepted then old(State()).WithQueue(name, old(State()).QueueNamed(name) + [record])
                         else old(State())
    {
      var q := State().QueueNamed(name);
      accepted := |q| < maxQueueSize;
      if accepted {
        queues := queues[name := q + [record]];
      }
    }

    /** IQueue.poll: remove and return the head, or null when the queue is empty. */
    method QueuePoll(name: string) returns (r: Option<Record>)
      requires reachable
      modifies this
      ensures var q := old(State()).QueueNamed(name);
              if q == [] then r == None && State() == old(State())
              else r == Some(q[0]) && State() == old(State()).WithQueue(name, q[1..])
    {
      var q := State().QueueNamed(name);
      if q == [] {
        r := None;
      } else {
        r := Some(q[0]);
        queues := queues[name := q[1..]];
      }
    }
  }

  /**
   * The fields-in-`values`-win overlay that update performs with its iterator
   * loop: every field of `values` is put into `base`, one at a time.
   */
  method Overlay(base: Record, values: Record) returns (merged: Record)
    ensures merged.Keys == base.Keys + values.Keys
    ensures forall k :: k in values ==> merged[k] == values[k]
    ensures forall k :: k in base && k !in values ==> merged[k] == base[k]
  {
    merged := base;
    var pending := values.Keys;
    while pending != {}
      invariant pending <= values.Keys
      invariant merged.Keys == base.Keys + (values.Keys - pending)
      invariant forall k :: k in values && k !in pending ==> merged[k] == values[k]
      invariant forall k :: k in base && (k !in values || k in pending) ==> merged[k] == base[k]
      decreases pending
    {
      var k :| k in pending;
      merged := merged[k := values[k]];
      pending := pending - {k};
    }
  }

  class HazelcastClient {
    var debug: bool
    var superclient: bool
    var mode: Mode
    var pollTimeoutMs: int
    /** The address the regular Java client connected to; None before init or for a super client. */
    var clientAddress: Option<string>
    const cluster: Cluster

    /**
     * Whether getMap/getQueue can reach the cluster: a super client always
     * can; a regular client only once init has created its client object.
     * Otherwise they dereference null, which the operations catch.
     */
    predicate HasClient()
      reads this
    {
      superclient || clientAddress.Some?
    }

    /** The field initialisers: not debugging, MAP mode, a 100 ms poll timeout. */
    constructor (cluster: Cluster)
      ensures this.cluster == cluster
      ensures !debug && !superclient && mode == MapMode && pollTimeoutMs == DefaultPollTimeoutMs
      ensures clientAddress == None
    {
      this.cluster := cluster;
      debug, superclient, mode := false, false, MapMode;
      pollTimeoutMs := DefaultPollTimeoutMs;
      clientAddress := None;
    }

    /**
     * init: `debugProperty` says whether the system property "debug" is set,
     * `superClientProperty` is the system property "hazelcast.super.client".
     */
    method Init(conf: Config, debugProperty: bool, superClientProperty: Option<string>) returns (outcome: InitOutcome)
      modifies this
      ensures debug == (old(debug) || debugProperty)
      ensures ModeFor(conf.dataStructureType).None? ==> outcome == Exit(1)
      ensures ModeFor(conf.dataStructureType).Some? ==>
        && mode == ModeFor(conf.dataStructureType).value
        && pollTimeoutMs == (if mode == QueueMode && conf.queuePollTimeoutMs.Some?
                             then conf.queuePollTimeoutMs.value else old(pollTimeoutMs))
        && superclient == (superClientProperty == Some("true"))
        && (outcome == Exit(1) <==> !superclient && conf.address.None?)
        && (outcome == Initialized ==>
              clientAddress == if superclient then old(clientAddress) else conf.address)
      ensures outcome == Initialized || outcome == Exit(1)
      ensures outcome == Initialized ==> HasClient()
    {
      if debugProperty {
        debug := true;
      }
      var selected := ModeFor(conf.dataStructureType);
      if selected == Some(QueueMode) {
        mode := QueueMode;
        if conf.queuePollTimeoutMs.Some? {
          pollTimeoutMs := conf.queuePollTimeoutMs.value;
        }
      } else if selected == Some(MapMode) {
        mode := MapMode;
      } else {
        return Exit(1);
      }
      superclient := superClientProperty == Some("true");
      if !superclient {
        if conf.address.None? {
          return Exit(1);
        }
        clientAddress := conf.address;
      }
      outcome := Initialized;
    }

    method Insert(table: string, key: string, values: Record) returns (status: Status)
      modifies cluster
      ensures !HasClient() ==> status == Failed && cluster.State() == old(cluster.State())
      ensures HasClient() ==>
                Step(cluster.State(), status)
                == InsertStep(old(cluster.State()), mode, cluster.maxQueueSize, StructureName(debug, table), key, values)
    {
      var name := StructureName(debug, table);
      if !HasClient() {
        return Failed;
      }
      if !cluster.reachable {
        return Failed;
      }
      match mode
      case MapMode =>
        cluster.MapPut(name, key, values);
        status := Ok;
      case QueueMode =>
        var accepted := cluster.QueueOffer(name, values);
        status := if accepted then Ok else Failed;
    }

    /** read: `fields` is not consulted; the whole record is merged into `result`. */
    method Read(table: string, key: string, fields: Option<set<string>>, result: Record)
      returns (status: Status, newResult: Record)
      modifies cluster
      ensures !HasClient() ==> status == Failed && newResult == result && cluster.State() == old(cluster.State())
      ensures HasClient() ==>
                ReadStep(cluster.State(), newResult, status)
                == ReadStepOf(old(cluster.State()), mode, StructureName(debug, table), key, result)
    {
      var name := StructureName(debug, table);
      newResult := result;
      if !HasClient() {
        return Failed, result;
      }
      if !cluster.reachable {
        return Failed, result;
      }
      match mode
      case MapMode =>
        var resultMap := cluster.MapGet(name, key);
        if resultMap.None? {
          return Failed, result;
        }
        newResult := result + resultMap.value;
        status := Ok;
      case QueueMode =>
        var head := cluster.QueuePoll(name);
        if head.Some? {
          newResult := result + head.value;
        }
        status := Ok;
    }

    /**
     * update: `values` is None when the caller passes null.  In MAP mode the
     * map is looked up before `values` is inspected.
     */
    method Update(table: string, key: string, values: Option<Record>) returns (status: Status)
      modifies cluster
      ensures !HasClient() && mode == MapMode ==> status == Failed && cluster.State() == old(cluster.State())
      ensures HasClient() || mode == QueueMode ==>
                Step(cluster.State(), status)
                == UpdateStep(old(cluster.State()), mode, StructureName(debug, table), key, values)
    {
      var name := StructureName(debug, table);
      match mode
      case MapMode =>
        if !HasClient() {
          return Failed;
        }
        if values.Some? && |values.value| > 0 {
          if !cluster.reachable {
            return Failed;
          }
          var resultMap := cluster.MapGet(name, key);
          if resultMap.None? {
            return Failed;
          }
          var merged := Overlay(resultMap.value, values.value);
          assert merged == resultMap.value + values.value;
          cluster.MapPut(name, key, merged);
        }
        status := Ok;
      case QueueMode =>
        status := Ok;
    }

    method Delete(table: string, key: string) returns (status: Status)
      modifies cluster
      ensures !HasClient() && mode == MapMode ==> status == Failed && cluster.State() == old(cluster.State())
      ensures HasClient() || mode == QueueMode ==>
                Step(cluster.State(), status)
                == DeleteStep(old(cluster.State()), mode, StructureName(debug, table), key)
    {
      var name := StructureName(debug, table);
      match mode
      case MapMode =>
        if !HasClient() {
          return Failed;
        }
        if !cluster.reachable {
          return Failed;
        }
        cluster.MapRemove(name, key);
        status := Ok;
      case QueueMode =>
        status := Ok;
    }

    /** scan is not supported in either mode. */
    method Scan(table: string, startKey: string, recordCount: int, fields: Option<set<string>>)
      returns (status: Status)
      ensures status == Unsupported
    {
      status := Unsupported;
    }
  }

  // ---------------------------------------------------------------------
  // Properties

  /** The mode choice ignores letter case. */
  lemma ModeIgnoresCase(s: string, t: string)
    requires EqualsIgnoreCase(s, t)
    ensures ModeFor(Some(s)) == ModeFor(Some(t))
  {
  }

  lemma ModeExamples()
    ensures ModeFor(Some("QUEUE")) == Some(QueueMode) && ModeFor(Some("Map")) == Some(MapMode)
    ensures ModeFor(None) == None && ModeFor(Some("list")) == None && ModeFor(Some("")) == None
  {
  }

  /** MAP mode: what insert stores, read returns, merged over the caller's map. */
  lemma InsertThenRead(g: Grid, maxQueueSize: nat, name: string, key: string, values: Record, result: Record)
    requires g.reachable
    ensures var s := InsertStep(g, MapMode, maxQueueSize, name, key, values);
            s.status == Ok &&
            ReadStepOf(s.grid, MapMode, name, key, result) == ReadStep(s.grid, result + values, Ok)
  {
  }

  /** MAP mode: insert replaces the record under its key and touches no other record. */
  lemma InsertKeepsOtherRecords(g: Grid, maxQueueSize: nat, name: string, key: string, values: Record,
                                name': string, key': string)
    requires name' != name || key' != key
    ensures var g' := InsertStep(g, MapMode, maxQueueSize, name, key, values).grid;
            g'.queues == g.queues &&
            (key' in g'.MapNamed(name') <==> key' in g.MapNamed(name')) &&
            (key' in g.MapNamed(name') ==> g'.MapNamed(name')[key'] == g.MapNamed(name')[key'])
  {
  }

  /** MAP mode: update changes at most the record under its own key. */
  lemma UpdateKeepsOtherRecords(g: Grid, name: string, key: string, values: Option<Record>,
                                name': string, key': string)
    requires name' != name || key' != key
    ensures var g' := UpdateStep(g, MapMode, name, key, values).grid;
            g'.queues == g.queues &&
            (key' in g'.MapNamed(name') <==> key' in g.MapNamed(name')) &&
            (key' in g.MapNamed(name') ==> g'.MapNamed(name')[key'] == g.MapNamed(name')[key'])
  {
  }

  /** MAP mode: delete removes at most the record under its own key. */
  lemma DeleteKeepsOtherRecords(g: Grid, name: string, key: string, name': string, key': string)
    requires name' != name || key' != key
    ensures var g' := DeleteStep(g, MapMode, name, key).grid;
            g'.queues == g.queues &&
            (key' in g'.MapNamed(name') <==> key' in g.MapNamed(name')) &&
            (key' in g.MapNamed(name') ==> g'.MapNamed(name')[key'] == g.MapNamed(name')[key'])
  {
  }

  /** MAP mode: reading an absent key fails and leaves the caller's map and the cluster alone. */
  lemma ReadAbsentKey(g: Grid, name: string, key: string, result: Record)
    requires key !in g.MapNamed(name)
    ensures ReadStepOf(g, MapMode, name, key, result) == ReadStep(g, result, Failed)
  {
  }

  /** MAP mode: update overlays `values` on the stored record. */
  lemma UpdateOverlays(g: Grid, name: string, key: string, values: Record)
    requires g.reachable && key in g.MapNamed(name) && |values| > 0
    ensures var s := UpdateStep(g, MapMode, name, key, Some(values));
            var old_ := g.MapNamed(name)[key];
            s.status == Ok && key in s.grid.MapNamed(name) &&
            var new_ := s.grid.MapNamed(name)[key];
            new_.Keys == old_.Keys + values.Keys &&
            (forall f :: f in values ==> new_[f] == values[f]) &&
            (forall f :: f in old_ && f !in values ==> new_[f] == old_[f])
  {
  }

  /** MAP mode: update of an absent key fails, and update without values does nothing. */
  lemma UpdateFailsOrDoesNothing(g: Grid, name: string, key: string, values: Option<Record>)
    ensures key !in g.MapNamed(name) && values.Some? && |values.value| > 0 ==>
              UpdateStep(g, MapMode, name, key, values) == Step(g, Failed)
    ensures values.None? || values.value == map[] ==>
              UpdateStep(g, MapMode, name, key, values) == Step(g, Ok)
  {
  }

  /** MAP mode: delete always succeeds on a reachable cluster, after which reading the key fails. */
  lemma DeleteThenRead(g: Grid, name: string, key: string, result: Record)
    requires g.reachable
    ensures var s := DeleteStep(g, MapMode, name, key);
            s.status == Ok && key !in s.grid.MapNamed(name) &&
            ReadStepOf(s.grid, MapMode, name, key, result) == ReadStep(s.grid, result, Failed)
  {
  }

  /** QUEUE mode: update and delete change nothing and succeed. */
  lemma QueueModeUpdateDelete(g: Grid, name: string, key: string, values: Option<Record>)
    ensures UpdateStep(g, QueueMode, name, key, values) == Step(g, Ok)
    ensures DeleteStep(g, QueueMode, name, key) == Step(g, Ok)
  {
  }

  /** QUEUE mode: reading an empty queue succeeds with the caller's map unchanged. */
  lemma PollEmptyQueue(g: Grid, name: string, key: string, result: Record)
    requires g.reachable && g.QueueNamed(name) == []
    ensures ReadStepOf(g, QueueMode, name, key, result) == ReadStep(g, result, Ok)
  {
  }

  /** QUEUE mode: read takes the head whatever key it is given. */
  lemma QueueReadIgnoresKey(g: Grid, name: string, key: string, key': string, result: Record)
    ensures ReadStepOf(g, QueueMode, name, key, result) == ReadStepOf(g, QueueMode, name, key', result)
  {
  }

  /** The grid after offering each record of `recs`, in order, to queue `name`. */
  function OfferAll(g: Grid, maxQueueSize: nat, name: string, recs: seq<Record>): Grid
    decreases |recs|
  {
    if recs == [] then g
    else OfferAll(InsertStep(g, QueueMode, maxQueueSize, name, "", recs[0]).grid, maxQueueSize, name, recs[1..])
  }

  /** The records that `n` successive reads of queue `name` hand to empty result maps. */
  function PollMany(g: Grid, name: string, n: nat): seq<Record>
    decreases n
  {
    if n == 0 then []
    else
      var s := ReadStepOf(g, QueueMode, name, "", map[]);
      [s.result] + PollMany(s.grid, name, n - 1)
  }

  lemma {:induction false} OfferAllAppends(g: Grid, maxQueueSize: nat, name: string, recs: seq<Record>)
    requires g.reachable && |g.QueueNamed(name)| + |recs| <= maxQueueSize
    ensures OfferAll(g, maxQueueSize, name, recs).reachable
    ensures OfferAll(g, maxQueueSize, name, recs).QueueNamed(name) == g.QueueNamed(name) + recs
    decreases |recs|
  {
    if recs != [] {
      var g1 := InsertStep(g, QueueMode, maxQueueSize, name, "", recs[0]).grid;
      OfferOne(g, maxQueueSize, name, recs[0]);
      OfferAllAppends(g1, maxQueueSize, name, recs[1..]);
      assert g.QueueNamed(name) + [recs[0]] + recs[1..] == g.QueueNamed(name) + recs;
    }
  }

  lemma OfferOne(g: Grid, maxQueueSize: nat, name: string, r: Record)
    requires g.reachable && |g.QueueNamed(name)| < maxQueueSize
    ensures InsertStep(g, QueueMode, maxQueueSize, name, "", r).grid.reachable
    ensures InsertStep(g, QueueMode, maxQueueSize, name, "", r).grid.QueueNamed(name) == g.QueueNamed(name) + [r]
  {
  }

  lemma {:induction false} PollManyTakesPrefix(g: Grid, name: string, n: nat)
    requires g.reachable && n <= |g.QueueNamed(name)|
    ensures PollMany(g, name, n) == g.QueueNamed(name)[..n]
    decreases n
  {
    if n > 0 {
      var q := g.QueueNamed(name);
      var s := ReadStepOf(g, QueueMode, name, "", map[]);
      assert s.result == q[0];
      assert s.grid.QueueNamed(name) == q[1..];
      PollManyTakesPrefix(s.grid, name, n - 1);
      assert q[..n] == [q[0]] + q[1..][..n - 1];
    }
  }

  /**
   * QUEUE mode is FIFO: records offered to an empty queue are read back in
   * the order they were inserted, whatever keys the reads pass.
   */
  lemma QueueIsFifo(g: Grid, maxQueueSize: nat, name: string, recs: seq<Record>)
    requires g.reachable && g.QueueNamed(name) == [] && |recs| <= maxQueueSize
    ensures PollMany(OfferAll(g, maxQueueSize, name, recs), name, |recs|) == recs
  {
    OfferAllAppends(g, maxQueueSize, name, recs);
    var g' := OfferAll(g, maxQueueSize, name, recs);
    assert g'.QueueNamed(name) == recs;
    PollManyTakesPrefix(g', name, |recs|);
    assert recs[..|recs|] == recs;
  }

  /** QUEUE mode: an offer to a full queue is rejected with status 1 and changes nothing. */
  lemma OfferToFullQueue(g: Grid, maxQueueSize: nat, name: string, key: string, values: Record)
    requires |g.QueueNamed(name)| >= maxQueueSize
    ensures InsertStep(g, QueueMode, maxQueueSize, name, key, values) == Step(g, Failed)
  {
  }

  /**
   * MAP mode, one record through its whole life: insert a record of two
   * fields, read it, update one field, read it, delete it, and read again.
   * Every step succeeds except the last read.
   */
  lemma MapScenario(g: Grid, maxQueueSize: nat, name: string, key: string,
                    f1: string, f2: string, v1: string, v2: string, v2': string)
    requires g.reachable && f1 != f2
    ensures
      var r1 := map[f1 := v1, f2 := v2];
      var s1 := InsertStep(g, MapMode, maxQueueSize, name, key, r1);
      var s2 := UpdateStep(s1.grid, MapMode, name, key, Some(map[f2 := v2']));
      var s3 := DeleteStep(s2.grid, MapMode, name, key);
      && s1.status == Ok && s2.status == Ok && s3.status == Ok
      && ReadStepOf(s1.grid, MapMode, name, key, map[]) == ReadStep(s1.grid, r1, Ok)
      && ReadStepOf(s2.grid, MapMode, name, key, map[]) == ReadStep(s2.grid, map[f1 := v1, f2 := v2'], Ok)
      && ReadStepOf(s3.grid, MapMode, name, key, map[]).status == Failed
  {
    var r1 := map[f1 := v1, f2 := v2];
    var s1 := InsertStep(g, MapMode, maxQueueSize, name, key, r1);
    assert ReadStepOf(s1.grid, MapMode, name, key, map[]) == ReadStep(s1.grid, r1, Ok) by {
      InsertThenRead(g, maxQueueSize, name, key, r1, map[]);
      assert map[] + r1 == r1;
    }
    ScenarioUpdate(s1.grid, name, key, f1, f2, v1, v2, v2');
  }

  /** The scenario's update of one of two fields, then its read and delete. */
  lemma ScenarioUpdate(g: Grid, name: string, key: string, f1: string, f2: string, v1: string, v2: string, v2': string)
    requires g.reachable && f1 != f2 && key in g.MapNamed(name) && g.MapNamed(name)[key] == map[f1 := v1, f2 := v2]
    ensures
      var s2 := UpdateStep(g, MapMode, name, key, Some(map[f2 := v2']));
      var s3 := DeleteStep(s2.grid, MapMode, name, key);
      && s2.status == Ok && s3.status == Ok
      && ReadStepOf(s2.grid, MapMode, name, key, map[]) == ReadStep(s2.grid, map[f1 := v1, f2 := v2'], Ok)
      && ReadStepOf(s3.grid, MapMode, name, key, map[]).status == Failed
  {
    var r2 := map[f1 := v1, f2 := v2'];
    var s2 := UpdateStep(g, MapMode, name, key, Some(map[f2 := v2']));
    assert ReadStepOf(s2.grid, MapMode, name, key, map[]) == ReadStep(s2.grid, r2, Ok) by {
      ScenarioUpdatedRecord(g, name, key, f1, f2, v1, v2, v2');
      assert map[] + r2 == r2;
    }
    DeleteThenRead(s2.grid, name, key, map[]);
  }

  lemma ScenarioUpdatedRecord(g: Grid, name: string, key: string, f1: string, f2: string, v1: string, v2: string, v2': string)
    requires g.reachable && f1 != f2 && key in g.MapNamed(name) && g.MapNamed(name)[key] == map[f1 := v1, f2 := v2]
    ensures
      var s2 := UpdateStep(g, MapMode, name, key, Some(map[f2 := v2']));
      s2.status == Ok && s2.grid.reachable && key in s2.grid.MapNamed(name) && s2.grid.MapNamed(name)[key] == map[f1 := v1, f2 := v2']
  {
    var v := map[f2 := v2'];
    var r2 := map[f1 := v1, f2 := v2'];
    assert |v| == 1;
    UpdateOverlays(g, name, key, v);
    var n := UpdateStep(g, MapMode, name, key, Some(v)).grid.MapNamed(name)[key];
    assert n.Keys == r2.Keys;
    assert n == r2;
  }
}
