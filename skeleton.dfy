/**
 * The cluster-numbering part of `main` (igia/skeleton.py:180-208), run against
 * an OutputHandle: the counter `cluster_indx`, the with-block around the region
 * loop, the per-region try/except for TimeOutError and the timeout log.
 *
 * The methods are proved against RegionLoop.Loop; Run below is the whole
 * with-statement as a function, and the lemmas after it state what a run
 * guarantees about names, records, timeouts, the alarm and the files.
 */
module Skeleton {
  import opened Basics
  import opened Names
  import opened Output
  import opened RegionLoop

  /** How the with-block ended: normally, by a propagated error in a region, or by a file that would not open. */
  datatype Status = Done | Failed(region: nat) | NotOpened(path: string)

  /** What a run leaves behind. */
  datatype RunResult = RunResult(
    status: Status,
    log: seq<Record>,
    counter: nat,
    timeouts: seq<TimeoutNote>,
    alarm: Alarm,
    streams: seq<Stream>)

  const Start := State(Tally(0, []), [], Idle)

  /** The run of igia/skeleton.py:180-208 over the regions the linkage yields. */
  function Run(outDir: string, unopenable: set<string>, regions: seq<Region>, timeOut: Option<nat>): RunResult {
    match FirstUnopenable(outDir, unopenable, 0)
    case Some(j) =>
      RunResult(NotOpened(PathOf(outDir, j)), [], 0, [], Idle, OpenedUpTo(outDir, j))
    case None =>
      var o := Loop(Start, regions, timeOut, 0);
      RunResult(
        if o.exit.Fatal? then Failed(o.exit.region) else Done,
        o.state.tally.log, o.state.tally.counter, o.state.timeouts, o.state.alarm,
        FileStreams(outDir, false))
  }

  /**
   * The loop over the gene clusters of one region (igia/skeleton.py:192-201),
   * cut short after `budget` actions when the region is interrupted.
   */
  method ProcessClusters(f: OutputHandle, clusters: seq<Cluster>, budget: nat, counter: nat)
    returns (next: nat)
    requires forall i :: 0 <= i < 10 ==> f.IsOpenStream(f.Streams()[i])
    modifies f`written
    ensures Tally(next, f.written) == Perform(Tally(counter, old(f.written)), clusters, budget)
  {
    next := counter;
    var done := 0;
    for j := 0 to |clusters|
      invariant done <= budget
      invariant forall i :: 0 <= i < 10 ==> f.IsOpenStream(f.Streams()[i])
      invariant Perform(Tally(counter, old(f.written)), clusters, budget)
             == Perform(Tally(next, f.written), clusters[j..], budget - done)
    {
      assert clusters[j..][1..] == clusters[j + 1..];
      if clusters[j].hasElement {
        if done == budget {
          return;
        }
        next := next + 1;
        done := done + 1;
        if done == budget {
          return;
        }
        ghost var before := f.written;
        assert f.Handles(Elements) == f.Streams()[..4];
        f.Write(Elements, next);
        done := done + 1;
        if done == budget {
          return;
        }
        assert f.Handles(Isoforms) == f.Streams()[4..];
        f.Write(Isoforms, next);
        done := done + 1;
        assert f.written == before + [ElementRecord(next), IsoformRecord(next)];
      }
    }
  }

  /**
   * One pass of the try-block (igia/skeleton.py:183-208): arm the alarm when a
   * timeout is configured, run the cluster loop, then cancel the alarm, or, if
   * it fired, append the timeout line. Another error leaves the state as the
   * interruption found it.
   */
  method ProcessRegion(f: OutputHandle, r: Region, timeOut: Option<nat>,
                       counter: nat, timeouts: seq<TimeoutNote>, alarm: Alarm)
    returns (counter': nat, timeouts': seq<TimeoutNote>, alarm': Alarm)
    requires forall i :: 0 <= i < 10 ==> f.IsOpenStream(f.Streams()[i])
    modifies f`written
    ensures State(Tally(counter', f.written), timeouts', alarm')
         == AfterRegion(State(Tally(counter, old(f.written)), timeouts, alarm), r, timeOut)
  {
    alarm' := Arm(alarm, timeOut);
    counter' := ProcessClusters(f, r.clusters, Budget(r, timeOut), counter);
    timeouts' := timeouts;
    if r.fate.Raises? {
      return;
    }
    if TimesOutUnder(r, timeOut) {
      timeouts' := timeouts + [NoteFor(timeOut.value, r)];
      alarm' := Idle;
    } else if timeOut.Some? {
      alarm' := Idle;
    }
  }

  /**
   * The region loop inside the with-block (igia/skeleton.py:182-208): each
   * region under the optional alarm, timeouts logged and passed over, and the
   * loop left at the first other error.
   */
  method ProcessRegions(f: OutputHandle, regions: seq<Region>, timeOut: Option<nat>)
    returns (status: Status, counter: nat, timeouts: seq<TimeoutNote>, alarm: Alarm)
    requires forall i :: 0 <= i < 10 ==> f.IsOpenStream(f.Streams()[i])
    requires f.written == []
    modifies f`written
    ensures
      var o := Loop(Start, regions, timeOut, 0);
      && status == (if o.exit.Fatal? then Failed(o.exit.region) else Done)
      && State(Tally(counter, f.written), timeouts, alarm) == o.state
  {
    counter, timeouts, alarm, status := 0, [], Idle, Done;
    var i := 0;
    while i < |regions| && status == Done
      invariant 0 <= i <= |regions|
      invariant forall i :: 0 <= i < 10 ==> f.IsOpenStream(f.Streams()[i])
      invariant status == Done || status.Failed?
      invariant status == Done ==>
        Loop(State(Tally(counter, f.written), timeouts, alarm), regions, timeOut, i)
        == Loop(Start, regions, timeOut, 0)
      invariant status.Failed? ==>
        Outcome(State(Tally(counter, f.written), timeouts, alarm), Fatal(status.region))
        == Loop(Start, regions, timeOut, 0)
      decreases |regions| - i, if status == Done then 1 else 0
    {
      counter, timeouts, alarm := ProcessRegion(f, regions[i], timeOut, counter, timeouts, alarm);
      if regions[i].fate.Raises? {
        status := Failed(i);
      } else {
        i := i + 1;
      }
    }
  }

  /**
   * `main` from the counter on: open the handle, run the regions, and close
   * the ten files on the way out, whatever ended the loop.
   */
  method ProcessLinkage(outDir: string, unopenable: set<string>, regions: seq<Region>, timeOut: Option<nat>)
    returns (res: RunResult)
    ensures res == Run(outDir, unopenable, regions, timeOut)
  {
    var f := new OutputHandle(outDir);
    var entered := f.Enter(unopenable);
    if entered.Failure? {
      assert f.Streams() == OpenedUpTo(outDir, FirstUnopenable(outDir, unopenable, 0).value);
      res := RunResult(NotOpened(entered.error), f.written, 0, [], Idle, f.Streams());
      return;
    }
    var status, clusterIndex, timeouts, alarm := ProcessRegions(f, regions, timeOut);
    f.Exit();
    assert f.Streams() == FileStreams(outDir, false);
    res := RunResult(status, f.written, clusterIndex, timeouts, alarm, f.Streams());
  }

  // ---------------------------------------------------------------------------
  // What a run guarantees

  /**
   * Once the handle is open, the with-statement closes all ten files, whichever
   * way the loop ends; the files are distinct and lie under the output directory.
   * If a file does not open, the ones opened before it stay open and no region is processed.
   */
  lemma RunClosesStreams(outDir: string, unopenable: set<string>, regions: seq<Region>, timeOut: Option<nat>)
    ensures
      var res := Run(outDir, unopenable, regions, timeOut);
      && |res.streams| == 10
      && (res.status.NotOpened? <==> exists i :: 0 <= i < 10 && PathOf(outDir, i) in unopenable)
      && (!res.status.NotOpened? ==>
            forall i :: 0 <= i < 10 ==> !res.streams[i].isOpen && res.streams[i].path == PathOf(outDir, i))
      && (res.status.NotOpened? ==> res.log == [] && res.counter == 0 && res.timeouts == [])
      && (forall i :: 0 <= i < 10 && res.streams[i].File? ==> outDir <= res.streams[i].path)
      && (forall i, j :: 0 <= i < j < 10 && res.streams[i].File? && res.streams[j].File? ==>
            res.streams[i].path != res.streams[j].path)
  {
    PathsDistinct(outDir);
  }

  /**
   * A handle whose k-th file will not open fails with that file's path: the
   * files before it stay open, the later fields stay unassigned, and nothing
   * is processed or written.
   */
  lemma RunNotOpened(outDir: string, unopenable: set<string>, regions: seq<Region>, timeOut: Option<nat>)
    requires FirstUnopenable(outDir, unopenable, 0).Some?
    ensures
      var res := Run(outDir, unopenable, regions, timeOut);
      var k := FirstUnopenable(outDir, unopenable, 0).value;
      && res.status == NotOpened(PathOf(outDir, k))
      && PathOf(outDir, k) in unopenable
      && (forall i :: 0 <= i < k ==> PathOf(outDir, i) !in unopenable)
      && (forall i :: 0 <= i < 10 ==>
            res.streams[i] == if i < k then File(PathOf(outDir, i), true) else Unset)
      && res.log == [] && res.counter == 0 && res.timeouts == [] && res.alarm == Idle
  {
  }

  /**
   * Names are c_1, c_2, ... in issue order across all regions: every record
   * is for a cluster k the counter reached, records follow the order of their
   * numbers, an isoform batch directly follows the element batch of the same
   * cluster, and no name tags two element batches or two isoform batches.
   */
  lemma RunNames(outDir: string, unopenable: set<string>, regions: seq<Region>, timeOut: Option<nat>)
    ensures
      var res := Run(outDir, unopenable, regions, timeOut);
      && (forall i :: 0 <= i < |res.log| ==> 1 <= res.log[i].cluster <= res.counter)
      && (forall i, j :: 0 <= i < j < |res.log| ==>
            res.log[i].cluster < res.log[j].cluster
            || (j == i + 1 && res.log[i] == ElementRecord(res.log[j].cluster)
                && res.log[j] == IsoformRecord(res.log[j].cluster)))
      && (forall j :: 0 <= j < |res.log| && res.log[j].group == Isoforms ==>
            j >= 1 && res.log[j - 1] == ElementRecord(res.log[j].cluster))
      && (forall i, j :: 0 <= i < j < |res.log| && res.log[i].group == res.log[j].group ==>
            res.log[i].Name() != res.log[j].Name())
  {
    var res := Run(outDir, unopenable, regions, timeOut);
    if !res.status.NotOpened? {
      LoopShaped(Start, regions, timeOut, 0);
    }
    ShapedNames(res.log, res.counter);
    ShapedOrdered(res.log, res.counter);
    ShapedIsoformAfterElement(res.log, res.counter);
    forall i, j | 0 <= i < j < |res.log| && res.log[i].group == res.log[j].group
      ensures res.log[i].Name() != res.log[j].Name()
    {
      ClusterNameInjective(res.log[i].cluster, res.log[j].cluster);
    }
  }

  /**
   * The run fails exactly when some region raises an error other than a
   * timeout, at the first such region; the timeout log then holds one line per
   * region that timed out before it, in order.
   */
  lemma RunExitAndTimeouts(outDir: string, unopenable: set<string>, regions: seq<Region>, timeOut: Option<nat>)
    requires FirstUnopenable(outDir, unopenable, 0).None?
    ensures
      var res := Run(outDir, unopenable, regions, timeOut);
      && (res.status.Failed? <==> exists j :: 0 <= j < |regions| && regions[j].fate.Raises?)
      && (res.status.Failed? ==> FirstRaise(regions, 0) == Some(res.status.region))
      && res.timeouts == TimeoutLines(regions[..StopIndex(regions, 0)], timeOut)
  {
    LoopExit(Start, regions, timeOut, 0);
    LoopTimeouts(Start, regions, timeOut, 0);
  }

  /**
   * Without a configured timeout the alarm is never touched and nothing is
   * logged as a timeout. With one, a run that ends normally leaves no alarm
   * behind; a run ended by another error leaves its last region's alarm pending.
   */
  lemma RunAlarm(outDir: string, unopenable: set<string>, regions: seq<Region>, timeOut: Option<nat>)
    requires FirstUnopenable(outDir, unopenable, 0).None?
    ensures
      var res := Run(outDir, unopenable, regions, timeOut);
      && (timeOut.None? ==> res.alarm == Idle && res.timeouts == [])
      && (timeOut.Some? && res.status == Done ==> res.alarm == Idle)
      && (res.status.Failed? ==> res.alarm == Arm(Idle, timeOut))
      && (AlarmCanFire(timeOut) && res.status.Failed? ==> res.alarm == Pending(timeOut.value))
  {
    LoopAlarm(Start, regions, timeOut, 0);
    LoopTimeouts(Start, regions, timeOut, 0);
    if timeOut.None? {
      NoTimeoutLines(regions[..StopIndex(regions, 0)], timeOut);
    }
  }

  lemma {:induction false} NoTimeoutLines(rs: seq<Region>, timeOut: Option<nat>)
    requires !AlarmCanFire(timeOut)
    ensures TimeoutLines(rs, timeOut) == []
    decreases |rs|
  {
    if rs != [] {
      NoTimeoutLines(rs[1..], timeOut);
    }
  }

  /**
   * A run in which no region is interrupted names every cluster that has
   * elements, c_1 to c_n with n their number over all regions, and writes the
   * element batch and then the isoform batch of each.
   */
  lemma RunUninterrupted(outDir: string, unopenable: set<string>, regions: seq<Region>, timeOut: Option<nat>)
    requires FirstUnopenable(outDir, unopenable, 0).None?
    requires forall j :: 0 <= j < |regions| ==> !regions[j].fate.Raises? && !TimesOutUnder(regions[j], timeOut)
    ensures
      var res := Run(outDir, unopenable, regions, timeOut);
      && res.status == Done
      && res.counter == TotalNonEmpty(regions)
      && res.log == Batches(0, res.counter)
      && res.timeouts == []
  {
    LoopComplete(Start, regions, timeOut, 0);
    assert regions[0..] == regions;
  }

  /**
   * Three regions, the second one timing out while its only cluster has its
   * name and its element batch but no isoform batch yet. The run goes on, the
   * third region's clusters get c_3 (the empty one gets nothing), and the
   * element record of c_2 stays in the output: a timeout does not roll back.
   */
  lemma TimeoutKeepsPartialRegion(outDir: string)
    ensures
      var one := [Cluster(true)];
      var r1 := Region("chr1", 100, 200, one, Completes);
      var r2 := Region("chr1", 300, 400, one, TimesOut(2));
      var r3 := Region("chr2", 10, 20, [Cluster(false), Cluster(true)], Completes);
      var res := Run(outDir, {}, [r1, r2, r3], Some(1));
      && res.status == Done
      && res.counter == 3
      && res.log == [ElementRecord(1), IsoformRecord(1), ElementRecord(2), ElementRecord(3), IsoformRecord(3)]
      && res.timeouts == [NoteFor(1, r2)]
  {
    var one := [Cluster(true)];
    var r1 := Region("chr1", 100, 200, one, Completes);
    var r2 := Region("chr1", 300, 400, one, TimesOut(2));
    var r3 := Region("chr2", 10, 20, [Cluster(false), Cluster(true)], Completes);
    var rs := [r1, r2, r3];
    var to := Some(1);
    assert FirstUnopenable(outDir, {}, 0).None?;
    var t1 := Tally(1, [ElementRecord(1), IsoformRecord(1)]);
    var t2 := Tally(2, [ElementRecord(1), IsoformRecord(1), ElementRecord(2)]);
    var t3 := Tally(3, [ElementRecord(1), IsoformRecord(1), ElementRecord(2), ElementRecord(3), IsoformRecord(3)]);
    ScenarioTallies();
    assert AfterRegion(Start, r1, to) == State(t1, [], Idle);
    assert Loop(Start, rs, to, 0) == Loop(State(t1, [], Idle), rs, to, 1);
    assert Budget(r2, to) == 2;
    var lines: seq<TimeoutNote> := [];
    assert lines + [NoteFor(1, r2)] == [NoteFor(1, r2)];
    assert AfterRegion(State(t1, [], Idle), r2, to) == State(t2, [NoteFor(1, r2)], Idle);
    assert Loop(State(t1, [], Idle), rs, to, 1) == Loop(State(t2, [NoteFor(1, r2)], Idle), rs, to, 2);
    assert Loop(State(t2, [NoteFor(1, r2)], Idle), rs, to, 2)
        == Outcome(State(t3, [NoteFor(1, r2)], Idle), Finished);
  }

  /**
   * Two regions, the first timing out right after its cluster took the name
   * c_1 and before anything was written. The counter has moved on, so the
   * second region's cluster is c_2: the output carries no record named c_1,
   * and the names written are not c_1..c_n without gaps.
   */
  lemma TimeoutSkipsName(outDir: string)
    ensures
      var one := [Cluster(true)];
      var r1 := Region("chr1", 0, 10, one, TimesOut(1));
      var r2 := Region("chr1", 20, 30, one, Completes);
      var res := Run(outDir, {}, [r1, r2], Some(5));
      && res.status == Done
      && res.counter == 2
      && res.log == [ElementRecord(2), IsoformRecord(2)]
      && res.timeouts == [NoteFor(5, r1)]
      && (forall i :: 0 <= i < |res.log| ==> res.log[i].Name() != ClusterName(1))
  {
    var one := [Cluster(true)];
    var r1 := Region("chr1", 0, 10, one, TimesOut(1));
    var r2 := Region("chr1", 20, 30, one, Completes);
    var rs := [r1, r2];
    var to := Some(5);
    assert FirstUnopenable(outDir, {}, 0).None?;
    var t1 := Tally(1, []);
    var t2 := Tally(2, [ElementRecord(2), IsoformRecord(2)]);
    assert Perform(Tally(0, []), one, 1) == t1;
    assert Perform(t1, one, 3) == t2;
    var notes: seq<TimeoutNote> := [];
    assert notes + [NoteFor(5, r1)] == [NoteFor(5, r1)];
    assert Loop(Start, rs, to, 0) == Loop(State(t1, [NoteFor(5, r1)], Idle), rs, to, 1);
    assert Loop(State(t1, [NoteFor(5, r1)], Idle), rs, to, 1)
        == Outcome(State(t2, [NoteFor(5, r1)], Idle), Finished);
    ClusterNameInjective(2, 1);
  }

  /** The cluster loop of each region of the three-region scenario of TimeoutKeepsPartialRegion. */
  lemma ScenarioTallies()
    ensures Perform(Tally(0, []), [Cluster(true)], 3) == Tally(1, [ElementRecord(1), IsoformRecord(1)])
    ensures Perform(Tally(1, [ElementRecord(1), IsoformRecord(1)]), [Cluster(true)], 2)
         == Tally(2, [ElementRecord(1), IsoformRecord(1), ElementRecord(2)])
    ensures Perform(Tally(2, [ElementRecord(1), IsoformRecord(1), ElementRecord(2)]), [Cluster(false), Cluster(true)], 3)
         == Tally(3, [ElementRecord(1), IsoformRecord(1), ElementRecord(2), ElementRecord(3), IsoformRecord(3)])
  {
    assert [Cluster(false), Cluster(true)][1..] == [Cluster(true)];
  }
}
