/**
 * The region loop of `main` (igia/skeleton.py:180-208) as a specification on values.
 *
 * The linkage collaborator yields regions; the element collaborator splits a
 * region into gene clusters. For every cluster that has elements the loop bumps
 * the run-wide counter, names the cluster "c_<n>", writes the cluster's element
 * batch, asks for its transcripts and writes the isoform batch under the same
 * name. Three actions per non-empty cluster: assign the name, write elements,
 * write isoforms.
 *
 * What the collaborators and the clock do is an input of the model: a region's
 * Fate says whether it runs to the end, or after how many actions the alarm
 * fires or some other exception is raised. Nothing done before the interruption
 * is undone.
 */
module RegionLoop {
  import opened Basics
  import opened Names
  import opened Output

  datatype Cluster = Cluster(hasElement: bool)

  /** How a region's processing ends; `after` counts the actions done before the interruption. */
  datatype Fate = Completes | TimesOut(after: nat) | Raises(after: nat)

  datatype Region = Region(chrom: string, start: nat, end: nat, clusters: seq<Cluster>, fate: Fate)

  /** The SIGALRM timer of the process: nothing scheduled, or an alarm due in some seconds. */
  datatype Alarm = Idle | Pending(seconds: nat)

  /** The cluster counter and everything written through the output handle so far. */
  datatype Tally = Tally(counter: nat, log: seq<Record>)

  function ElementRecord(n: nat): Record {
    Record(Elements, n)
  }

  function IsoformRecord(n: nat): Record {
    Record(Isoforms, n)
  }

  function CountNonEmpty(cs: seq<Cluster>): nat {
    if cs == [] then 0 else (if cs[0].hasElement then 1 else 0) + CountNonEmpty(cs[1..])
  }

  /** The clusters that have elements, in discovery order. */
  function NonEmpty(cs: seq<Cluster>): seq<Cluster> {
    if cs == [] then [] else (if cs[0].hasElement then [cs[0]] else []) + NonEmpty(cs[1..])
  }

  /** Number of actions of a region that runs to its end. */
  function ActionCount(cs: seq<Cluster>): nat {
    3 * CountNonEmpty(cs)
  }

  /**
   * The cluster loop (igia/skeleton.py:192-201) run for at most `budget` actions.
   * Clusters without elements are passed over without any effect.
   */
  function Perform(t: Tally, cs: seq<Cluster>, budget: nat): Tally
    decreases |cs|
  {
    if cs == [] then t
    else if !cs[0].hasElement then Perform(t, cs[1..], budget)
    else if budget == 0 then t
    else
      var n := t.counter + 1;
      if budget == 1 then Tally(n, t.log)
      else if budget == 2 then Tally(n, t.log + [ElementRecord(n)])
      else Perform(Tally(n, t.log + [ElementRecord(n), IsoformRecord(n)]), cs[1..], budget - 3)
  }

  /** The alarm can only fire if a positive timeout is configured: signal.alarm(0) schedules nothing. */
  predicate AlarmCanFire(timeOut: Option<nat>) {
    timeOut.Some? && timeOut.value > 0
  }

  predicate TimesOutUnder(r: Region, timeOut: Option<nat>) {
    r.fate.TimesOut? && AlarmCanFire(timeOut)
  }

  /** Actions the region gets done before it is interrupted. */
  function Budget(r: Region, timeOut: Option<nat>): nat {
    match r.fate
    case Completes => ActionCount(r.clusters)
    case TimesOut(k) => if AlarmCanFire(timeOut) then k else ActionCount(r.clusters)
    case Raises(k) => k
  }

  /** signal.alarm(time_out) at the start of a region, done only when a timeout is configured. */
  function Arm(a: Alarm, timeOut: Option<nat>): Alarm {
    match timeOut
    case None => a
    case Some(t) => if t > 0 then Pending(t) else Idle
  }

  /**
   * One entry of igia_debug_timeout.log: the configured timeout and the region
   * that ran out of it; Line() is the text the handler appends for it.
   */
  datatype TimeoutNote = TimeoutNote(seconds: nat, chrom: string, start: nat, end: nat) {
    function Line(): string {
      "TimeOut (" + NatToString(seconds) + "s): " + chrom + "\t" + NatToString(start)
        + "\t" + NatToString(end) + "\n"
    }
  }

  function NoteFor(seconds: nat, r: Region): TimeoutNote {
    TimeoutNote(seconds, r.chrom, r.start, r.end)
  }

  datatype State = State(tally: Tally, timeouts: seq<TimeoutNote>, alarm: Alarm)

  /** Fatal(i): region i raised something other than a timeout and the loop was left. */
  datatype Exit = Finished | Fatal(region: nat)

  datatype Outcome = Outcome(state: State, exit: Exit)

  /**
   * The state after one region (igia/skeleton.py:183-208): the cluster loop up
   * to the interruption, then either the alarm cancelled by alarm(0), the
   * timeout line appended by the handler, or, for any other error, nothing more.
   */
  function AfterRegion(s: State, r: Region, timeOut: Option<nat>): State {
    var t := Perform(s.tally, r.clusters, Budget(r, timeOut));
    if r.fate.Raises? then State(t, s.timeouts, Arm(s.alarm, timeOut))
    else if TimesOutUnder(r, timeOut) then State(t, s.timeouts + [NoteFor(timeOut.value, r)], Idle)
    else State(t, s.timeouts, if timeOut.Some? then Idle else s.alarm)
  }

  /** The region loop from region i on; only a non-timeout error leaves it early. */
  function Loop(s: State, regions: seq<Region>, timeOut: Option<nat>, i: nat): Outcome
    requires i <= |regions|
    decreases |regions| - i
  {
    if i == |regions| then Outcome(s, Finished)
    else
      var s' := AfterRegion(s, regions[i], timeOut);
      if regions[i].fate.Raises? then Outcome(s', Fatal(i)) else Loop(s', regions, timeOut, i + 1)
  }

  // ---------------------------------------------------------------------------
  // Reference definitions

  /**
   * The shape of the output log after the counter has reached n: the batches of
   * clusters 1..n in order, where cluster k contributed nothing, its element
   * record, or its element record followed by its isoform record.
   */
  predicate Shaped(log: seq<Record>, n: nat)
    decreases n
  {
    if n == 0 then log == []
    else
      || Shaped(log, n - 1)
      || (|log| >= 1 && log[|log| - 1] == ElementRecord(n) && Shaped(log[..|log| - 1], n - 1))
      || (&& |log| >= 2 && log[|log| - 2] == ElementRecord(n) && log[|log| - 1] == IsoformRecord(n)
          && Shaped(log[..|log| - 2], n - 1))
  }

  /** The complete batches of clusters from+1..to: element record, then isoform record, each. */
  function Batches(from: nat, to: nat): seq<Record>
    decreases to
  {
    if to <= from then [] else Batches(from, to - 1) + [ElementRecord(to), IsoformRecord(to)]
  }

  /** The tally after m more clusters were each named and given both batches. */
  function Completed(t: Tally, m: nat): Tally {
    Tally(t.counter + m, t.log + Batches(t.counter, t.counter + m))
  }

  function TotalNonEmpty(rs: seq<Region>): nat {
    if rs == [] then 0 else CountNonEmpty(rs[0].clusters) + TotalNonEmpty(rs[1..])
  }

  /** The timeout lines of the regions in rs, in order. */
  function TimeoutLines(rs: seq<Region>, timeOut: Option<nat>): seq<TimeoutNote> {
    if rs == [] then [] else
    var line := if TimesOutUnder(rs[0], timeOut) then [NoteFor(timeOut.value, rs[0])] else [];
    line + TimeoutLines(rs[1..], timeOut)
  }

  /** Index of the first region from i on that raises a non-timeout error. */
  function FirstRaise(rs: seq<Region>, i: nat): (r: Option<nat>)
    requires i <= |rs|
    ensures r.Some? ==> i <= r.value < |rs| && rs[r.value].fate.Raises?
    ensures forall j :: i <= j < |rs| && (r.None? || j < r.value) ==> !rs[j].fate.Raises?
    decreases |rs| - i
  {
    if i == |rs| then None else if rs[i].fate.Raises? then Some(i) else FirstRaise(rs, i + 1)
  }

  // ---------------------------------------------------------------------------
  // The cluster loop

  /** Running the cluster loop keeps the log in shape, whatever the interruption point. */
  lemma {:induction false} PerformShaped(t: Tally, cs: seq<Cluster>, budget: nat)
    requires Shaped(t.log, t.counter)
    ensures Shaped(Perform(t, cs, budget).log, Perform(t, cs, budget).counter)
    decreases |cs|
  {
    if cs == [] {
    } else if !cs[0].hasElement {
      PerformShaped(t, cs[1..], budget);
    } else if budget == 0 {
    } else {
      var n := t.counter + 1;
      if budget == 1 {
        assert Shaped(t.log, n);
      } else if budget == 2 {
        var log := t.log + [ElementRecord(n)];
        assert log[..|log| - 1] == t.log;
        assert Shaped(log, n);
      } else {
        var log := t.log + [ElementRecord(n), IsoformRecord(n)];
        assert log[..|log| - 2] == t.log;
        assert Shaped(log, n);
        PerformShaped(Tally(n, log), cs[1..], budget - 3);
      }
    }
  }

  /**
   * The cluster loop only moves forward: the counter grows by at most the number
   * of non-empty clusters, earlier records are kept, and each newly named
   * cluster adds at most its two batches.
   */
  lemma {:induction false} PerformGrows(t: Tally, cs: seq<Cluster>, budget: nat)
    ensures
      var r := Perform(t, cs, budget);
      && t.counter <= r.counter <= t.counter + CountNonEmpty(cs)
      && t.log <= r.log
      && |r.log| - |t.log| <= 2 * (r.counter - t.counter)
    decreases |cs|
  {
    if cs == [] {
    } else if !cs[0].hasElement {
      PerformGrows(t, cs[1..], budget);
    } else if budget >= 3 {
      var n := t.counter + 1;
      PerformGrows(Tally(n, t.log + [ElementRecord(n), IsoformRecord(n)]), cs[1..], budget - 3);
    }
  }

  /**
   * A region that runs to its end names each of its non-empty clusters once,
   * with the next free numbers, and writes for each its element batch followed
   * by its isoform batch.
   */
  lemma {:induction false} PerformComplete(t: Tally, cs: seq<Cluster>, budget: nat)
    requires budget >= ActionCount(cs)
    ensures Perform(t, cs, budget) ==
      Tally(t.counter + CountNonEmpty(cs), t.log + Batches(t.counter, t.counter + CountNonEmpty(cs)))
    decreases |cs|
  {
    if cs == [] {
    } else if !cs[0].hasElement {
      PerformComplete(t, cs[1..], budget);
    } else {
      var n := t.counter + 1;
      var m := CountNonEmpty(cs[1..]);
      PerformComplete(Tally(n, t.log + [ElementRecord(n), IsoformRecord(n)]), cs[1..], budget - 3);
      BatchesAppend(t.counter, n, n + m);
      assert Batches(t.counter, n) == [ElementRecord(n), IsoformRecord(n)];
    }
  }

  /**
   * A region interrupted after k actions, before its last one: each non-empty
   * cluster before the interrupted one has its name and both batches, and the
   * interrupted cluster has nothing (k mod 3 = 0), its name (k mod 3 = 1), or
   * its name and its element batch (k mod 3 = 2).
   */
  lemma {:induction false} PerformPartial(t: Tally, cs: seq<Cluster>, k: nat)
    requires k < ActionCount(cs)
    ensures
      var d := Completed(t, k / 3);
      Perform(t, cs, k) == (
        if k % 3 == 0 then d
        else if k % 3 == 1 then Tally(d.counter + 1, d.log)
        else Tally(d.counter + 1, d.log + [ElementRecord(d.counter + 1)]))
    decreases |cs|
  {
    if !cs[0].hasElement {
      PerformPartial(t, cs[1..], k);
    } else if k >= 3 {
      var n := t.counter + 1;
      assert Batches(t.counter, n) == [ElementRecord(n), IsoformRecord(n)];
      PerformPartial(Completed(t, 1), cs[1..], k - 3);
      CompletedTwice(t, 1, (k - 3) / 3);
    } else {
      assert Completed(t, 0) == t;
    }
  }

  /** Clusters without elements have no effect: the loop acts as if only the non-empty ones existed. */
  lemma {:induction false} EmptyClustersIgnored(t: Tally, cs: seq<Cluster>, budget: nat)
    ensures Perform(t, cs, budget) == Perform(t, NonEmpty(cs), budget)
    decreases |cs|
  {
    if cs != [] {
      if cs[0].hasElement {
        var ne := NonEmpty(cs);
        assert ne[0] == cs[0] && ne[1..] == NonEmpty(cs[1..]);
        if budget >= 3 {
          var n := t.counter + 1;
          EmptyClustersIgnored(Tally(n, t.log + [ElementRecord(n), IsoformRecord(n)]), cs[1..], budget - 3);
        }
      } else {
        assert NonEmpty(cs) == NonEmpty(cs[1..]);
        EmptyClustersIgnored(t, cs[1..], budget);
      }
    }
  }

  lemma {:induction false} NonEmptyCount(cs: seq<Cluster>)
    ensures |NonEmpty(cs)| == CountNonEmpty(cs)
    ensures forall c :: c in NonEmpty(cs) ==> c in cs && c.hasElement
    decreases |cs|
  {
    if cs != [] {
      NonEmptyCount(cs[1..]);
    }
  }

  lemma {:induction false} BatchesAppend(a: nat, b: nat, c: nat)
    requires a <= b <= c
    ensures Batches(a, b) + Batches(b, c) == Batches(a, c)
    decreases c
  {
    if c > b {
      BatchesAppend(a, b, c - 1);
      assert Batches(a, b) + Batches(b, c)
          == (Batches(a, b) + Batches(b, c - 1)) + [ElementRecord(c), IsoformRecord(c)];
    }
  }

  // ---------------------------------------------------------------------------
  // Properties of a shaped log: the names c_1, c_2, ... in issue order, no reuse

  /** Every record is for a cluster k the counter has reached, so it carries the name c_k with 1 <= k <= n. */
  lemma {:induction false} ShapedNames(log: seq<Record>, n: nat)
    requires Shaped(log, n)
    ensures forall i :: 0 <= i < |log| ==> 1 <= log[i].cluster <= n
    decreases n
  {
    if n > 0 {
      if Shaped(log, n - 1) {
        ShapedNames(log, n - 1);
      } else if |log| >= 1 && log[|log| - 1] == ElementRecord(n) && Shaped(log[..|log| - 1], n - 1) {
        ShapedNames(log[..|log| - 1], n - 1);
      } else {
        ShapedNames(log[..|log| - 2], n - 1);
      }
    }
  }

  /**
   * Records appear in the order the names were issued; two records of the same
   * cluster are its element record immediately followed by its isoform record.
   */
  lemma {:induction false} ShapedOrdered(log: seq<Record>, n: nat)
    requires Shaped(log, n)
    ensures forall i, j :: 0 <= i < j < |log| ==>
      || log[i].cluster < log[j].cluster
      || (j == i + 1 && log[i] == ElementRecord(log[j].cluster) && log[j] == IsoformRecord(log[j].cluster))
    decreases n
  {
    if n > 0 {
      if Shaped(log, n - 1) {
        ShapedOrdered(log, n - 1);
      } else if |log| >= 1 && log[|log| - 1] == ElementRecord(n) && Shaped(log[..|log| - 1], n - 1) {
        var p := log[..|log| - 1];
        ShapedOrdered(p, n - 1);
        ShapedNames(p, n - 1);
        assert forall i :: 0 <= i < |p| ==> log[i] == p[i];
      } else {
        var p := log[..|log| - 2];
        ShapedOrdered(p, n - 1);
        ShapedNames(p, n - 1);
        assert forall i :: 0 <= i < |p| ==> log[i] == p[i];
      }
    }
  }

  /** No record is written twice: a name tags at most one element batch and one isoform batch. */
  lemma ShapedNoRepeats(log: seq<Record>, n: nat)
    requires Shaped(log, n)
    ensures forall i, j :: 0 <= i < j < |log| ==> log[i] != log[j]
  {
    ShapedOrdered(log, n);
  }

  /** An isoform batch is always directly preceded by the element batch of the same cluster. */
  lemma {:induction false} ShapedIsoformAfterElement(log: seq<Record>, n: nat)
    requires Shaped(log, n)
    ensures forall j :: 0 <= j < |log| && log[j].group == Isoforms ==>
      j >= 1 && log[j - 1] == ElementRecord(log[j].cluster)
    decreases n
  {
    if n > 0 {
      if Shaped(log, n - 1) {
        ShapedIsoformAfterElement(log, n - 1);
      } else if |log| >= 1 && log[|log| - 1] == ElementRecord(n) && Shaped(log[..|log| - 1], n - 1) {
        var p := log[..|log| - 1];
        ShapedIsoformAfterElement(p, n - 1);
        assert forall i :: 0 <= i < |p| ==> log[i] == p[i];
      } else {
        var p := log[..|log| - 2];
        ShapedIsoformAfterElement(p, n - 1);
        assert forall i :: 0 <= i < |p| ==> log[i] == p[i];
      }
    }
  }

  /** The complete batches are a shaped log. */
  lemma {:induction false} BatchesShaped(n: nat)
    ensures Shaped(Batches(0, n), n)
    decreases n
  {
    if n > 0 {
      BatchesShaped(n - 1);
      var log := Batches(0, n);
      assert log[..|log| - 2] == Batches(0, n - 1);
    }
  }

  // ---------------------------------------------------------------------------
  // The region loop

  /** The counter lives outside the region loop: the log stays in shape across all regions. */
  lemma {:induction false} LoopShaped(s: State, regions: seq<Region>, timeOut: Option<nat>, i: nat)
    requires i <= |regions|
    requires Shaped(s.tally.log, s.tally.counter)
    ensures Shaped(Loop(s, regions, timeOut, i).state.tally.log, Loop(s, regions, timeOut, i).state.tally.counter)
    decreases |regions| - i
  {
    if i < |regions| {
      var r := regions[i];
      PerformShaped(s.tally, r.clusters, Budget(r, timeOut));
      if !r.fate.Raises? {
        LoopShaped(AfterRegion(s, r, timeOut), regions, timeOut, i + 1);
      }
    }
  }

  /**
   * Only a non-timeout error leaves the loop, at the first region that raises one;
   * without such a region every region is processed.
   */
  lemma {:induction false} LoopExit(s: State, regions: seq<Region>, timeOut: Option<nat>, i: nat)
    requires i <= |regions|
    ensures Loop(s, regions, timeOut, i).exit ==
      match FirstRaise(regions, i) case Some(j) => Fatal(j) case None => Finished
    decreases |regions| - i
  {
    if i < |regions| && !regions[i].fate.Raises? {
      LoopExit(AfterRegion(s, regions[i], timeOut), regions, timeOut, i + 1);
    }
  }

  /** Where the loop stops: at the first raising region (included) or at the end. */
  function StopIndex(regions: seq<Region>, i: nat): (k: nat)
    requires i <= |regions|
    ensures i <= k <= |regions|
  {
    match FirstRaise(regions, i) case Some(j) => j + 1 case None => |regions|
  }

  /**
   * The timeout log gains exactly one line per region that timed out, in region
   * order, and nothing else; the loop itself goes on with the next region.
   */
  lemma {:induction false} LoopTimeouts(s: State, regions: seq<Region>, timeOut: Option<nat>, i: nat)
    requires i <= |regions|
    ensures Loop(s, regions, timeOut, i).state.timeouts ==
      s.timeouts + TimeoutLines(regions[i..StopIndex(regions, i)], timeOut)
    decreases |regions| - i
  {
    if i == |regions| {
      assert regions[i..StopIndex(regions, i)] == [];
    } else {
      var r := regions[i];
      var rs := regions[i..StopIndex(regions, i)];
      if r.fate.Raises? {
        assert rs == [r];
        assert TimeoutLines(rs, timeOut) == [] + TimeoutLines(rs[1..], timeOut);
      } else {
        assert StopIndex(regions, i) == StopIndex(regions, i + 1);
        assert rs[0] == r && rs[1..] == regions[i + 1..StopIndex(regions, i + 1)];
        LoopTimeouts(AfterRegion(s, r, timeOut), regions, timeOut, i + 1);
      }
    }
  }

  /**
   * Without a timeout the alarm is never touched. With one, every region that
   * finishes normally cancels its alarm, and a region that times out has used it
   * up; only a fatal error leaves the alarm of its region pending.
   */
  lemma {:induction false} LoopAlarm(s: State, regions: seq<Region>, timeOut: Option<nat>, i: nat)
    requires i <= |regions|
    ensures timeOut.None? ==> Loop(s, regions, timeOut, i).state.alarm == s.alarm
    ensures timeOut.Some? && i < |regions| && Loop(s, regions, timeOut, i).exit.Finished? ==>
      Loop(s, regions, timeOut, i).state.alarm == Idle
    ensures Loop(s, regions, timeOut, i).exit.Fatal? ==>
      Loop(s, regions, timeOut, i).state.alarm == (if timeOut.None? then s.alarm else Arm(Idle, timeOut))
    ensures AlarmCanFire(timeOut) && Loop(s, regions, timeOut, i).exit.Fatal? ==>
      Loop(s, regions, timeOut, i).state.alarm == Pending(timeOut.value)
    decreases |regions| - i
  {
    if i < |regions| && !regions[i].fate.Raises? {
      LoopAlarm(AfterRegion(s, regions[i], timeOut), regions, timeOut, i + 1);
    }
  }

  /**
   * A run in which no region is interrupted names every non-empty cluster of
   * every region, c_1 up to c_n in order, and writes both batches of each.
   */
  lemma {:induction false} LoopComplete(s: State, regions: seq<Region>, timeOut: Option<nat>, i: nat)
    requires i <= |regions|
    requires forall j :: i <= j < |regions| ==> !regions[j].fate.Raises? && !TimesOutUnder(regions[j], timeOut)
    ensures Loop(s, regions, timeOut, i).exit == Finished
    ensures Loop(s, regions, timeOut, i).state.tally == Completed(s.tally, TotalNonEmpty(regions[i..]))
    ensures Loop(s, regions, timeOut, i).state.timeouts == s.timeouts
    decreases |regions| - i
  {
    if i == |regions| {
      assert regions[i..] == [];
    } else {
      var c := s.tally.counter;
      var m := CountNonEmpty(regions[i].clusters);
      var s' := State(Completed(s.tally, m), s.timeouts, if timeOut.Some? then Idle else s.alarm);
      LoopStepCompletes(s, regions, timeOut, i);
      LoopComplete(s', regions, timeOut, i + 1);
      TotalNonEmptyStep(regions, i);
      CompletedTwice(s.tally, m, TotalNonEmpty(regions[i + 1..]));
    }
  }

  /** One region that is not interrupted: all its batches are written and the loop moves on. */
  lemma LoopStepCompletes(s: State, regions: seq<Region>, timeOut: Option<nat>, i: nat)
    requires i < |regions| && !regions[i].fate.Raises? && !TimesOutUnder(regions[i], timeOut)
    ensures
      var c := s.tally.counter;
      var m := CountNonEmpty(regions[i].clusters);
      Loop(s, regions, timeOut, i)
      == Loop(State(Completed(s.tally, m), s.timeouts, if timeOut.Some? then Idle else s.alarm),
              regions, timeOut, i + 1)
  {
    var r := regions[i];
    assert Budget(r, timeOut) == ActionCount(r.clusters);
    PerformComplete(s.tally, r.clusters, Budget(r, timeOut));
  }

  lemma TotalNonEmptyStep(regions: seq<Region>, i: nat)
    requires i < |regions|
    ensures TotalNonEmpty(regions[i..]) == CountNonEmpty(regions[i].clusters) + TotalNonEmpty(regions[i + 1..])
  {
    assert regions[i..][1..] == regions[i + 1..];
  }

  /** Completing m clusters and then m' more is completing m + m'. */
  lemma CompletedTwice(t: Tally, m: nat, m': nat)
    ensures Completed(Completed(t, m), m') == Completed(t, m + m')
  {
    BatchesAppend(t.counter, t.counter + m, t.counter + m + m');
    assert (t.log + Batches(t.counter, t.counter + m)) + Batches(t.counter + m, t.counter + m + m')
        == t.log + (Batches(t.counter, t.counter + m) + Batches(t.counter + m, t.counter + m + m'));
  }

  /**
   * A timeout ends only its own region: the loop goes on with the next region
   * from the state the interrupted one left, keeping the names it issued and the
   * records it wrote.
   */
  lemma TimeoutContinues(s: State, regions: seq<Region>, timeOut: Option<nat>, i: nat)
    requires i < |regions| && TimesOutUnder(regions[i], timeOut)
    ensures
      var r := regions[i];
      var t := Perform(s.tally, r.clusters, r.fate.after);
      && s.tally.log <= t.log && s.tally.counter <= t.counter
      && Loop(s, regions, timeOut, i)
         == Loop(State(t, s.timeouts + [NoteFor(timeOut.value, r)], Idle), regions, timeOut, i + 1)
  {
    PerformGrows(s.tally, regions[i].clusters, regions[i].fate.after);
  }
}
