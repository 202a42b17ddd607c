# IGIA cluster numbering and output handle

This project models the driver loop of IGIA (`igia/skeleton.py`). The linkage
step yields genomic regions. Inside one `OutputHandle` with-block, each region is
split into gene clusters. Every cluster that has elements gets the next name `c_<n>`
from a run-wide counter. Its element records (four BED6 files) are written under
that name, and then its isoform records (six BED12 files). An optional per-region
alarm (`signal.alarm(time_out)`) can interrupt a region. The resulting `TimeOutError`
is caught, logged to `igia_debug_timeout.log`, and the loop goes on with the next
region. Any other error leaves the loop, and the with-statement closes the ten files.

Modules:

- `Basics` holds `Option` and `Result`.
- `Names` renders the counter as the label `c_<n>` and parses it back.
- `Output` is the `OutputHandle` class. Its ten stream fields `fIntron` … `fIsoP` are
  assigned by `Enter` and closed by `Close`. It also keeps an append-only log `written`
  of what the collaborators write through it: one `Record(group, cluster)` per batch.
- `RegionLoop` is the specification as pure functions:
  - `Perform` is the cluster loop of one region under an action budget.
  - `AfterRegion` and `Loop` are the region loop.
  - `Shaped` and `Batches` are reference definitions of a well-numbered log.
  - The lemmas about these functions.
- `Skeleton` holds the imperative methods (`ProcessClusters`, `ProcessRegion`,
  `ProcessRegions`, `ProcessLinkage`), each proved equal to the specification, and
  `Run`, the whole with-statement as a function. The lemmas on `Run` state what a
  run guarantees.

How interruptions are modelled: a region carries its `Fate`.

- `Completes`: the region runs to its end.
- `TimesOut(k)`: the alarm fires after `k` actions.
- `Raises(k)`: another error is raised after `k` actions.

The actions of a cluster with elements are: take the name (lines 195-196), write
the element batch (197), write the isoform batch (200-201). A `TimesOut` fate only
takes effect when a positive timeout is configured, because `signal.alarm(0)`
schedules nothing.

Where the code departs from what one might expect of such a pipeline, the model follows the code:

- A timed-out region keeps its partial output. The names it issued and the records
  it wrote stay; there is no all-or-nothing rollback (`Skeleton.TimeoutKeepsPartialRegion`).
- The code is sequential with one process-wide alarm. There are no parallel workers
  and no atomic counter; the counter is a local variable of `main`.
- Opening the handle is not atomic. If the k-th file fails to open, the files before
  it stay open, the error propagates, and `__exit__` is not run.
- On a non-timeout error the region's alarm is never cancelled. It is left pending
  (`Skeleton.RunAlarm`).
- The names in the output can have gaps. A timeout that strikes after a cluster
  took its number (line 195) and before its element batch was written (line 197)
  uses up that number, and no record carries it (`Skeleton.TimeoutSkipsName`).

## Model

| member | source | states |
|---|---|---|
| Names.ClusterName | igia/skeleton.py:196 | definition: the label "c_" followed by the decimal counter, as `"c_{0}".format(cluster_indx)` builds it |
| Names.NatToString | igia/skeleton.py:196 | the decimal rendering of the counter is a non-empty digit string with no leading zero for positive values |
| Names.NatStringRoundTrip | igia/skeleton.py:196 | parsing the decimal rendering of n gives back n |
| Names.ClusterNameRoundTrip | igia/skeleton.py:196 | the label "c_<n>" parses back to n |
| Names.ClusterNameInjective | igia/skeleton.py:195-196 | two counter values give the same label exactly when they are equal |
| Output.Join | igia/skeleton.py:96-105 | definition of `os.path.join` of the output directory and a file name: a separator is inserted unless the directory is empty or already ends with one |
| Output.PathOf | igia/skeleton.py:96-105 | definition: the path of the i-th file, the output directory joined with intron.bed6, internal_exon.bed6, tss_exon.bed6, tes_exon.bed6, isoF.bed12, isoA.bed12, isoR.bed12, isoM.bed12, isoC.bed12, isoP.bed12 in opening order |
| Output.FirstUnopenable | igia/skeleton.py:96-105 | finds the first of the ten files, in opening order, that will not open, or reports that all open |
| Output.JoinInjective | igia/skeleton.py:96-105 | joining one directory with two names gives the same path exactly when the names are equal |
| Output.PathsDistinct | igia/skeleton.py:96-105 | the ten paths lie under the output directory and are pairwise different |
| Output.OutputHandle.constructor | igia/skeleton.py:90-91 | a new handle keeps the output directory, has no stream assigned and nothing written |
| Output.OutputHandle.Enter | igia/skeleton.py:93-106 | if every file opens, all ten fields hold their own path, open, and the handle itself is returned; otherwise the files before the first refused one are open, the rest are untouched, and the refused path is the error |
| Output.OutputHandle.SetStream | igia/skeleton.py:96-105 | assigns exactly the i-th stream field and no other |
| Output.OutputHandle.ElementHandles | igia/skeleton.py:111-112 | element_handles is four streams, the first four fields in order |
| Output.OutputHandle.IsoformHandles | igia/skeleton.py:114-115 | isoform_handles is six streams, the last six fields in order |
| Output.OutputHandle.HandlesWhenOpen | igia/skeleton.py:111-115 | on an open handle, element_handles is the open files intron.bed6, internal_exon.bed6, tss_exon.bed6, tes_exon.bed6 in that order, and isoform_handles the open files isoF.bed12 … isoP.bed12 in that order |
| Output.OutputHandle.Write | igia/skeleton.py:197 | writing through a group whose streams are all open appends exactly that group's batch for the cluster |
| Output.OutputHandle.Close | igia/skeleton.py:117-127 | afterwards none of the ten streams is open, each keeps its path, and nothing written is lost |
| Output.OutputHandle.Exit | igia/skeleton.py:108-109 | leaving the with-block closes all ten streams, whatever ended it |
| RegionLoop.Perform | igia/skeleton.py:192-201 | definition of the cluster loop of one region cut off after a number of actions: clusters without elements are skipped; each other cluster increments the counter, then writes its element batch, then its isoform batch |
| RegionLoop.Budget | igia/skeleton.py:183-208 | definition of how many actions a region gets: all of them when it completes or when no alarm can fire, otherwise as many as precede the interruption |
| RegionLoop.Arm | igia/skeleton.py:184-186 | definition of the alarm after `signal.alarm(time_out)`: untouched without a timeout, pending for t seconds for t > 0, nothing scheduled for 0 |
| RegionLoop.TimeoutNote.Line | igia/skeleton.py:208 | definition of the line appended to igia_debug_timeout.log: "TimeOut (<t>s): " then chromosome, start and end separated by tabs, then a newline |
| RegionLoop.AfterRegion | igia/skeleton.py:183-208 | definition of one pass of the try-block: arm, run the cluster loop up to the interruption, then cancel the alarm, or log the timeout, or for another error leave the alarm as it is |
| RegionLoop.Loop | igia/skeleton.py:182-208 | definition of the region loop: every region in turn from one run-wide state, leaving at the first region that raises an error other than a timeout |
| RegionLoop.PerformGrows | igia/skeleton.py:192-201 | one region's cluster loop only moves forward: the counter grows by at most its number of non-empty clusters, earlier records are kept, and each new name adds at most two batches |
| RegionLoop.PerformShaped | igia/skeleton.py:192-201 | whatever the interruption point, a well-numbered log stays well numbered |
| RegionLoop.PerformComplete | igia/skeleton.py:195-201 | an uninterrupted region names each non-empty cluster with the next number and writes its element batch and then its isoform batch |
| RegionLoop.PerformPartial | igia/skeleton.py:195-201 | a region interrupted after k actions holds both batches of every non-empty cluster before the interrupted one; the interrupted cluster has its number and at most its element batch; nothing is rolled back |
| RegionLoop.EmptyClustersIgnored | igia/skeleton.py:193-194 | clusters without elements have no effect: the loop acts as if only the non-empty clusters existed |
| RegionLoop.NonEmptyCount | igia/skeleton.py:193-194 | the clusters taken are exactly the clusters that have elements, as many as counted |
| RegionLoop.Completed | igia/skeleton.py:195-201 | definition: the tally after m more clusters were each numbered and given their element batch and then their isoform batch |
| RegionLoop.CompletedTwice | igia/skeleton.py:192-201 | completing m clusters and then m' more is the same as completing m + m' |
| RegionLoop.BatchesAppend | igia/skeleton.py:192-201 | the complete batches of clusters a+1..b followed by those of b+1..c are those of a+1..c |
| RegionLoop.ShapedNames | igia/skeleton.py:195-196 | every record is for a cluster number between 1 and the counter |
| RegionLoop.ShapedOrdered | igia/skeleton.py:192-201 | records follow the order of their cluster numbers; two records of one cluster are its element batch directly followed by its isoform batch |
| RegionLoop.ShapedNoRepeats | igia/skeleton.py:195-201 | no batch is written twice |
| RegionLoop.ShapedIsoformAfterElement | igia/skeleton.py:197-201 | an isoform batch is directly preceded by the element batch of the same cluster |
| RegionLoop.BatchesShaped | igia/skeleton.py:192-201 | the complete batches of clusters 1..n are a well-numbered log |
| RegionLoop.LoopShaped | igia/skeleton.py:180-208 | the counter lives outside the region loop, so the log stays well numbered across all regions |
| RegionLoop.FirstRaise | igia/skeleton.py:205 | finds the first region that raises an error other than a timeout |
| RegionLoop.LoopExit | igia/skeleton.py:182-208 | the loop is left exactly when some region raises a non-timeout error, at the first such region |
| RegionLoop.LoopTimeouts | igia/skeleton.py:205-208 | the timeout log gains one entry per region that timed out, in region order, and nothing else |
| RegionLoop.LoopAlarm | igia/skeleton.py:184-204 | without a timeout the alarm is never touched; with one, a normally finished loop leaves no alarm, and a fatal error leaves its region's alarm pending |
| RegionLoop.LoopStepCompletes | igia/skeleton.py:183-204 | an uninterrupted region writes all its batches and the loop moves on to the next region |
| RegionLoop.LoopComplete | igia/skeleton.py:182-204 | without interruptions all non-empty clusters of all regions are named c_1..c_n in order, each with both batches, and nothing is logged as a timeout |
| RegionLoop.TimeoutContinues | igia/skeleton.py:205-208 | a timeout ends only its own region: the loop goes on from the names and records the region left, with one timeout entry added |
| Skeleton.Run | igia/skeleton.py:180-208 | definition of the whole with-statement: open the ten files or fail at the first refused one; otherwise run the region loop from counter 0 and close the ten files |
| Skeleton.ProcessClusters | igia/skeleton.py:192-201 | the cluster loop run on the handle gives exactly the counter and log of the specification, up to the interruption |
| Skeleton.ProcessRegion | igia/skeleton.py:183-208 | one pass of the try-block gives exactly the specified counter, log, timeout log and alarm |
| Skeleton.ProcessRegions | igia/skeleton.py:182-208 | the region loop gives exactly the specified outcome, including where it stops |
| Skeleton.ProcessLinkage | igia/skeleton.py:180-208 | the whole with-statement gives exactly `Run`: status, log, counter, timeout log, alarm and the final state of the ten files |
| Skeleton.RunClosesStreams | igia/skeleton.py:93-127 | the run fails to open exactly when one of the ten paths is refused; a handle that opened ends with all ten distinct files closed, each at its own path under the output directory |
| Skeleton.RunNotOpened | igia/skeleton.py:93-106 | when a file will not open, the run fails with the first refused path; the files before it stay open, the later fields stay unassigned, and nothing is processed |
| Skeleton.RunNames | igia/skeleton.py:180-201 | names are c_1, c_2, ... in issue order across all regions; an isoform batch follows its cluster's element batch; no name tags two batches of the same group |
| Skeleton.RunExitAndTimeouts | igia/skeleton.py:182-208 | the run fails exactly when a region raises a non-timeout error, at the first one; the timeout log lists the regions that timed out before it |
| Skeleton.RunAlarm | igia/skeleton.py:184-204 | without a timeout the alarm is never touched and nothing is logged; with one, a normal end leaves no alarm, and a fatal end leaves the alarm its last region armed (pending for a positive timeout, nothing for 0) |
| Skeleton.NoTimeoutLines | igia/skeleton.py:184-186 | with no alarm that can fire, no region is ever logged as timed out |
| Skeleton.RunUninterrupted | igia/skeleton.py:180-201 | a run with no interruption names every non-empty cluster of every region, c_1 to c_n, and writes both batches of each |
| Skeleton.TimeoutSkipsName | igia/skeleton.py:195-208 | a region that times out between taking the name c_1 and writing anything leaves no record named c_1, and the next cluster is c_2 |
| Skeleton.TimeoutKeepsPartialRegion | igia/skeleton.py:195-208 | in a three-region run whose second region times out after naming its cluster and writing its element batch, that record stays, the run goes on, and the third region's cluster is c_3 |

## Left out

- Argument parsing, `parse_args`, `setup_logging`, and the `_logger` and `print` calls (igia/skeleton.py:25-86, 187, 190, 199, 202, 206): configuration and output with no logic of their own.
- `check_paraclu` (igia/skeleton.py:135-143) and `os.makedirs` in `__enter__` (lines 94-95): checks and creation on the real file system.
- Output.Open stands in for `open(path, "w")`: the file system is a set of paths it refuses, so its contract is the definition of that stand-in, not a property of the program.
- The assignments to `GVAR` and the float `pir` cutoff (lines 165-168): configuration written once, with no behaviour of its own.
- The collaborators `SeqFile`, `load_txs`, `load_ann`, `load_seqinfo`, `find_linkage`, `identify_element`, `identify_transcript`, `write_element2bed6` and `write2bed12`: their code is not part of this model. Regions and their clusters are inputs. A cluster is reduced to whether it has elements. A write is one record of the stream group and the cluster number.
- POSIX signals: `signal.signal` and `signal.alarm` are an `Alarm` value plus a per-region `Fate` that says after how many actions the region is interrupted. Real time is not modelled.
- Negative `time_out` values are not modelled; the timeout is a `nat`.
- Opening or writing `igia_debug_timeout.log` cannot fail in the model. An error there would escape the except clause; that case is not modelled.
- A batch write is atomic in the model. In the code, the alarm or another error can strike inside `write_element2bed6` or `write2bed12` (lines 197, 201). That leaves a partial batch in some of the four or six files. The model's interruption points lie only between the name, the element batch and the isoform batch.
- Output.OutputHandle.Close always closes all ten files. In the code, `close()` (lines 117-127) can itself raise, for example when a flush fails. The files after that one then stay open, and the same happens if an alarm left pending after a fatal error fires inside `__exit__`. Skeleton.RunClosesStreams promises the closing only for the model's `Close`.
- An error from `linkage.iterlinkage()` itself (line 182) is raised outside the try-block, while the alarm is idle. The model's regions are a given sequence, so this exit is not modelled.
- The text of the BED lines the collaborators write is not modelled, only which stream group was written and for which cluster.
- `RegionLoop.TimeoutNote`: the timeout log holds entries (timeout, chromosome, start, end) rather than strings. `TimeoutNote.Line` renders each entry as the line the handler writes.
- `Output.Record`: a record holds the cluster number, and `Record.Name` renders the label `c_<n>`. `Names.ClusterNameInjective` shows that distinct numbers and distinct labels coincide.
