/**
 * The export pipeline of giffer (`MainWindow.writeGif`) over an abstract
 * file system. The external tools (ffmpeg, ImageMagick's convert and
 * gifsicle) are oracles: `ToolRuns` says which of them exits with status 0,
 * and a tool that succeeds writes its output file. Whether a tool path
 * exists is whether the file system holds it.
 *
 * `Plan` states, case by case, what an export does; the imperative
 * `Giffer.MainWindow.WriteGif` follows the source step by step and is proved
 * to agree with it.
 */
module Export {
  import opened SettingsStore

  datatype Tool = Ffmpeg | Convert | Gifsicle

  /** What a job's scratch directory can hold: the "pngs" sub-directory, the
      frames ffmpeg extracts into it, "Temp.gif" (with the tool that wrote
      it) and "TempOptimized.gif". */
  datatype Entry = PngDir | Frames | TempGif(writer: Tool) | TempOptimized

  /** A file outside the scratch directories: anything that was already
      there, or an animated GIF written by one of the tools. */
  datatype FileData = Existing | Gif(writer: Tool)

  /** The file system: files by path, and the scratch directories that
      exist, by the number `mkdtemp` gave them. */
  datatype Disk = Disk(files: map<string, FileData>, scratch: map<nat, set<Entry>>, nextScratch: nat)

  /** `os.path.exists`: the empty path never exists. */
  predicate Exists(d: Disk, p: string) {
    p != "" && p in d.files
  }

  /** Every scratch directory was handed out before `nextScratch`, so the
      next one `mkdtemp` creates is fresh. */
  predicate FreshScratch(d: Disk) {
    forall id :: id in d.scratch ==> id < d.nextScratch
  }

  /** Which tools exit with status 0 when invoked, and whether the final
      `os.rename` onto the destination succeeds (on Windows it fails, for
      one, when the scratch directory and the destination lie on different
      drives). */
  datatype ToolRuns = ToolRuns(ffmpeg: bool, convert: bool, gifsicle: bool, move: bool)

  /** What `writeGif` raises: no video loaded, a failing tool, or the
      `OSError` of a failing rename onto the destination. */
  datatype Error = NoVideoLoaded | ProcessFailed(tool: Tool) | MoveFailed

  /** How `writeGif` ends: it raises, returns early, or exports (and closes
      the window when `closed`). */
  datatype Outcome = Raised(error: Error) | Returned | Exported(closed: bool)

  /** What the window's status line is set to along the way. */
  datatype Message =
    | NoVideoMessage
    | InvalidPath(tool: Tool, unoptimized: bool)
    | ConvertStepFailed
    | FfmpegFailed
    | GifsicleFailed
    | FinishedExporting

  /** The observable result of one export: the outcome, the tools invoked in
      order, the status messages shown in order, and the file system after. */
  datatype Job = Job(outcome: Outcome, trace: seq<Tool>, shown: seq<Message>, disk: Disk)

  /** The tool that writes "Temp.gif". */
  function Encoder(useConvert: bool): Tool {
    if useConvert then Convert else Ffmpeg
  }

  /** The tools the required step invokes before it stops. */
  function RequiredTrace(useConvert: bool, runs: ToolRuns): seq<Tool> {
    if useConvert && runs.ffmpeg then [Ffmpeg, Convert] else [Ffmpeg]
  }

  /** Whether every tool of the required step succeeds. */
  predicate RequiredSucceeds(useConvert: bool, runs: ToolRuns) {
    runs.ffmpeg && (useConvert ==> runs.convert)
  }

  /** The scratch directory once the required step has succeeded. */
  function Intermediates(useConvert: bool): set<Entry> {
    {PngDir, TempGif(Encoder(useConvert))} + (if useConvert then {Frames} else {})
  }

  /** What the scratch directory holds once the tools are done: the
      intermediates, plus gifsicle's output when it ran and succeeded. */
  function Leftovers(data: Record, runs: ToolRuns): set<Entry> {
    Intermediates(data.useConvert) + (if data.useGifsicle && runs.gifsicle then {TempOptimized} else {})
  }

  /** The tool whose output is moved to the destination. */
  function Candidate(data: Record, runs: ToolRuns): Tool {
    if data.useGifsicle && runs.gifsicle then Gifsicle else Encoder(data.useConvert)
  }

  /** The case-by-case outcome of `writeGif(path)` with settings `data`. */
  function Plan(path: string, data: Record, runs: ToolRuns, d: Disk): (j: Job)
    ensures j.outcome == Raised(NoVideoLoaded) <==> path == ""
    ensures path == "" || !Exists(d, data.ffmpeg) ==> j.trace == [] && j.disk == d
    ensures j.outcome.Exported? ==> j.disk.files == d.files[path := Gif(Candidate(data, runs))]
    ensures !j.outcome.Exported? && j.outcome != Raised(MoveFailed) ==> j.disk.files == d.files
    ensures j.outcome == Raised(MoveFailed) ==> j.disk.files == d.files - {path}
    ensures j.disk.scratch == d.scratch
            || (j.outcome == Returned && data.useGifsicle && !Exists(d, data.gifsicle))
            || j.outcome == Raised(MoveFailed)
    ensures Convert in j.trace ==> data.useConvert
    ensures Gifsicle in j.trace ==> data.useGifsicle
  {
    if path == "" then
      Job(Raised(NoVideoLoaded), [], [NoVideoMessage], d)
    else if !Exists(d, data.ffmpeg) then
      Job(Returned, [], [InvalidPath(Ffmpeg, false)], d)
    else
      var id := d.nextScratch;
      var cleaned := d.(nextScratch := id + 1);
      if data.useConvert && !Exists(d, data.convert) then
        Job(Returned, [], [InvalidPath(Convert, false)], cleaned)
      else if !RequiredSucceeds(data.useConvert, runs) then
        var failed := if runs.ffmpeg then Convert else Ffmpeg;
        var message := if data.useConvert then ConvertStepFailed else FfmpegFailed;
        Job(Raised(ProcessFailed(failed)), RequiredTrace(data.useConvert, runs), [message], cleaned)
      else if data.useGifsicle && !Exists(d, data.gifsicle) then
        Job(Returned, RequiredTrace(data.useConvert, runs), [InvalidPath(Gifsicle, true)],
            cleaned.(scratch := d.scratch[id := Intermediates(data.useConvert)]))
      else
        var trace := RequiredTrace(data.useConvert, runs) + (if data.useGifsicle then [Gifsicle] else []);
        var warnings := if data.useGifsicle && !runs.gifsicle then [GifsicleFailed] else [];
        if !runs.move then
          Job(Raised(MoveFailed), trace, warnings,
              cleaned.(files := d.files - {path}, scratch := d.scratch[id := Leftovers(data, runs)]))
        else
          Job(Exported(data.autoClose), trace, warnings + [FinishedExporting],
              cleaned.(files := d.files[path := Gif(Candidate(data, runs))]))
  }

  /** The tools always run in the order ffmpeg, convert, gifsicle, each at
      most once, and convert only right after ffmpeg. */
  lemma ToolOrder(path: string, data: Record, runs: ToolRuns, d: Disk)
    ensures var t := Plan(path, data, runs, d).trace;
      t == [] || t == [Ffmpeg] || t == [Ffmpeg, Convert] || t == [Ffmpeg, Gifsicle] || t == [Ffmpeg, Convert, Gifsicle]
  {
  }

  /** Once the tool paths check out, ffmpeg runs exactly once, and convert
      runs exactly when the frame-sequence strategy is on and ffmpeg
      succeeded. */
  lemma FfmpegRunsOnce(path: string, data: Record, runs: ToolRuns, d: Disk)
    requires path != "" && Exists(d, data.ffmpeg)
    requires data.useConvert ==> Exists(d, data.convert)
    ensures var j := Plan(path, data, runs, d);
      && multiset(j.trace)[Ffmpeg] == 1
      && (Convert in j.trace <==> data.useConvert && runs.ffmpeg)
  {
  }

  /** The three configuration aborts invoke no tool, write no file and leave
      no scratch directory behind. */
  lemma EarlyAborts(path: string, data: Record, runs: ToolRuns, d: Disk)
    requires path == "" || !Exists(d, data.ffmpeg) || (data.useConvert && !Exists(d, data.convert))
    ensures var j := Plan(path, data, runs, d);
      && j.trace == []
      && j.disk.files == d.files
      && j.disk.scratch == d.scratch
      && !j.outcome.Exported?
  {
  }

  /** A failing required step re-raises that tool's failure after removing
      the scratch directory, and the destination is untouched. */
  lemma RequiredStepFailure(path: string, data: Record, runs: ToolRuns, d: Disk)
    requires path != "" && Exists(d, data.ffmpeg)
    requires data.useConvert ==> Exists(d, data.convert)
    requires !RequiredSucceeds(data.useConvert, runs)
    ensures var j := Plan(path, data, runs, d);
      && j.outcome.Raised?
      && j.outcome.error == ProcessFailed(j.trace[|j.trace| - 1])
      && j.disk.files == d.files
      && j.disk.scratch == d.scratch
      && Gifsicle !in j.trace
  {
  }

  /** With the optimizer off, gifsicle never runs; once the paths check out
      and the required step and the move succeed, the export succeeds and
      the destination holds the output of ffmpeg or convert. */
  lemma OptimizerDisabled(path: string, data: Record, runs: ToolRuns, d: Disk)
    requires !data.useGifsicle
    ensures var j := Plan(path, data, runs, d);
      && Gifsicle !in j.trace
      && (j.outcome.Exported? ==> j.disk.files[path] == Gif(Encoder(data.useConvert)))
    ensures path != "" && Exists(d, data.ffmpeg) && (data.useConvert ==> Exists(d, data.convert))
            && RequiredSucceeds(data.useConvert, runs) && runs.move
            ==> Plan(path, data, runs, d).outcome == Exported(data.autoClose)
  {
  }

  /** An export succeeds exactly when a video is loaded, every enabled
      tool's path exists, the required step succeeds and the final move
      succeeds; gifsicle failing is never fatal. */
  lemma ExportSucceedsIff(path: string, data: Record, runs: ToolRuns, d: Disk)
    ensures Plan(path, data, runs, d).outcome.Exported?
      <==> && path != ""
           && Exists(d, data.ffmpeg)
           && (data.useConvert ==> Exists(d, data.convert))
           && RequiredSucceeds(data.useConvert, runs)
           && (data.useGifsicle ==> Exists(d, data.gifsicle))
           && runs.move
  {
  }

  /** With the optimizer on and its path valid, the export succeeds whenever
      the required step does; the result comes from gifsicle when it
      succeeds, and otherwise is the unoptimized GIF with a warning. */
  lemma OptimizerEnabled(path: string, data: Record, runs: ToolRuns, d: Disk)
    requires path != "" && Exists(d, data.ffmpeg)
    requires data.useConvert ==> Exists(d, data.convert)
    requires RequiredSucceeds(data.useConvert, runs)
    requires data.useGifsicle && Exists(d, data.gifsicle)
    requires runs.move
    ensures var j := Plan(path, data, runs, d);
      && j.outcome == Exported(data.autoClose)
      && j.trace[|j.trace| - 1] == Gifsicle
      && (runs.gifsicle ==> j.disk.files[path] == Gif(Gifsicle))
      && (!runs.gifsicle ==> j.disk.files[path] == Gif(Encoder(data.useConvert)))
      && (!runs.gifsicle <==> GifsicleFailed in j.shown)
  {
  }

  /** An invalid gifsicle path returns without moving the GIF and without
      removing the scratch directory, which stays behind with the
      intermediate files, although the message announces an unoptimized
      export. */
  lemma InvalidOptimizerPathLeaksScratch(path: string, data: Record, runs: ToolRuns, d: Disk)
    requires path != "" && Exists(d, data.ffmpeg)
    requires data.useConvert ==> Exists(d, data.convert)
    requires RequiredSucceeds(data.useConvert, runs)
    requires data.useGifsicle && !Exists(d, data.gifsicle)
    requires FreshScratch(d)
    ensures var j := Plan(path, data, runs, d);
      && j.outcome == Returned
      && j.disk.files == d.files
      && d.nextScratch !in d.scratch
      && j.disk.scratch == d.scratch[d.nextScratch := Intermediates(data.useConvert)]
      && TempGif(Encoder(data.useConvert)) in j.disk.scratch[d.nextScratch]
      && j.shown == [InvalidPath(Gifsicle, true)]
  {
  }

  /** A successful export leaves exactly the new GIF at the destination,
      whatever was there before, and changes no other file. */
  lemma ExportReplacesDestination(path: string, data: Record, runs: ToolRuns, d: Disk, other: string)
    requires Plan(path, data, runs, d).outcome.Exported?
    requires other != path
    ensures var j := Plan(path, data, runs, d);
      && path in j.disk.files && j.disk.files[path] == Gif(Candidate(data, runs))
      && (other in j.disk.files <==> other in d.files)
      && (other in d.files ==> j.disk.files[other] == d.files[other])
      && j.disk.scratch == d.scratch
      && j.shown[|j.shown| - 1] == FinishedExporting
  {
  }

  /** A failing move raises after the old destination file has already
      been removed: the destination is gone, every other file is kept, the
      scratch directory stays behind holding the GIF that was to be moved,
      and "Finished Exporting" is never shown. */
  lemma MoveFailureLosesDestination(path: string, data: Record, runs: ToolRuns, d: Disk, other: string)
    requires FreshScratch(d)
    requires Plan(path, data, runs, d).outcome == Raised(MoveFailed)
    requires other != path
    ensures var j := Plan(path, data, runs, d);
      && path !in j.disk.files
      && (other in j.disk.files <==> other in d.files)
      && (other in d.files ==> j.disk.files[other] == d.files[other])
      && d.nextScratch !in d.scratch
      && j.disk.scratch == d.scratch[d.nextScratch := Leftovers(data, runs)]
      && (if Candidate(data, runs) == Gifsicle then TempOptimized else TempGif(Candidate(data, runs)))
           in j.disk.scratch[d.nextScratch]
      && FinishedExporting !in j.shown
  {
  }

  /** Every export keeps scratch numbering fresh. */
  lemma PlanKeepsFreshScratch(path: string, data: Record, runs: ToolRuns, d: Disk)
    requires FreshScratch(d)
    ensures FreshScratch(Plan(path, data, runs, d).disk)
  {
  }

  /** The file system a job works on: files by path, plus the scratch
      directories by number. */
  class FileSystem {
    var files: map<string, FileData>
    var scratch: map<nat, set<Entry>>
    var nextScratch: nat

    ghost predicate Valid()
      reads this
    {
      FreshScratch(Snapshot())
    }

    function Snapshot(): Disk
      reads this
    {
      Disk(files, scratch, nextScratch)
    }

    constructor (files: map<string, FileData>)
      ensures Valid() && Snapshot() == Disk(files, map[], 0)
    {
      this.files := files;
      this.scratch := map[];
      this.nextScratch := 0;
    }

    /** `os.path.exists(p)` for a path outside the scratch directories. */
    method PathExists(p: string) returns (b: bool)
      ensures b == Exists(Snapshot(), p)
    {
      b := p != "" && p in files;
    }

    /** `tempfile.mkdtemp()`: a new, empty scratch directory. */
    method MkdTemp() returns (id: nat)
      requires Valid()
      modifies this
      ensures Valid()
      ensures id == old(nextScratch) && id !in old(scratch)
      ensures scratch == old(scratch)[id := {}] && nextScratch == id + 1 && files == old(files)
    {
      id := nextScratch;
      scratch := scratch[id := {}];
      nextScratch := nextScratch + 1;
    }

    /** Creates `e` in scratch directory `id` (`os.makedirs` for the "pngs"
        directory, or the output file a tool writes). */
    method Create(id: nat, e: Entry)
      requires Valid() && id in scratch
      modifies this
      ensures Valid()
      ensures scratch == old(scratch)[id := old(scratch)[id] + {e}]
      ensures files == old(files) && nextScratch == old(nextScratch)
    {
      scratch := scratch[id := scratch[id] + {e}];
    }

    /** `shutil.rmtree`: removes scratch directory `id` and all it holds. */
    method RemoveTree(id: nat)
      requires Valid()
      modifies this
      ensures Valid()
      ensures scratch == old(scratch) - {id}
      ensures files == old(files) && nextScratch == old(nextScratch)
    {
      scratch := scratch - {id};
    }

    /** `os.remove(p)`. */
    method Remove(p: string)
      requires p in files
      modifies this
      ensures files == old(files) - {p}
      ensures scratch == old(scratch) && nextScratch == old(nextScratch)
    {
      files := files - {p};
    }

    /** `os.rename` of the GIF `e` in scratch directory `id` to `p`, which
        must not exist (renaming onto an existing file fails on Windows).
        `succeeds` says whether the operating system performs the move; when
        it does not, nothing changes. */
    method Rename(id: nat, e: Entry, p: string, succeeds: bool) returns (moved: bool)
      requires Valid() && id in scratch && e in scratch[id]
      requires e.TempGif? || e.TempOptimized?
      requires p !in files
      modifies this
      ensures Valid() && moved == succeeds
      ensures moved ==> files == old(files)[p := if e.TempGif? then Gif(e.writer) else Gif(Gifsicle)]
      ensures moved ==> scratch == old(scratch)[id := old(scratch)[id] - {e}]
      ensures !moved ==> files == old(files) && scratch == old(scratch)
      ensures nextScratch == old(nextScratch)
    {
      moved := succeeds;
      if moved {
        files := files[p := if e.TempGif? then Gif(e.writer) else Gif(Gifsicle)];
        scratch := scratch[id := scratch[id] - {e}];
      }
    }
  }
}
