/**
 * giffer's main window: the media player it drives, the trim points it
 * keeps, the keyboard shortcuts, and the export that runs the external
 * tools. Widgets, labels and sliders are not modelled; the values they
 * display are kept as fields.
 */
module Giffer {
  import opened SettingsStore
  import Paths
  import Trim
  import Playback
  import opened Export

  /** The media player: position and duration in milliseconds, and whether
      it is playing (a stopped player counts as not playing). */
  class MediaPlayer {
    var position: real
    var duration: real
    var playing: bool

    function State(): Playback.PlayerState
      reads this
    {
      Playback.PlayerState(position, duration, playing)
    }

    constructor (duration: real)
      ensures State() == Playback.PlayerState(0.0, duration, false)
    {
      position := 0.0;
      this.duration := duration;
      playing := false;
    }

    method Play()
      modifies this
      ensures State() == old(State()).(playing := true)
    {
      playing := true;
    }

    method Pause()
      modifies this
      ensures State() == old(State()).(playing := false)
    {
      playing := false;
    }

    method SetPosition(p: real)
      modifies this
      ensures State() == old(State()).(position := p)
    {
      position := p;
    }

    /** `setMedia`: the new media starts at position 0, and its duration is
        unknown (0) until the player reports it. */
    method SetMedia()
      modifies this
      ensures State() == old(State()).(position := 0.0, duration := 0.0)
    {
      position := 0.0;
      duration := 0.0;
    }

    /** The player's later report of the loaded media's duration. */
    method MediaLoaded(duration: real)
      modifies this
      ensures State() == old(State()).(duration := duration)
    {
      this.duration := duration;
    }
  }

  class MainWindow {
    const player: MediaPlayer
    const settings: Settings
    /** The video being played, "" when none is loaded. */
    var currentVideo: string
    /** Milliseconds per frame of the current video. */
    var frameMs: real
    /** How far, in milliseconds, the arrow keys jump. */
    var skipRange: real
    /** The trim points in seconds, and the length the window shows. */
    var start: real
    var end: real
    var shownLength: real
    /** Every message put on the status line, oldest first. */
    var shown: seq<Message>
    /** Set once an export finishes; `closed` once the window closes itself. */
    var finished: bool
    var closed: bool

    /** The shown length is never stored on its own: it is end minus start. */
    ghost predicate LengthShown()
      reads this
    {
      shownLength == end - start
    }

    /** The window as built, before the starting video's information is
        read: 30 frames per second, a 5-second skip range and both trim
        points at zero. */
    constructor (player: MediaPlayer, settings: Settings, startingVideo: string)
      ensures this.player == player && this.settings == settings
      ensures currentVideo == startingVideo && frameMs == 1000.0 / 30.0 && skipRange == Playback.MaxSkip
      ensures start == 0.0 && end == 0.0 && LengthShown()
      ensures shown == [] && !finished && !closed
    {
      this.player := player;
      this.settings := settings;
      currentVideo := startingVideo;
      frameMs := 1000.0 / 30.0;
      skipRange := Playback.MaxSkip;
      start, end, shownLength := 0.0, 0.0, 0.0;
      shown := [];
      finished, closed := false, false;
    }

    /** The end of building the window: the settings are read (and created
        when absent), and a warning is shown when the ffmpeg path does not
        exist. */
    method Build(fs: FileSystem) returns (data: Record)
      modifies settings, this`shown
      ensures data == old(settings.Current()) && settings.stored == Some(data)
      ensures shown == old(shown) + if Exists(fs.Snapshot(), data.ffmpeg) then [] else [InvalidPath(Ffmpeg, false)]
    {
      data := settings.GetData();
      var ok := fs.PathExists(data.ffmpeg);
      if !ok {
        shown := shown + [InvalidPath(Ffmpeg, false)];
      }
    }

    /** Records a newly opened video. The frame length comes from the
        video's frame rate (`fps`, read from the file); a rate of 0 raises
        before anything but the video name changes. The skip range is taken
        from the player's duration at this moment, which is that of the
        previously loaded media since the new one is set afterwards. */
    method UpdateVideoInfo(newVideo: string, fps: nat) returns (raised: bool)
      modifies this`currentVideo, this`frameMs, this`skipRange
      ensures currentVideo == newVideo
      ensures raised <==> newVideo != "" && fps == 0
      ensures newVideo == "" || raised ==> frameMs == old(frameMs) && skipRange == old(skipRange)
      ensures newVideo != "" && !raised ==>
                frameMs == 1000.0 / (fps as real) && skipRange == Playback.SkipRange(player.duration)
    {
      currentVideo := newVideo;
      raised := false;
      if newVideo == "" {
        return;
      }
      if fps == 0 {
        raised := true;
        return;
      }
      frameMs := 1000.0 / (fps as real);
      skipRange := if player.duration / 10.0 > 5000.0 then 5000.0 else player.duration / 10.0;
    }

    /** Opens `filePath` in the player and starts playing it, reading the
        video's information first when `updateInfo` is set. Nothing happens
        for an empty path. The information is read before the new media is
        set, so the skip range comes from the duration of the media that was
        loaded before; a frame rate of 0 raises before the media is set. */
    method SetVideoAndPlay(filePath: string, fps: nat, updateInfo: bool) returns (raised: bool)
      modifies this`currentVideo, this`frameMs, this`skipRange, player, settings
      ensures raised <==> filePath != "" && updateInfo && fps == 0
      ensures settings.Current() == old(settings.Current())
      ensures filePath == "" ==> && currentVideo == old(currentVideo)
                                 && player.State() == old(player.State())
                                 && settings.stored == old(settings.stored)
      ensures filePath == "" || !updateInfo || raised ==> frameMs == old(frameMs) && skipRange == old(skipRange)
      ensures filePath == "" || !updateInfo ==> currentVideo == old(currentVideo)
      ensures filePath != "" && updateInfo ==> currentVideo == filePath
      ensures filePath != "" && !raised && currentVideo != "" ==> settings.stored == Some(old(settings.Current()))
      ensures filePath == "" || raised || currentVideo == "" ==> settings.stored == old(settings.stored)
      ensures filePath != "" && updateInfo && !raised ==>
                frameMs == 1000.0 / (fps as real) && skipRange == Playback.SkipRange(old(player.duration))
      ensures filePath != "" && !raised ==> player.State() == Playback.PlayerState(0.0, 0.0, true)
      ensures raised ==> player.State() == old(player.State())
    {
      raised := false;
      if filePath == "" {
        return;
      }
      if updateInfo {
        raised := UpdateVideoInfo(filePath, fps);
        if raised {
          return;
        }
      }
      player.SetMedia();
      // `updateDisplayInfo` shows the export path, reading the settings
      // (and creating them) when a video is loaded
      var shownPath := GetExportPath();
      player.Play();
    }

    method TogglePlay()
      modifies player
      ensures player.State() == Playback.Toggle(old(player.State()))
    {
      if player.playing {
        player.Pause();
      } else {
        player.Play();
      }
    }

    method PauseVideo()
      modifies player
      ensures player.State() == Playback.Pause(old(player.State()))
    {
      if player.playing {
        player.Pause();
      }
    }

    method SkipForward(amount: real, pause: bool)
      modifies player
      ensures player.State() == Playback.SkipForward(old(player.State()), amount, pause)
    {
      if pause {
        PauseVideo();
      }
      var position := player.position;
      var duration := player.duration;
      if position < duration {
        var newPosition := position + amount;
        newPosition := if position > duration then duration else newPosition;
        player.SetPosition(newPosition);
      }
    }

    method SkipBackward(amount: real, pause: bool)
      modifies player
      ensures player.State() == Playback.SkipBackward(old(player.State()), amount, pause)
    {
      if pause {
        PauseVideo();
      }
      var position := player.position;
      if position > 0.0 {
        var newPosition := position - amount;
        newPosition := if newPosition < 0.0 then 0.0 else newPosition;
        player.SetPosition(newPosition);
      }
    }

    method KeyPressEvent(key: Playback.Key)
      modifies player
      ensures player.State() == Playback.OnKey(old(player.State()), key, skipRange, frameMs)
    {
      match key
      case KeyD => TogglePlay();
      case KeyE => player.SetPosition(0.0);
      case KeyLeft => SkipBackward(skipRange, false);
      case KeyRight => SkipForward(skipRange, false);
      case KeyPeriod => SkipForward(frameMs, true);
      case KeyComma => SkipBackward(frameMs, true);
      case OtherKey =>
    }

    /** A new media duration (milliseconds) resets the trim to the whole
        media. */
    method OnDurationChanged(duration: int)
      modifies this`start, this`end, this`shownLength
      ensures start == 0.0 && end == Trim.Seconds(duration as real)
      ensures LengthShown()
    {
      end := Trim.Seconds(duration as real);
      start := 0.0;
      UpdateCurrentLength();
    }

    method UpdateCurrentLength()
      modifies this`shownLength
      ensures LengthShown()
    {
      shownLength := end - start;
    }

    /** Sets the start point from the player's position, clamped before the
        end point. */
    method SetStartFrame()
      modifies this`start, this`shownLength
      ensures start == Trim.ClampStart(Trim.Seconds(player.position), end)
      ensures start < end && LengthShown()
    {
      var position := Trim.Seconds(player.position);
      if position >= end {
        position := end - Trim.Margin;
      }
      start := position;
      UpdateCurrentLength();
    }

    /** Sets the end point from the player's position, clamped after the
        start point. */
    method SetEndFrame()
      modifies this`end, this`shownLength
      ensures end == Trim.ClampEnd(Trim.Seconds(player.position), start)
      ensures start < end && LengthShown()
    {
      var position := Trim.Seconds(player.position);
      if position <= start {
        position := start + Trim.Margin;
      }
      end := position;
      UpdateCurrentLength();
    }

    /** Where an export goes; reads the settings (creating the default
        record if there is none) only when a video is loaded. */
    method GetExportPath() returns (path: string)
      modifies settings
      ensures path == Paths.ExportPath(currentVideo, old(settings.Current()).exportDir)
      ensures settings.Current() == old(settings.Current())
      ensures currentVideo == "" ==> settings.stored == old(settings.stored)
      ensures currentVideo != "" ==> settings.stored == Some(old(settings.Current()))
    {
      if currentVideo == "" {
        return "";
      }
      var data := settings.GetData();
      path := Paths.ExportPath(currentVideo, data.exportDir);
    }

    /** Exports the trimmed video as a GIF at `path`, running the tools as
        the settings say. Follows `Export.Plan` case by case. */
    method WriteGif(path: string, fs: FileSystem, runs: ToolRuns) returns (outcome: Outcome, trace: seq<Tool>)
      requires fs.Valid()
      modifies this`shown, this`finished, this`closed, settings, fs
      ensures fs.Valid()
      ensures var j := Plan(path, old(settings.Current()), runs, old(fs.Snapshot()));
        && outcome == j.outcome && trace == j.trace
        && fs.Snapshot() == j.disk
        && shown == old(shown) + j.shown
      ensures finished == (old(finished) || outcome.Exported?)
      ensures closed == (old(closed) || outcome == Exported(true))
      ensures path == "" ==> settings.stored == old(settings.stored)
      ensures path != "" ==> settings.stored == Some(old(settings.Current()))
    {
      ghost var d := fs.Snapshot();
      if path == "" {
        shown := shown + [NoVideoMessage];
        return Raised(NoVideoLoaded), [];
      }
      var data := settings.GetData();
      var valid := fs.PathExists(data.ffmpeg);
      if !valid {
        shown := shown + [InvalidPath(Ffmpeg, false)];
        return Returned, [];
      }
      var temp, encoded;
      temp, encoded, outcome, trace := Encode(path, fs, data, runs, d);
      if !encoded {
        return;
      }
      outcome, trace := Optimize(path, fs, temp, data, runs, trace, d);
      if outcome.Exported? {
        finished := true;
        if data.autoClose {
          closed := true;
        }
      }
    }

    /** The first half of an export, once the ffmpeg path checks out: a new
        scratch directory with its "pngs" directory, then ffmpeg alone or
        ffmpeg followed by convert. On failure (convert missing, or a tool
        failing) the scratch directory is removed again and the export ends
        as `Plan` says. */
    method Encode(path: string, fs: FileSystem, data: Record, runs: ToolRuns, ghost d: Disk)
      returns (temp: nat, encoded: bool, outcome: Outcome, trace: seq<Tool>)
      requires fs.Valid() && fs.Snapshot() == d
      requires path != "" && Exists(d, data.ffmpeg)
      modifies this`shown, fs
      ensures fs.Valid()
      ensures encoded <==> (!data.useConvert || Exists(d, data.convert)) && RequiredSucceeds(data.useConvert, runs)
      ensures !encoded ==> var j := Plan(path, data, runs, d);
        && outcome == j.outcome && trace == j.trace
        && fs.Snapshot() == j.disk
        && shown == old(shown) + j.shown
      ensures encoded ==> (
        && trace == RequiredTrace(data.useConvert, runs)
        && fs.Snapshot() == d.(nextScratch := temp + 1, scratch := d.scratch[temp := Intermediates(data.useConvert)])
        && shown == old(shown))
      ensures temp == d.nextScratch
    {
      temp := fs.MkdTemp();
      fs.Create(temp, PngDir);
      assert fs.scratch[temp] == {PngDir};
      if data.useConvert {
        encoded, outcome, trace := EncodeFrames(path, fs, temp, data, runs, d);
      } else {
        encoded, outcome, trace := EncodeDirect(path, fs, temp, data, runs, d);
      }
    }

    /** Frame strategy: ffmpeg extracts the frames, then convert builds
        "Temp.gif" from them; convert's path is checked first. */
    method EncodeFrames(path: string, fs: FileSystem, temp: nat, data: Record, runs: ToolRuns, ghost d: Disk)
      returns (encoded: bool, outcome: Outcome, trace: seq<Tool>)
      requires fs.Valid() && FreshScratch(d) && temp == d.nextScratch
      requires fs.Snapshot() == d.(nextScratch := temp + 1, scratch := d.scratch[temp := {PngDir}])
      requires path != "" && Exists(d, data.ffmpeg)
      requires data.useConvert
      modifies this`shown, fs
      ensures fs.Valid()
      ensures encoded <==> (!data.useConvert || Exists(d, data.convert)) && RequiredSucceeds(data.useConvert, runs)
      ensures !encoded ==> var j := Plan(path, data, runs, d);
        && outcome == j.outcome && trace == j.trace
        && fs.Snapshot() == j.disk
        && shown == old(shown) + j.shown
      ensures encoded ==> (
        && trace == RequiredTrace(data.useConvert, runs)
        && fs.Snapshot() == d.(nextScratch := temp + 1, scratch := d.scratch[temp := Intermediates(data.useConvert)])
        && shown == old(shown))
    {
      assert d.scratch[temp := {PngDir}] - {temp} == d.scratch;
      trace := [];
      outcome := Returned;
      encoded := false;
      var valid := fs.PathExists(data.convert);
      if !valid {
        shown := shown + [InvalidPath(Convert, false)];
        fs.RemoveTree(temp);
        return;
      }
      trace := trace + [Ffmpeg];
      if !runs.ffmpeg {
        fs.RemoveTree(temp);
        shown := shown + [ConvertStepFailed];
        outcome := Raised(ProcessFailed(Ffmpeg));
        return;
      }
      fs.Create(temp, Frames);
      trace := trace + [Convert];
      if !runs.convert {
        fs.RemoveTree(temp);
        assert d.scratch[temp := {PngDir, Frames}] - {temp} == d.scratch;
        shown := shown + [ConvertStepFailed];
        outcome := Raised(ProcessFailed(Convert));
        return;
      }
      fs.Create(temp, TempGif(Convert));
      assert fs.scratch[temp] == Intermediates(true);
      encoded := true;
    }

    /** Direct strategy: ffmpeg writes "Temp.gif" itself. */
    method EncodeDirect(path: string, fs: FileSystem, temp: nat, data: Record, runs: ToolRuns, ghost d: Disk)
      returns (encoded: bool, outcome: Outcome, trace: seq<Tool>)
      requires fs.Valid() && FreshScratch(d) && temp == d.nextScratch
      requires fs.Snapshot() == d.(nextScratch := temp + 1, scratch := d.scratch[temp := {PngDir}])
      requires path != "" && Exists(d, data.ffmpeg)
      requires !data.useConvert
      modifies this`shown, fs
      ensures fs.Valid()
      ensures encoded <==> (!data.useConvert || Exists(d, data.convert)) && RequiredSucceeds(data.useConvert, runs)
      ensures !encoded ==> var j := Plan(path, data, runs, d);
        && outcome == j.outcome && trace == j.trace
        && fs.Snapshot() == j.disk
        && shown == old(shown) + j.shown
      ensures encoded ==> (
        && trace == RequiredTrace(data.useConvert, runs)
        && fs.Snapshot() == d.(nextScratch := temp + 1, scratch := d.scratch[temp := Intermediates(data.useConvert)])
        && shown == old(shown))
    {
      assert d.scratch[temp := {PngDir}] - {temp} == d.scratch;
      trace := [Ffmpeg];
      outcome := Returned;
      encoded := false;
      if !runs.ffmpeg {
        fs.RemoveTree(temp);
        shown := shown + [FfmpegFailed];
        outcome := Raised(ProcessFailed(Ffmpeg));
        return;
      }
      fs.Create(temp, TempGif(Ffmpeg));
      assert fs.scratch[temp] == Intermediates(false);
      encoded := true;
    }

    /** The second half of an export: gifsicle when enabled, then the chosen
        GIF replaces whatever is at `path` and the scratch directory goes.
        A missing gifsicle path ends the export with the scratch directory
        left behind. */
    method Optimize(path: string, fs: FileSystem, temp: nat, data: Record, runs: ToolRuns,
                    required: seq<Tool>, ghost d: Disk)
      returns (outcome: Outcome, trace: seq<Tool>)
      requires fs.Valid() && FreshScratch(d)
      requires path != "" && Exists(d, data.ffmpeg)
      requires !data.useConvert || Exists(d, data.convert)
      requires RequiredSucceeds(data.useConvert, runs)
      requires temp == d.nextScratch && required == RequiredTrace(data.useConvert, runs)
      requires fs.Snapshot() == d.(nextScratch := temp + 1, scratch := d.scratch[temp := Intermediates(data.useConvert)])
      modifies this`shown, fs
      ensures fs.Valid()
      ensures var j := Plan(path, data, runs, d);
        && outcome == j.outcome && trace == j.trace
        && fs.Snapshot() == j.disk
        && shown == old(shown) + j.shown
    {
      var proceed, candidate;
      proceed, candidate, trace := RunOptimizer(path, fs, temp, data, runs, required, d);
      if !proceed {
        return Returned, trace;
      }
      var moved := Replace(path, fs, temp, candidate, runs.move);
      if !moved {
        return Raised(MoveFailed), trace;
      }
      assert fs.scratch == d.scratch;
      shown := shown + [FinishedExporting];
      outcome := Exported(data.autoClose);
    }

    /** gifsicle, when enabled: a missing path ends the export as `Plan`
        says; otherwise its output becomes the GIF to move when it succeeds,
        and a failure only adds a warning. */
    method RunOptimizer(path: string, fs: FileSystem, temp: nat, data: Record, runs: ToolRuns,
                        required: seq<Tool>, ghost d: Disk)
      returns (proceed: bool, candidate: Entry, trace: seq<Tool>)
      requires fs.Valid() && FreshScratch(d)
      requires path != "" && Exists(d, data.ffmpeg)
      requires !data.useConvert || Exists(d, data.convert)
      requires RequiredSucceeds(data.useConvert, runs)
      requires temp == d.nextScratch && required == RequiredTrace(data.useConvert, runs)
      requires fs.Snapshot() == d.(nextScratch := temp + 1, scratch := d.scratch[temp := Intermediates(data.useConvert)])
      modifies this`shown, fs
      ensures fs.Valid()
      ensures proceed <==> !data.useGifsicle || Exists(d, data.gifsicle)
      ensures !proceed ==> var j := Plan(path, data, runs, d);
        && j.outcome == Returned && trace == j.trace
        && fs.Snapshot() == j.disk
        && shown == old(shown) + j.shown
      ensures proceed ==> (
        && candidate == (if Candidate(data, runs) == Gifsicle then TempOptimized else TempGif(Candidate(data, runs)))
        && trace == required + (if data.useGifsicle then [Gifsicle] else [])
        && fs.Snapshot() == d.(nextScratch := temp + 1, scratch := d.scratch[temp := Leftovers(data, runs)])
        && shown == old(shown) + (if data.useGifsicle && !runs.gifsicle then [GifsicleFailed] else []))
    {
      trace := required;
      candidate := TempGif(Encoder(data.useConvert));
      proceed := true;
      if data.useGifsicle {
        var valid := fs.PathExists(data.gifsicle);
        if !valid {
          shown := shown + [InvalidPath(Gifsicle, true)];
          proceed := false;
          return;
        }
        trace := trace + [Gifsicle];
        if runs.gifsicle {
          fs.Create(temp, TempOptimized);
          candidate := TempOptimized;
        } else {
          shown := shown + [GifsicleFailed];
        }
      }
      assert fs.scratch[temp] == Leftovers(data, runs);
    }

    /** Moves the GIF `e` out of scratch directory `temp` onto `path`,
        removing any file already there, then removes the directory. When
        the rename fails (`moves` is false) the old file is already gone and
        the directory is not removed. */
    static method Replace(path: string, fs: FileSystem, temp: nat, e: Entry, moves: bool) returns (moved: bool)
      requires path != "" && fs.Valid() && temp in fs.scratch && e in fs.scratch[temp]
      requires e.TempGif? || e.TempOptimized?
      modifies fs
      ensures fs.Valid() && moved == moves && fs.nextScratch == old(fs.nextScratch)
      ensures moved ==> fs.files == old(fs.files)[path := if e.TempGif? then Gif(e.writer) else Gif(Gifsicle)]
      ensures moved ==> fs.scratch == old(fs.scratch) - {temp}
      ensures !moved ==> fs.files == old(fs.files) - {path} && fs.scratch == old(fs.scratch)
    {
      var occupied := fs.PathExists(path);
      if occupied {
        fs.Remove(path);
      }
      moved := fs.Rename(temp, e, path, moves);
      if !moved {
        return;
      }
      fs.RemoveTree(temp);
    }

    /** The export action: writes the GIF to the derived export path. */
    method ExportGif(fs: FileSystem, runs: ToolRuns) returns (outcome: Outcome, trace: seq<Tool>)
      requires fs.Valid()
      modifies this`shown, this`finished, this`closed, settings, fs
      ensures fs.Valid()
      ensures var data := old(settings.Current());
        var j := Plan(Paths.ExportPath(currentVideo, data.exportDir), data, runs, old(fs.Snapshot()));
        && outcome == j.outcome && trace == j.trace
        && fs.Snapshot() == j.disk
        && shown == old(shown) + j.shown
      ensures currentVideo == "" ==> outcome == Raised(NoVideoLoaded) && trace == []
      ensures finished == (old(finished) || outcome.Exported?)
      ensures closed == (old(closed) || outcome == Exported(true))
      ensures currentVideo == "" ==> settings.stored == old(settings.stored)
      ensures currentVideo != "" ==> settings.stored == Some(old(settings.Current()))
    {
      ghost var data := settings.Current();
      var path := GetExportPath();
      assert settings.Current() == data && (path == "" <==> currentVideo == "");
      outcome, trace := WriteGif(path, fs, runs);
    }
  }

  /** Opening the main window with `startingVideo` (possibly ""): the
      settings window reads the settings, creating the default record when
      there is none; building the window creates a player with no media,
      reads the settings again and warns when the ffmpeg path does not
      exist; then the starting video is opened and played, with `fps` its
      frame rate. Since the new player reports a duration of 0, a starting
      video gets a skip range of 0. */
  method Launch(stored: Option<Record>, home: string, homeExists: bool, fs: FileSystem,
                startingVideo: string, fps: nat) returns (window: MainWindow, raised: bool)
    ensures window.settings.stored == Some(if stored.Some? then stored.value else Defaults(home, homeExists))
    ensures window.shown == if Exists(fs.Snapshot(), window.settings.stored.value.ffmpeg) then []
                            else [InvalidPath(Ffmpeg, false)]
    ensures raised <==> startingVideo != "" && fps == 0
    ensures window.currentVideo == startingVideo
    ensures startingVideo == "" || raised ==> window.frameMs == 1000.0 / 30.0 && window.skipRange == Playback.MaxSkip
    ensures startingVideo == "" || raised ==> window.player.State() == Playback.PlayerState(0.0, 0.0, false)
    ensures startingVideo != "" && !raised ==> && window.frameMs == 1000.0 / (fps as real)
                                               && window.skipRange == 0.0
                                               && window.player.State() == Playback.PlayerState(0.0, 0.0, true)
    ensures window.start == 0.0 && window.end == 0.0 && window.LengthShown()
    ensures !window.finished && !window.closed
  {
    var settings := new Settings(stored, home, homeExists);
    var read := settings.GetData();
    var player := new MediaPlayer(0.0);
    window := new MainWindow(player, settings, startingVideo);
    var built := window.Build(fs);
    raised := window.SetVideoAndPlay(startingVideo, fps, true);
  }

  /** The trim scenario of a 10-second video: start at 2 s and end at 8 s
      give a length of 6 s; a start at 9 s is then pinned one margin before
      the end, at 7.99 s. */
  method TrimScenario() returns (length: real, pinnedStart: real)
    ensures length == 6.0 && pinnedStart == 7.99
  {
    var settings := new Settings(None, "", false);
    var player := new MediaPlayer(10000.0);
    var window := new MainWindow(player, settings, "clip.mp4");
    window.OnDurationChanged(10000);
    player.SetPosition(2000.0);
    window.SetStartFrame();
    player.SetPosition(8000.0);
    window.SetEndFrame();
    length := window.shownLength;
    player.SetPosition(9000.0);
    window.SetStartFrame();
    pinnedStart := window.start;
  }

  /** The skip range of a video is taken from the video opened before it:
      the first video of a session gets 0, and a 90-second video opened
      after a 20-second one gets 2 s instead of 5 s. */
  method SkipRangeScenario() returns (first: real, second: real)
    ensures first == 0.0 && second == 2000.0
    ensures second != Playback.SkipRange(90000.0)
  {
    var settings := new Settings(None, "", false);
    var player := new MediaPlayer(0.0);
    var window := new MainWindow(player, settings, "");
    var raised := window.SetVideoAndPlay("short.mp4", 30, true);
    first := window.skipRange;
    player.MediaLoaded(20000.0);
    window.OnDurationChanged(20000);
    raised := window.SetVideoAndPlay("long.mp4", 30, true);
    second := window.skipRange;
    player.MediaLoaded(90000.0);
    window.OnDurationChanged(90000);
  }
}
