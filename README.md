# giffer in Dafny

giffer is a small Windows desktop tool. It plays a video, lets the user trim an in point and an out point, and exports the trimmed range as an animated GIF. The export runs external tools:

- ffmpeg, which encodes the GIF directly or extracts PNG frames;
- ImageMagick's convert, which turns the extracted frames into a GIF;
- gifsicle, which optionally optimizes the GIF.

Its settings are a flat record kept in a JSON file.

This project models the decision logic of giffer's main window and settings window:

- `settings.dfy` (module `SettingsStore`): the settings record, its defaults, and the `Settings` class. The JSON file is the field `stored`, which is `None` while the file is absent. Every setter reads, modifies one key and writes the record back.
- `trim.dfy` (module `Trim`): the in/out clamp with its 0.01 s margin, over exact real seconds.
- `playback.dfy` (module `Playback`): the position rules of the media player, as functions over (position, duration, playing). Covers toggle, pause, skipping forward and backward, the keyboard shortcuts and the skip range.
- `paths.dfy` (module `Paths`): the export-path derivation. It includes Windows `dirname`, `basename`, `splitext` and `join`, where both `/` and `\` separate components.
- `export.dfy` (module `Export`): the export pipeline.
  - `Plan` is a case-by-case decision table over an abstract disk, giving the outcome, the tools invoked in order, the status messages shown, and the disk afterwards. The tools are oracles (`ToolRuns`).
  - Lemmas state which tools run, what failures do, what ends up at the destination and when scratch directories are left behind.
  - The `FileSystem` class gives the file operations the export uses (`exists`, `mkdtemp`, `makedirs`, `rmtree`, `remove`, `rename`).
- `main_window.dfy` (module `Giffer`): the `MediaPlayer` and `MainWindow` classes.
  - Each of the window's methods updates its fields, the player or the file system step by step, as the source does.
  - Each method is proved equal to the corresponding specification function of the modules above: `Playback.OnKey`, `Trim.ClampStart`, `Paths.ExportPath`, `Export.Plan` and so on.

Units: player positions and durations are milliseconds; trim points and the shown length are seconds. The source keeps several behaviours that look unintended. The model keeps them as written and states them as lemmas:

- The position that skipping forward asks the player for is not capped at the duration. The cap compares the old position inside a branch where that position is already below the duration (`Playback.SkipForwardPassesEnd`).
- The skip range is computed from the duration of the previously loaded media: `Giffer.MainWindow.SetVideoAndPlay` reads the video information before the new media is set, and `Giffer.SkipRangeScenario` plays out two videos in a row.
- An invalid gifsicle path ends the export without moving the GIF and without removing the scratch directory.
- With an end point below 0.01 s, the clamped start point is negative.

## Model

| member | source | states |
|---|---|---|
| SettingsStore.Defaults | giffer/settings.py:186-198 | the first-use record has every flag off and every tool path and the export directory empty; the last opened location is the home directory when it exists, else "" |
| SettingsStore.Settings.Current | giffer/settings.py:183-200 | the record a read returns: the stored one, or the defaults when nothing is stored |
| SettingsStore.Settings.GetData | giffer/settings.py:176-200 | returns the stored record and writes nothing; with nothing stored, persists the default record and returns it |
| SettingsStore.Settings.UpdateData | giffer/settings.py:202-210 | the stored record becomes exactly the one given |
| SettingsStore.Settings.OnUseConvertChecked | giffer/settings.py:135-144 | the stored record becomes the previous one with only the convert flag changed |
| SettingsStore.Settings.OnUseGifsicleChecked | giffer/settings.py:146-155 | the stored record becomes the previous one with only the gifsicle flag changed |
| SettingsStore.Settings.ClearExport | giffer/settings.py:157-163 | the stored record becomes the previous one with only the export directory emptied |
| SettingsStore.Settings.SetAutoClose | giffer/settings.py:165-174 | the stored record becomes the previous one with only the auto-close flag changed |
| SettingsStore.Settings.SetFfmpegPath | giffer/settings.py:231-244 | a cancelled dialog leaves the store as it was; otherwise only the ffmpeg path changes |
| SettingsStore.Settings.SetConvertPath | giffer/settings.py:246-259 | a cancelled dialog leaves the store as it was; otherwise only the convert path changes |
| SettingsStore.Settings.SetGifsiclePath | giffer/settings.py:261-274 | a cancelled dialog leaves the store as it was; otherwise only the gifsicle path changes |
| SettingsStore.Settings.SetExportDirectory | giffer/settings.py:276-288 | a cancelled dialog leaves the store as it was; otherwise only the export directory changes |
| SettingsStore.GetDataTwice | giffer/settings.py:183-184 | two reads in a row return the same record, which is then the stored one |
| SettingsStore.UpdateThenGet | giffer/settings.py:202-210 | a read after a write returns exactly the record written |
| Trim.Seconds | giffer/gifutil.py:15-17 | a position in milliseconds is that many thousandths of a second |
| Trim.ClampStart | giffer/main.py:450-462 | the new start lies strictly before the end; a candidate before the end is kept, any other becomes the end minus 0.01 |
| Trim.ClampEnd | giffer/main.py:464-476 | the new end lies strictly after the start; a candidate after the start is kept, any other becomes the start plus 0.01 |
| Trim.ClampStartIdempotent | giffer/main.py:457-458 | clamping a start that is already clamped changes nothing |
| Trim.ClampEndIdempotent | giffer/main.py:471-472 | clamping an end that is already clamped changes nothing |
| Trim.ClampStartCanBeNegative | giffer/main.py:457-458 | with an end below the margin, the clamped start is negative |
| Playback.SkipRange | giffer/main.py:322 | the skip range is the smaller of 5000 ms and a tenth of the duration, and is non-negative for a non-negative duration |
| Playback.Toggle | giffer/main.py:347-354 | the play state flips and the position stays |
| Playback.Pause | giffer/main.py:356-361 | the player is not playing afterwards and the position stays |
| Playback.SkipForward | giffer/main.py:363-380 | before the end, the position advances by exactly the amount; at or past the end, nothing moves; playback stops iff a pause is asked |
| Playback.SkipBackward | giffer/main.py:382-398 | from a positive position, the new position is the position minus the amount, or 0 if that is negative; from a position at or below 0, nothing moves |
| Playback.OnKey | giffer/main.py:725-754 | D toggles play, E rewinds to 0, the arrows jump by the skip range without pausing, period and comma pause and step one frame, any other key changes nothing; the duration never changes |
| Playback.ToggleTwice | giffer/main.py:347-354 | toggling twice restores the original state |
| Playback.KeysKeepPositionNonNegative | giffer/main.py:725-754 | with non-negative jump lengths, no shortcut takes a non-negative position below zero |
| Playback.SkipForwardPassesEnd | giffer/main.py:368-380 | the documented bound at the duration does not hold: a full jump from just before the end lands past it |
| Paths.TailStart | giffer/main.py:713 | the last component starts right after the last `/` or `\`, and contains no separator |
| Paths.Basename | giffer/main.py:715 | the last component is the longest separator-free suffix |
| Paths.StripTrailingSeps | giffer/main.py:713 | the trailing separators are removed and nothing else |
| Paths.Dirname | giffer/main.py:713 | the directory is a prefix of the path ending before the last component; only separators lie between the two; it is empty exactly when there is nothing before the last component; it ends in a separator only when it consists of separators alone (a root), and when everything before the last component is separators it is all of them |
| Paths.LastDot | giffer/main.py:714 | the index of the last '.', or -1 when there is none |
| Paths.Root | giffer/main.py:714 | splitext keeps a prefix of the path; what it drops starts with '.', lies in the last component and holds no other '.'; something is dropped exactly when the last component has a '.' preceded by some other character of that component |
| Paths.ExtensionFound | giffer/main.py:714 | a '.' after a non-dot character of a name means the last '.' is past the name's leading dots, so splitext has an extension to drop |
| Paths.Join | giffer/main.py:715 | with an empty directory the result is the file name; otherwise it is the directory, one backslash only when the directory does not already end in a separator, then the file name, with the length to match |
| Paths.Slashes | giffer/main.py:716 | the length is kept, every backslash becomes a slash and every other character stays as it was |
| Paths.ExportPath | giffer/main.py:701-717 | the export path is "" exactly when no video is loaded, and never contains a backslash |
| Paths.ExportPathFileName | giffer/main.py:714-716 | the exported file is named after the video's stem plus ".gif" |
| Paths.JoinedBasename | giffer/main.py:715-716 | a separator-free file name joined onto any directory is the last component of the result once backslashes are rewritten |
| Paths.GifNameIsStem | giffer/main.py:714-715 | the export's file name is the stem of the video's last component followed by ".gif" |
| Paths.ExportPathEndsWithGif | giffer/main.py:714-716 | a loaded video's export path always ends in ".gif" |
| Paths.ExportPathDirectory | giffer/main.py:712-716 | the export path starts with the configured export directory, or the video's own directory when none is configured, with its backslashes rewritten |
| Paths.TailStartAppend | giffer/main.py:715 | appending separator-free text does not move the start of the last component |
| Paths.BasenameAppend | giffer/main.py:715 | appending separator-free text such as ".gif" appends it to the last component |
| Paths.TailStartSlashes | giffer/main.py:716 | rewriting backslashes does not move the start of the last component |
| Paths.SlashesKeepsBasename | giffer/main.py:715-716 | the file name joined onto a directory is still the last component after the backslashes are rewritten |
| Export.Plan | giffer/main.py:518-606 | an empty path raises exactly when no video is loaded; an invalid ffmpeg path changes nothing; the destination changes only on success, when it holds the chosen GIF, or on a failed move, when it is gone; scratch directories stay as they were except after an invalid gifsicle path or a failed move; convert and gifsicle run only when enabled |
| Export.ToolOrder | giffer/main.py:559-591 | the tools run in the order ffmpeg, convert, gifsicle, each at most once, convert only after ffmpeg |
| Export.FfmpegRunsOnce | giffer/main.py:557-581 | once the tool paths check out, ffmpeg runs exactly once, and convert runs iff the frame strategy is on and ffmpeg succeeded |
| Export.EarlyAborts | giffer/main.py:527-556 | an empty path, an invalid ffmpeg path, or an invalid convert path with convert enabled invokes no tool, writes no file and leaves no scratch directory |
| Export.RequiredStepFailure | giffer/main.py:557-581 | a failing ffmpeg or convert re-raises that tool's failure after removing the scratch directory, leaves the destination untouched and never reaches gifsicle |
| Export.OptimizerDisabled | giffer/main.py:583-606 | with gifsicle disabled it never runs; a successful export holds the GIF from ffmpeg or convert; and the export does succeed once the path is set, the required tools are present and succeed, and the move succeeds |
| Export.ExportSucceedsIff | giffer/main.py:518-606 | an export succeeds exactly when the path is set, ffmpeg's path and the path of every enabled tool are valid, ffmpeg and (if enabled) convert succeed, and the final move succeeds; a failing gifsicle does not prevent success |
| Export.OptimizerEnabled | giffer/main.py:583-606 | with gifsicle enabled and present and a move that succeeds, the export succeeds; the destination holds gifsicle's output if gifsicle succeeded, otherwise the unoptimized GIF, with a warning shown iff it failed |
| Export.InvalidOptimizerPathLeaksScratch | giffer/main.py:584-586 | an invalid gifsicle path returns without moving the GIF, leaving the scratch directory and its intermediate files behind |
| Export.ExportReplacesDestination | giffer/main.py:596-606 | a successful export puts exactly the chosen GIF at the destination, whatever was there, leaves every other file as it was, removes its scratch directory and ends with "Finished Exporting" |
| Export.MoveFailureLosesDestination | giffer/main.py:596-602 | when the final rename fails, the old destination file has already been removed, every other file is kept, no "Finished Exporting" is shown, and the scratch directory stays behind holding the intermediates and the GIF that was to be moved |
| Export.PlanKeepsFreshScratch | giffer/main.py:543 | after any export, the next scratch directory is still a fresh one |
| Export.FileSystem.PathExists | giffer/main.py:494 | a path exists iff it is non-empty and the file system holds it |
| Export.FileSystem.MkdTemp | giffer/main.py:543 | a new, empty scratch directory that did not exist before |
| Export.FileSystem.Create | giffer/main.py:548 | the entry is added to that scratch directory and nothing else changes |
| Export.FileSystem.RemoveTree | giffer/main.py:602 | the scratch directory and everything in it is gone and nothing else changes |
| Export.FileSystem.Remove | giffer/main.py:597-598 | the file is gone and nothing else changes |
| Export.FileSystem.Rename | giffer/main.py:601 | the rename succeeds iff the file system's oracle says so; on success the GIF leaves the scratch directory and appears at the destination with its contents; on failure nothing changes |
| Giffer.MediaPlayer.Play | giffer/main.py:354 | the player is playing and nothing else changes |
| Giffer.MediaPlayer.Pause | giffer/main.py:352 | the player is paused and nothing else changes |
| Giffer.MediaPlayer.SetMedia | giffer/main.py:342 | a new media resets the position and the reported duration to 0 and keeps the play state |
| Giffer.MediaPlayer.MediaLoaded | giffer/main.py:249 | once the media is loaded, only the duration changes, to the media's length |
| Giffer.MediaPlayer.SetPosition | giffer/main.py:740 | only the position changes |
| Giffer.MainWindow.constructor | giffer/main.py:44-53 | the fields as first assigned: the starting video, 30 fps, a 5000 ms skip range and both trim points at zero, before the rest of the window is built |
| Giffer.MainWindow.Build | giffer/main.py:253-256 | building the window reads the settings, creating the default record when there is none, and warns iff the ffmpeg path does not exist |
| Giffer.Launch | giffer/main.py:44-76 | opening the window leaves the settings stored, warns iff ffmpeg is missing, and plays a non-empty starting video from 0 with its own frame length and a skip range of 0 (the new player reports no duration yet); a frame rate of 0 raises; with no starting video the window keeps 30 fps and 5000 ms and the player stays idle |
| Giffer.MainWindow.UpdateVideoInfo | giffer/main.py:305-325 | the current video is always replaced; for a loaded video, the frame length is 1000/fps ms, and a rate of 0 raises before it is set; the skip range follows the player's current duration |
| Giffer.MainWindow.SetVideoAndPlay | giffer/main.py:327-345 | an empty path does nothing; without the information update the video name, frame length and skip range stay as they were; otherwise the video information is updated first (raising on a frame rate of 0), so the skip range follows the duration of the media loaded before, and then the new media starts playing from 0 with the settings left as they were |
| Giffer.MainWindow.TogglePlay | giffer/main.py:347-354 | the player ends up in `Playback.Toggle` of its old state |
| Giffer.MainWindow.PauseVideo | giffer/main.py:356-361 | the player ends up in `Playback.Pause` of its old state |
| Giffer.MainWindow.SkipForward | giffer/main.py:363-380 | the player ends up in `Playback.SkipForward` of its old state |
| Giffer.MainWindow.SkipBackward | giffer/main.py:382-398 | the player ends up in `Playback.SkipBackward` of its old state |
| Giffer.MainWindow.KeyPressEvent | giffer/main.py:725-754 | the player ends up in `Playback.OnKey` of its old state, with the window's skip range and frame length |
| Giffer.MainWindow.OnDurationChanged | giffer/main.py:422-438 | a new duration resets the start to 0 and the end to the duration in seconds, and the shown length is their difference |
| Giffer.MainWindow.UpdateCurrentLength | giffer/main.py:440-448 | the shown length becomes end minus start |
| Giffer.MainWindow.SetStartFrame | giffer/main.py:450-462 | the start becomes the player's position, clamped before the end; the start lies before the end and the shown length is recomputed |
| Giffer.MainWindow.SetEndFrame | giffer/main.py:464-476 | the end becomes the player's position, clamped after the start; the start lies before the end and the shown length is recomputed |
| Giffer.MainWindow.GetExportPath | giffer/main.py:701-717 | returns `Paths.ExportPath` of the current video and the configured export directory; the settings are read, and possibly created, only when a video is loaded |
| Giffer.MainWindow.WriteGif | giffer/main.py:518-606 | the outcome, the tools invoked, the status messages and the file system afterwards are exactly those of `Export.Plan`; the window is marked finished on success, and closes iff auto-close is set |
| Giffer.MainWindow.Encode | giffer/main.py:542-581 | a new scratch directory with its "pngs" directory is created; a missing convert or a failing tool ends the export as `Export.Plan` says; otherwise ffmpeg, or ffmpeg and convert, have left their intermediate files |
| Giffer.MainWindow.EncodeFrames | giffer/main.py:551-568 | with the frame strategy: a missing convert path or a failing ffmpeg or convert removes the scratch directory and ends as `Export.Plan` says; otherwise the frames and convert's GIF are in the scratch directory |
| Giffer.MainWindow.EncodeDirect | giffer/main.py:570-581 | with the direct strategy: a failing ffmpeg removes the scratch directory and ends as `Export.Plan` says; otherwise ffmpeg's GIF is in the scratch directory |
| Giffer.MainWindow.Optimize | giffer/main.py:583-606 | the optimizer branch and the final move end the export exactly as `Export.Plan` says, including a failed move |
| Giffer.MainWindow.RunOptimizer | giffer/main.py:583-594 | the export proceeds iff gifsicle is disabled or its path is valid; gifsicle runs only when enabled; the GIF to move is gifsicle's output iff it succeeded, with the failure warning shown otherwise; the scratch directory then holds exactly the leftovers `Export.Plan` expects |
| Giffer.MainWindow.Replace | giffer/main.py:596-602 | any file at the destination is removed and the GIF is renamed onto it; on success the scratch directory is removed; when the rename fails the destination stays removed and the scratch directory stays |
| Giffer.MainWindow.ExportGif | giffer/main.py:719-723 | the export goes to the derived export path and behaves as `Export.Plan` for it; with no video loaded it raises before any tool runs; the window is marked finished iff the export succeeds and closes iff auto-close is set as well; the settings file is created with the defaults only when a video is loaded |
| Giffer.SkipRangeScenario | giffer/main.py:322-345 | the first video of a session gets a skip range of 0, and a 90 s video opened after a 20 s one gets 2 s instead of its own 5 s |
| Giffer.TrimScenario | giffer/main.py:422-476 | for a 10 s video, trimming to 2 s..8 s shows a 6 s length, and a later start at 9 s is pinned at 7.99 s |

## Left out

- Widgets, layouts, icons, sliders, the exporting window, the about window, the widget part of `build`, the settings window's display refresh, `closeEvent`, `openFile`, the icon and label updates in `setVideoAndPlay` and the registry helpers. These are Qt presentation or Windows registry calls; the values the labels show are kept as fields.
- The label texts. Trim points are shown with three significant digits (`gifutil.toSeconds`, `subtractStrings`, the `f'{x:0.3}'` labels). The model keeps exact real seconds and does not model the rounding.
- Giffer.MainWindow.SetStartFrame: reads the end point as exact seconds, while the source reads it back from the rounded end label.
- Giffer.MainWindow.SetEndFrame: reads the start point as exact seconds, while the source reads it back from the rounded start label.
- Giffer.MainWindow.UpdateCurrentLength: the shown length is the exact difference, not the three-digit text computed from the two label texts.
- The external tools themselves and their command lines. Each tool is an oracle (`Export.ToolRuns`) that either succeeds and writes its output file or fails; the `colors` argument to gifsicle is not modelled.
- Giffer.MainWindow.constructor: covers only the field assignments of main.py:44-53; the settings window, `build` and the opening of the starting video that complete `__init__` are modelled by `Giffer.Launch`.
- The text of the status messages. Each is a `Message` constructor; the red/black colouring is not modelled.
- The five-second `threading.Timer` that clears the status line after an export, and closing the exporting window. The model keeps a `finished` flag.
- OpenCV: the video's width, height and frame rate. The frame rate is an input of `UpdateVideoInfo`, and the window geometry is not modelled.
- JSON file reading and writing. The file is the `stored` field; a file that exists but cannot be parsed is not modelled.
- `saveGif`, which depends on the save dialog's result.
- The settings window's `clear_main_display` callback after a tool path is set; it only clears the status line of the main window.
- Drive prefixes such as `C:` and UNC paths in the path helpers: only `/` and `\` are treated specially.
- The media player's stopped state (it counts as not playing) and the rounding of positions to whole milliseconds.
- The asynchronous duration signal after a new media is an explicit call (`Giffer.MediaPlayer.MediaLoaded`); until it arrives the duration is 0.
- Giffer.MediaPlayer.SetPosition: stores any requested position; the bounding of seeks that QMediaPlayer itself applies is not modelled, so the model states the position the window asks for.
- A failing `os.remove` of an existing destination is not modelled; of the final file operations only the rename can fail (`Export.ToolRuns.move`).
- Export.FileSystem.Rename: requires the destination to be absent, since renaming onto an existing file fails on Windows; the source always removes it first.
