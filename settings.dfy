/**
 * The settings store of giffer: a flat record persisted wholesale as a JSON
 * file next to the executable. The file itself is modelled by the field
 * `stored` (None while the file does not exist).
 */
module SettingsStore {

  datatype Option<T> = None | Some(value: T)

  /** The eight keys of giffer_data.json. */
  datatype Record = Record(
    lastOpened: string,
    useConvert: bool,
    useGifsicle: bool,
    ffmpeg: string,
    convert: string,
    gifsicle: string,
    exportDir: string,
    autoClose: bool)

  /** The record written on first use: every flag off, every path empty, and
      the user's home directory as the last opened location when it exists. */
  function Defaults(home: string, homeExists: bool): (r: Record)
    ensures !r.useConvert && !r.useGifsicle && !r.autoClose
    ensures r.ffmpeg == r.convert == r.gifsicle == r.exportDir == ""
    ensures homeExists ==> r.lastOpened == home
    ensures !homeExists ==> r.lastOpened == ""
  {
    Record(if homeExists then home else "", false, false, "", "", "", "", false)
  }

  class Settings {
    /** The contents of giffer_data.json, None while the file is absent. */
    var stored: Option<Record>
    /** What `os.path.expanduser('~')` gives and whether that directory exists. */
    const home: string
    const homeExists: bool

    constructor (stored: Option<Record>, home: string, homeExists: bool)
      ensures this.stored == stored && this.home == home && this.homeExists == homeExists
    {
      this.stored := stored;
      this.home := home;
      this.homeExists := homeExists;
    }

    /** The record a call of GetData returns in the current state. */
    function Current(): (r: Record)
      reads this
      ensures stored.Some? ==> r == stored.value
      ensures stored.None? ==> r == Defaults(home, homeExists)
    {
      match stored
      case Some(data) => data
      case None => Defaults(home, homeExists)
    }

    /** Reads the stored record; when there is none, creates the default
        record, persists it and returns it. */
    method GetData() returns (data: Record)
      modifies this
      ensures data == old(Current())
      ensures stored == Some(data)
      ensures old(stored).Some? ==> stored == old(stored)
      ensures old(stored).None? ==> data == Defaults(home, homeExists)
    {
      match stored
      case Some(r) =>
        data := r;
      case None =>
        data := Defaults(home, homeExists);
        stored := Some(data);
    }

    /** Overwrites the stored record wholesale. */
    method UpdateData(newData: Record)
      modifies this
      ensures stored == Some(newData)
    {
      stored := Some(newData);
    }

    method OnUseConvertChecked(newState: bool)
      modifies this
      ensures stored == Some(old(Current()).(useConvert := newState))
    {
      var data := GetData();
      data := data.(useConvert := newState);
      UpdateData(data);
    }

    method OnUseGifsicleChecked(newState: bool)
      modifies this
      ensures stored == Some(old(Current()).(useGifsicle := newState))
    {
      var data := GetData();
      data := data.(useGifsicle := newState);
      UpdateData(data);
    }

    method ClearExport()
      modifies this
      ensures stored == Some(old(Current()).(exportDir := ""))
    {
      var data := GetData();
      data := data.(exportDir := "");
      UpdateData(data);
    }

    method SetAutoClose(state: bool)
      modifies this
      ensures stored == Some(old(Current()).(autoClose := state))
    {
      var data := GetData();
      data := data.(autoClose := state);
      UpdateData(data);
    }

    /** `choice` is the file chosen in the open-file dialog, "" when cancelled. */
    method SetFfmpegPath(choice: string)
      modifies this
      ensures choice == "" ==> stored == old(stored)
      ensures choice != "" ==> stored == Some(old(Current()).(ffmpeg := choice))
    {
      if choice == "" {
        return;
      }
      var data := GetData();
      data := data.(ffmpeg := choice);
      UpdateData(data);
    }

    method SetConvertPath(choice: string)
      modifies this
      ensures choice == "" ==> stored == old(stored)
      ensures choice != "" ==> stored == Some(old(Current()).(convert := choice))
    {
      if choice == "" {
        return;
      }
      var data := GetData();
      data := data.(convert := choice);
      UpdateData(data);
    }

    method SetGifsiclePath(choice: string)
      modifies this
      ensures choice == "" ==> stored == old(stored)
      ensures choice != "" ==> stored == Some(old(Current()).(gifsicle := choice))
    {
      if choice == "" {
        return;
      }
      var data := GetData();
      data := data.(gifsicle := choice);
      UpdateData(data);
    }

    /** `choice` is the directory chosen in the directory dialog, "" when cancelled. */
    method SetExportDirectory(choice: string)
      modifies this
      ensures choice == "" ==> stored == old(stored)
      ensures choice != "" ==> stored == Some(old(Current()).(exportDir := choice))
    {
      if choice == "" {
        return;
      }
      var data := GetData();
      data := data.(exportDir := choice);
      UpdateData(data);
    }
  }

  /** Reading twice gives the same record, and the second read writes nothing. */
  method GetDataTwice(s: Settings) returns (first: Record, second: Record)
    modifies s
    ensures first == second == old(s.Current())
    ensures s.stored == Some(first)
  {
    first := s.GetData();
    ghost var afterFirst := s.stored;
    second := s.GetData();
    assert s.stored == afterFirst;
  }

  /** After UpdateData the next read returns exactly the record written. */
  method UpdateThenGet(s: Settings, r: Record) returns (read: Record)
    modifies s
    ensures read == r && s.stored == Some(r)
  {
    s.UpdateData(r);
    read := s.GetData();
  }
}
