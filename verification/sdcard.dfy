/** The SD-card settings file of the in-progress bundle (`SDCard` in its
    cedargrove_scale/configuration.py). Writing stores the four masses as a
    Python source file `/sd/alarm_tare.py` holding one assignment
    `alarm_tare = [...]`; reading imports a module and takes its
    `alarm_tare`, falling back to the compiled defaults when there is no card
    or the import fails. */
module SdCard {
  import opened Mass
  import opened Settings

  /** A Python file on the card that assigns the four masses. */
  datatype SettingsFile = SettingsFile(alarmTare: seq<Grams>)

  /** Whether a card was mounted at start-up, and the files on it by path. */
  datatype Card = NoCard | Mounted(files: map<string, SettingsFile>)

  /** The file `write_alarm_tare` creates. */
  const WrittenPath: string := "/sd/alarm_tare.py"

  /** The four masses of a record, in the order the card file keeps them. */
  function AlarmTare(r: Record): (q: seq<Grams>)
    ensures |q| == 4
    ensures q[0] == r.Mass(Alarm, One) && q[1] == r.Mass(Alarm, Two)
    ensures q[2] == r.Mass(Tare, One) && q[3] == r.Mass(Tare, Two)
  {
    [r.alarm1, r.alarm2, r.tare1, r.tare2]
  }

  /** The file Python's import system loads for a dotted module name: every
      dot is a directory separator and the last component gets ".py". */
  function ModulePath(dotted: string): (p: string)
    ensures |p| == |dotted| + 4
    ensures forall i :: 0 <= i < |dotted| ==> p[i + 1] == (if dotted[i] == '.' then '/' else dotted[i])
  {
    "/" + seq(|dotted|, i requires 0 <= i < |dotted| => if dotted[i] == '.' then '/' else dotted[i]) + ".py"
  }

  /** The import statement's module path, `sd.alarm_tare.py`, resolves to a
      file other than the one the writer creates. */
  lemma ImportedPathIsNotWritten()
    ensures ModulePath("sd.alarm_tare.py") != WrittenPath
  {
    var p := ModulePath("sd.alarm_tare.py");
    assert "sd.alarm_tare.py"[13] == '.';
    assert p[14] == '/';
    assert WrittenPath[14] == '.';
  }

  /** The module name `sd.alarm_tare` does resolve to the written file. */
  lemma ModuleNameOfWrittenFile()
    ensures ModulePath("sd.alarm_tare") == WrittenPath
  {
    var p := ModulePath("sd.alarm_tare");
    assert |p| == |WrittenPath|;
    forall i | 0 <= i < |p| ensures p[i] == WrittenPath[i] {
      if 1 <= i <= 13 {
        assert p[i] == (if "sd.alarm_tare"[i - 1] == '.' then '/' else "sd.alarm_tare"[i - 1]);
      }
    }
  }

  /** `read_alarm_tare` importing the given dotted module name. */
  function ReadFrom(card: Card, name: string, defaults: Record): (q: seq<Grams>)
    ensures card.Mounted? && ModulePath(name) in card.files ==> q == card.files[ModulePath(name)].alarmTare
    ensures !(card.Mounted? && ModulePath(name) in card.files) ==> q == AlarmTare(defaults)
  {
    if card.Mounted? && ModulePath(name) in card.files then card.files[ModulePath(name)].alarmTare
    else AlarmTare(defaults)
  }

  /** `read_alarm_tare` as written: it imports `sd.alarm_tare.py`. */
  function ReadAlarmTare(card: Card, defaults: Record): (q: seq<Grams>)
    ensures card.NoCard? ==> q == AlarmTare(defaults)
  {
    ReadFrom(card, "sd.alarm_tare.py", defaults)
  }

  /** `read_alarm_tare` importing `sd.alarm_tare`, the module the writer
      creates. */
  function ReadAlarmTareFixed(card: Card, defaults: Record): (q: seq<Grams>)
    ensures card.NoCard? ==> q == AlarmTare(defaults)
    ensures card.Mounted? && WrittenPath in card.files ==> q == card.files[WrittenPath].alarmTare
  {
    ModuleNameOfWrittenFile();
    ReadFrom(card, "sd.alarm_tare", defaults)
  }

  /** `write_alarm_tare`: without a card nothing is written and the result is
      False; with one the file is (re)written and the result is True. */
  function WriteAlarmTare(card: Card, list: seq<Grams>): (r: (Card, bool))
    ensures r.1 <==> card.Mounted?
    ensures card.NoCard? ==> r.0 == card
    ensures card.Mounted? ==> r.0.Mounted? && WrittenPath in r.0.files && r.0.files[WrittenPath].alarmTare == list
    ensures card.Mounted? ==> r.0.Mounted? && (forall p :: p in card.files && p != WrittenPath ==>
                                                 p in r.0.files && r.0.files[p] == card.files[p])
  {
    match card
    case NoCard => (NoCard, false)
    case Mounted(files) => (Mounted(files[WrittenPath := SettingsFile(list)]), true)
  }

  /** As written, a write followed by a read on a card that holds nothing
      else returns the defaults, not what was written. */
  lemma ReadMissesWrite(list: seq<Grams>, defaults: Record)
    ensures ReadAlarmTare(WriteAlarmTare(Mounted(map[]), list).0, defaults) == AlarmTare(defaults)
  {
    ImportedPathIsNotWritten();
    var card := WriteAlarmTare(Mounted(map[]), list).0;
    assert card.files.Keys == {WrittenPath};
  }

  /** Concrete instance: a written 50.0 g first alarm is read back as the
      default 19.4 g. */
  lemma ReadMissesWriteExample()
    ensures var written := [Tenths(500), Tenths(400), Tenths(680), Tenths(780)];
            ReadAlarmTare(WriteAlarmTare(Mounted(map[]), written).0, Shipped)[0] == Tenths(194)
  {
    ReadMissesWrite([Tenths(500), Tenths(400), Tenths(680), Tenths(780)], Shipped);
  }

  /** With the corrected import, a write followed by a read returns what was
      written whenever a card is present, and the defaults when none is. */
  lemma ReadAfterWriteFixed(card: Card, list: seq<Grams>, defaults: Record)
    ensures card.Mounted? ==> ReadAlarmTareFixed(WriteAlarmTare(card, list).0, defaults) == list
    ensures card.NoCard? ==> ReadAlarmTareFixed(WriteAlarmTare(card, list).0, defaults) == AlarmTare(defaults)
  {
  }
}
