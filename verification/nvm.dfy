/** The non-volatile settings store (`NVM` in cedargrove_scale/configuration.py).
    The store keeps one Python list: the marker "" followed by the eight
    settings. The helper that saves and reads the list is taken to be
    faithful on a board with non-volatile memory — a save replaces the
    stored list, a read returns it — except that a read of bytes that do
    not hold a saved list raises. On a board without the memory, every save
    and every read raises. The model names both exceptions OSError. */
module Nvm {
  import opened Faults
  import opened Settings

  /** What `nvm_helper` works on: no usable memory at all, where
      `read_data` and `save_data` raise; memory whose bytes do not decode
      (a first boot, say), where `read_data` raises and `save_data` works;
      or a stored list. */
  datatype Medium = Unreadable | Garbled | Holds(data: seq<Cell>)

  /** The validity marker stored ahead of the settings. */
  const Marker: Cell := Text("")

  /** The store holds a list whose first element is the marker. */
  predicate Valid(m: Medium)
  {
    m.Holds? && |m.data| > 0 && m.data[0] == Marker
  }

  /** What a call to `write_settings(list)` leaves behind. */
  datatype Written = Written(medium: Medium, list: seq<Cell>, result: bool)

  /** `write_settings`: inserts the marker at the front of the caller's list
      (the caller sees its list changed), saves it and reports True; the
      save raises when there is no memory to save to. */
  function WriteSettings(m: Medium, list: seq<Cell>): (r: Result<Written>)
    ensures r.Err? <==> m.Unreadable?
    ensures r.Err? ==> r.fault == OSError
    ensures r.Ok? ==> Valid(r.value.medium) && r.value.medium.data[1..] == list
    ensures r.Ok? ==> r.value.list == r.value.medium.data && r.value.result
  {
    if m.Unreadable? then Err(OSError)
    else
      var stored := [Marker] + list;
      Ok(Written(Holds(stored), stored, true))
  }

  /** `restore_defaults`: writes the eight defaults in record order. */
  function RestoreDefaults(m: Medium, defaults: Record): (r: Result<Medium>)
    ensures r.Err? <==> m.Unreadable?
    ensures r.Ok? ==> Valid(r.value) && r.value.data[1..] == Encode(defaults)
  {
    var w :- WriteSettings(m, Encode(defaults));
    Ok(w.medium)
  }

  /** What a fetch returns, together with the store it leaves. */
  datatype Fetched = Fetched(medium: Medium, cells: seq<Cell>)

  /** `fetch_settings` as written. Only the first read sits inside the
      exception guard: a failing read is replaced by the string "x", which
      is unmarked, so the defaults are written — and that save, like the
      read after it, raises again. A marked store is returned after its
      marker; an unmarked one is overwritten with the defaults, which are
      then read back; an empty stored list raises IndexError at the marker
      test. So the guard rescues undecodable memory but not a board without
      any. */
  function Fetch(m: Medium, defaults: Record): (r: Result<Fetched>)
    ensures r.Err? <==> m == Holds([]) || m.Unreadable?
    ensures r.Err? ==> r.fault == (if m.Unreadable? then OSError else IndexError)
    ensures r.Ok? ==> Valid(r.value.medium) && r.value.cells == r.value.medium.data[1..]
    ensures r.Ok? && r.value.medium != m ==> r.value.cells == Encode(defaults)
  {
    var seen := if m.Holds? then m.data else [Text("x")];
    if |seen| == 0 then Err(IndexError)
    else if seen[0] == Marker then Ok(Fetched(m, seen[1..]))
    else
      var m' :- RestoreDefaults(m, defaults);
      Ok(Fetched(m', m'.data[1..]))
  }

  /** `fetch_settings` as its guard and its warning ("Settings will not be
      stored") evidently intend: a board without memory runs on the
      defaults and leaves the store alone. Any other store is fetched as
      written. */
  function FetchFixed(m: Medium, defaults: Record): (r: Result<Fetched>)
    ensures r.Err? <==> m == Holds([])
    ensures m.Unreadable? ==> r == Ok(Fetched(Unreadable, Encode(defaults)))
    ensures !m.Unreadable? ==> r == Fetch(m, defaults)
  {
    if m.Unreadable? then Ok(Fetched(Unreadable, Encode(defaults)))
    else Fetch(m, defaults)
  }

  /** `fetch_settings` of the archived bundle_v2.0_pyportal configuration:
      the same logic without the exception guard, so a failing read
      propagates at once. */
  function FetchUnguarded(m: Medium, defaults: Record): (r: Result<Fetched>)
    ensures !m.Holds? ==> r == Err(OSError)
    ensures m.Holds? && |m.data| == 0 ==> r == Err(IndexError)
    ensures m.Holds? && |m.data| > 0 && m.data[0] == Marker ==> r == Ok(Fetched(m, m.data[1..]))
  {
    if !m.Holds? then Err(OSError)
    else if |m.data| == 0 then Err(IndexError)
    else if m.data[0] == Marker then Ok(Fetched(m, m.data[1..]))
    else
      var m' := RestoreDefaults(m, defaults).value;
      Ok(Fetched(m', m'.data[1..]))
  }

  /** A valid store is returned without its marker and is not rewritten. */
  lemma FetchValid(m: Medium, defaults: Record)
    requires Valid(m)
    ensures Fetch(m, defaults) == Ok(Fetched(m, m.data[1..]))
  {
  }

  /** Writable memory that holds no marked list — undecodable bytes, or a
      non-empty list without the marker — ends up holding the defaults, and
      the defaults are what the fetch returns. */
  lemma FetchInvalid(m: Medium, defaults: Record)
    requires !m.Unreadable? && m != Holds([]) && !Valid(m)
    ensures Fetch(m, defaults).Ok?
    ensures Fetch(m, defaults).value.cells == Encode(defaults)
    ensures Fetch(m, defaults).value.medium == Holds([Marker] + Encode(defaults))
  {
  }

  /** Whatever the store held, a second fetch returns what the first did and
      changes nothing more. */
  lemma FetchIdempotent(m: Medium, defaults: Record)
    requires Fetch(m, defaults).Ok?
    ensures Fetch(Fetch(m, defaults).value.medium, defaults) == Fetch(m, defaults)
  {
  }

  /** A fetch after `write_settings(list)` returns `list`, whatever the
      memory held before. */
  lemma FetchAfterWrite(m: Medium, list: seq<Cell>, defaults: Record)
    requires !m.Unreadable?
    ensures WriteSettings(m, list).Ok?
    ensures Fetch(WriteSettings(m, list).value.medium, defaults)
         == Ok(Fetched(WriteSettings(m, list).value.medium, list))
  {
  }

  /** The settings the control loop writes are the settings it reads back at
      the next start. */
  lemma SettingsSurviveRestart(m: Medium, s: Record, defaults: Record)
    requires !m.Unreadable?
    ensures WriteSettings(m, Encode(s)).Ok?
    ensures Fetch(WriteSettings(m, Encode(s)).value.medium, defaults).Ok?
    ensures Decode(Fetch(WriteSettings(m, Encode(s)).value.medium, defaults).value.cells) == Ok(s)
  {
    FetchAfterWrite(m, Encode(s), defaults);
    DecodeEncode(s);
  }

  /** As written, the guard does nothing for a board without the memory: it
      raises through the guarded fetch exactly as through the unguarded one.
      The two fetches differ only on undecodable memory. */
  lemma UnreadableStore(m: Medium, defaults: Record)
    ensures Fetch(Unreadable, defaults) == Err(OSError)
    ensures Fetch(m, defaults) != FetchUnguarded(m, defaults) <==> m.Garbled?
  {
    if m.Garbled? {
      FetchInvalid(m, defaults);
    }
  }

  /** What the guard is for: undecodable memory is overwritten with the
      defaults, which the fetch then returns, where the unguarded fetch
      raises. */
  lemma GarbledStoreRepaired(defaults: Record)
    ensures Fetch(Garbled, defaults).Ok?
    ensures Fetch(Garbled, defaults).value.medium == Holds([Marker] + Encode(defaults))
    ensures Decode(Fetch(Garbled, defaults).value.cells) == Ok(defaults)
    ensures FetchUnguarded(Garbled, defaults) == Err(OSError)
  {
    FetchInvalid(Garbled, defaults);
    DecodeEncode(defaults);
  }

  /** With the corrected fetch, a board without memory starts from the
      defaults. */
  lemma UnreadableStoreFixed(defaults: Record)
    ensures FetchFixed(Unreadable, defaults).Ok?
    ensures Decode(FetchFixed(Unreadable, defaults).value.cells) == Ok(defaults)
  {
    DecodeEncode(defaults);
  }
}
