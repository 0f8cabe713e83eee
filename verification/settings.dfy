/** The eight user settings — alarm and tare masses and their enable flags —
    as the control loop holds them, and as the list the store keeps:
    [alarm_1, alarm_2, tare_1, tare_2, alarm_1_en, alarm_2_en, tare_1_en, tare_2_en]. */
module Settings {
  import opened Mass
  import opened Faults

  datatype Chan = One | Two

  /** Which of a channel's two user controls. */
  datatype Kind = Tare | Alarm

  datatype Record = Record(
    alarm1: Grams, alarm2: Grams, tare1: Grams, tare2: Grams,
    alarm1On: bool, alarm2On: bool, tare1On: bool, tare2On: bool)
  {
    function Mass(k: Kind, c: Chan): Grams
    {
      match (k, c)
      case (Alarm, One) => alarm1
      case (Alarm, Two) => alarm2
      case (Tare, One) => tare1
      case (Tare, Two) => tare2
    }

    function On(k: Kind, c: Chan): bool
    {
      match (k, c)
      case (Alarm, One) => alarm1On
      case (Alarm, Two) => alarm2On
      case (Tare, One) => tare1On
      case (Tare, Two) => tare2On
    }

    /** This record with one mass replaced and every other field kept. */
    function WithMass(k: Kind, c: Chan, v: Grams): (r: Record)
      ensures r.Mass(k, c) == v
      ensures forall k', c' :: (k', c') != (k, c) ==> r.Mass(k', c') == Mass(k', c')
      ensures forall k', c' :: r.On(k', c') == On(k', c')
    {
      match (k, c)
      case (Alarm, One) => this.(alarm1 := v)
      case (Alarm, Two) => this.(alarm2 := v)
      case (Tare, One) => this.(tare1 := v)
      case (Tare, Two) => this.(tare2 := v)
    }

    /** This record with one enable flag replaced and every other field kept. */
    function WithOn(k: Kind, c: Chan, b: bool): (r: Record)
      ensures r.On(k, c) == b
      ensures forall k', c' :: (k', c') != (k, c) ==> r.On(k', c') == On(k', c')
      ensures forall k', c' :: r.Mass(k', c') == Mass(k', c')
    {
      match (k, c)
      case (Alarm, One) => this.(alarm1On := b)
      case (Alarm, Two) => this.(alarm2On := b)
      case (Tare, One) => this.(tare1On := b)
      case (Tare, Two) => this.(tare2On := b)
    }
  }

  /** The compiled-in defaults of scale_defaults.py in code/, v3.0
      v7.3.2 and v3.0 v8 (68.0 / 78.0 g tares, 19.4 / 40.0 g alarms,
      everything enabled). The generic bundle ships 70.0 / 35.0 g tares
      with the same alarms. */
  const Shipped: Record :=
    Record(Tenths(194), Tenths(400), Tenths(680), Tenths(780), true, true, true, true)

  /** One element of the Python list the store keeps. */
  datatype Cell = Text(s: string) | Num(g: Grams) | Flag(b: bool)

  /** The list the control loop hands to the store, in the fixed field order. */
  function Encode(r: Record): (cells: seq<Cell>)
    ensures |cells| == 8
    ensures forall i :: 0 <= i < 4 ==> cells[i].Num?
    ensures forall i :: 4 <= i < 8 ==> cells[i].Flag?
  {
    [Num(r.alarm1), Num(r.alarm2), Num(r.tare1), Num(r.tare2),
     Flag(r.alarm1On), Flag(r.alarm2On), Flag(r.tare1On), Flag(r.tare2On)]
  }

  /** `round(settings[i], 1)`: a stored float is already on the grid; a stored
      bool rounds to the int 0 or 1; a stored string raises. */
  function MassAt(cells: seq<Cell>, i: nat): (r: Result<Grams>)
    ensures r.Err? <==> i >= |cells| || cells[i].Text?
    ensures r.Err? ==> r.fault == (if i >= |cells| then IndexError else TypeError)
    ensures r.Ok? && cells[i].Num? ==> r.value == cells[i].g
    ensures r.Ok? && cells[i].Flag? ==> r.value.Value() == (if cells[i].b then 10 else 0)
  {
    if i >= |cells| then Err(IndexError)
    else match cells[i]
      case Num(g) => Ok(g)
      case Flag(b) => Ok(Tenths(if b then 10 else 0))
      case Text(_) => Err(TypeError)
  }

  /** `bool(settings[i])`: Python truthiness of the stored element. */
  function FlagAt(cells: seq<Cell>, i: nat): (r: Result<bool>)
    ensures r.Err? <==> i >= |cells|
    ensures r.Err? ==> r.fault == IndexError
    ensures r.Ok? && cells[i].Num? ==> (r.value <==> cells[i].g.Value() != 0)
    ensures r.Ok? && cells[i].Text? ==> (r.value <==> cells[i].s != "")
    ensures r.Ok? && cells[i].Flag? ==> r.value == cells[i].b
  {
    if i >= |cells| then Err(IndexError)
    else match cells[i]
      case Num(g) => Ok(Truthy(g))
      case Flag(b) => Ok(b)
      case Text(s) => Ok(s != "")
  }

  /** `read_settings`: the fetched list read back field by field. Only the
      length and the type of the four mass elements can make it fail. Each
      mass is `round(settings[i], 1)` of its element and each enable is
      `bool(settings[i])`, so a record of an older layout (ints 0/1 as
      enables, bools as masses) is read as MassAt and FlagAt say. */
  function Decode(cells: seq<Cell>): (r: Result<Record>)
    ensures r.Ok? <==> |cells| >= 8 && forall i :: 0 <= i < 4 ==> !cells[i].Text?
    ensures r.Ok? ==> forall i :: 0 <= i < 4 && cells[i].Num? ==> cells[i].g == Encode(r.value)[i].g
    ensures r.Ok? ==> forall i :: 0 <= i < 4 ==> MassAt(cells, i) == Ok(Encode(r.value)[i].g)
    ensures r.Ok? ==> forall i :: 4 <= i < 8 ==> FlagAt(cells, i) == Ok(Encode(r.value)[i].b)
  {
    var a1 :- MassAt(cells, 0);
    var a2 :- MassAt(cells, 1);
    var t1 :- MassAt(cells, 2);
    var t2 :- MassAt(cells, 3);
    var e1 :- FlagAt(cells, 4);
    var e2 :- FlagAt(cells, 5);
    var e3 :- FlagAt(cells, 6);
    var e4 :- FlagAt(cells, 7);
    Ok(Record(a1, a2, t1, t2, e1, e2, e3, e4))
  }

  /** Reading back what the loop wrote gives back the same record. */
  lemma DecodeEncode(r: Record)
    ensures Decode(Encode(r)) == Ok(r)
  {
  }

  /** Extra trailing elements are ignored: only the first eight are read. */
  lemma DecodeIgnoresTail(r: Record, extra: seq<Cell>)
    ensures Decode(Encode(r) + extra) == Ok(r)
  {
    var cells := Encode(r) + extra;
    assert cells[..8] == Encode(r);
    forall i | 0 <= i < 8 ensures cells[i] == Encode(r)[i] {
    }
  }

  /** A list written by the loop is decoded to exactly one record: Encode is
      injective. */
  lemma EncodeInjective(r: Record, r': Record)
    requires Encode(r) == Encode(r')
    ensures r == r'
  {
    DecodeEncode(r);
    DecodeEncode(r');
  }
}
