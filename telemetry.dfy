/**
 * Telemetry: the drone's state record and the parser for the telemetry line
 * the drone streams on its state port (state.go).
 *
 * The parser is Go's fmt.Sscanf over one fixed format of sixteen
 * `key:value;` fields.  The format is modelled as a list of directives (a
 * literal character, or an integer or decimal operand) and the scanner as a
 * function over that list, so that the schema, the scanner and the mapping
 * of scanned operands onto the record can each be stated separately.
 */
module Telemetry {
  import opened Text

  /** Acceleration in g per axis (the agx, agy, agz fields). */
  datatype Acceleration = Acceleration(x: Decimal, y: Decimal, z: Decimal)

  /** Attitude in degrees (the pitch, roll, yaw fields). */
  datatype Attitude = Attitude(pitch: Int64, roll: Int64, yaw: Int64)

  /** Speed in cm/s per axis (the three vg fields). */
  datatype Speed = Speed(x: Int64, y: Int64, z: Int64)

  /** One telemetry snapshot. */
  datatype State = State(
    acceleration: Acceleration,
    attitude: Attitude,
    barometer: Decimal,          // cm
    battery: Int64,              // percent
    flightDistance: Int64,       // time-of-flight distance, cm
    flightTime: Int64,           // motor time, s
    height: Int64,               // cm
    highestTemperature: Int64,   // degrees Celsius
    lowestTemperature: Int64,    // degrees Celsius
    speed: Speed)

  /** The zero value `State{}` a new drone starts with. */
  const ZeroState: State :=
    State(Acceleration(Decimal(0, 0), Decimal(0, 0), Decimal(0, 0)), Attitude(0, 0, 0),
          Decimal(0, 0), 0, 0, 0, 0, 0, 0, Speed(0, 0, 0))

  // ---------------------------------------------------------------------------
  // The format
  // ---------------------------------------------------------------------------

  /** The two operand verbs of the format: %d and %f. */
  datatype Verb = IntVerb | FloatVerb

  datatype Directive = Lit(c: char) | Operand(verb: Verb)

  /** A scanned operand. */
  datatype Item = IntItem(i: Int64) | FloatItem(d: Decimal)
  {
    function Kind(): Verb {
      if IntItem? then IntVerb else FloatVerb
    }
  }

  /** The telemetry fields in the order the format lists them. */
  const Fields: seq<(string, Verb)> := [
    ("pitch", IntVerb), ("roll", IntVerb), ("yaw", IntVerb),
    ("vg" + "x", IntVerb), ("vg" + "y", IntVerb), ("vg" + "z", IntVerb),
    ("templ", IntVerb), ("temph", IntVerb), ("tof", IntVerb), ("h", IntVerb),
    ("bat", IntVerb), ("baro", FloatVerb), ("time", IntVerb),
    ("agx", FloatVerb), ("agy", FloatVerb), ("agz", FloatVerb)]

  function Literals(s: string): (f: seq<Directive>)
    ensures |f| == |s|
    ensures forall k :: 0 <= k < |s| ==> f[k] == Lit(s[k])
  {
    if s == [] then [] else [Lit(s[0])] + Literals(s[1..])
  }

  /** `key:%verb;` for each field, in order. */
  function Layout(fields: seq<(string, Verb)>): seq<Directive> {
    if fields == [] then []
    else Literals(fields[0].0) + [Lit(':'), Operand(fields[0].1), Lit(';')] + Layout(fields[1..])
  }

  /** "pitch:%d;roll:%d;...;agz:%f;" */
  const Schema: seq<Directive> := Layout(Fields)

  /** The verbs of a format, in order. */
  function Verbs(format: seq<Directive>): seq<Verb> {
    if format == [] then []
    else (if format[0].Operand? then [format[0].verb] else []) + Verbs(format[1..])
  }

  /** Items that fill the operands of a format, kind for kind. */
  predicate Conforms(format: seq<Directive>, items: seq<Item>) {
    |items| == |Verbs(format)| &&
    forall k :: 0 <= k < |items| ==> items[k].Kind() == Verbs(format)[k]
  }

  // ---------------------------------------------------------------------------
  // The scanner (fmt.Sscanf)
  // ---------------------------------------------------------------------------

  /** White space the scanner skips before an operand: \t \v \f \r and space
      (a newline is not skipped, so an operand after one fails). */
  predicate IsScanSpace(c: char) {
    c == ' ' || c == '\t' || c == '\r' || c as int == 11 || c as int == 12
  }

  function ScanSpaces(s: string): (n: nat)
    ensures n <= |s|
    ensures n < |s| ==> !IsScanSpace(s[n])
  {
    if s == [] || !IsScanSpace(s[0]) then 0 else 1 + ScanSpaces(s[1..])
  }

  /** Sscanf's two results: the operands stored (their count is Sscanf's n)
      and whether it reported an error. */
  datatype ScanResult = ScanResult(items: seq<Item>, failed: bool)

  /** One operand at the start of s: skip white space, then scan a token of
      the verb's kind.  Returns the item and the characters consumed. */
  function ScanOperand(v: Verb, s: string): (r: Option<(Item, nat)>)
    ensures r.Some? ==> r.value.0.Kind() == v && 0 < r.value.1 <= |s|
  {
    var sp := ScanSpaces(s);
    match v
    case IntVerb => (
      match ScanInt(s[sp..])
      case Some((n, len)) => Some((IntItem(n), sp + len))
      case None => None)
    case FloatVerb => (
      match ScanDecimal(s[sp..])
      case Some((d, len)) => Some((FloatItem(d), sp + len))
      case None => None)
  }

  /** fmt.Sscanf(input, format, ...): each literal must be the next input
      character; each operand must scan.  The first mismatch, a missing
      character or an operand that does not scan stops it with an error,
      keeping the operands stored so far.  Input left after the format is
      ignored. */
  function Scan(format: seq<Directive>, input: string): (r: ScanResult)
    ensures |r.items| <= |Verbs(format)|
    ensures !r.failed ==> |r.items| == |Verbs(format)|
  {
    if format == [] then ScanResult([], false)
    else match format[0]
      case Lit(c) =>
        if input != [] && input[0] == c then Scan(format[1..], input[1..])
        else ScanResult([], true)
      case Operand(v) => (
        match ScanOperand(v, input)
        case None => ScanResult([], true)
        case Some((item, len)) =>
          var rest := Scan(format[1..], input[len..]);
          assert Verbs(format) == [v] + Verbs(format[1..]);
          ScanResult([item] + rest.items, rest.failed))
  }

  /** Each stored operand has the kind of the verb it was scanned for. */
  lemma {:induction false} ScanKinds(format: seq<Directive>, input: string)
    ensures forall k :: 0 <= k < |Scan(format, input).items| ==>
      Scan(format, input).items[k].Kind() == Verbs(format)[k]
  {
    if format != [] {
      match format[0]
      case Lit(c) =>
        if input != [] && input[0] == c {
          ScanKinds(format[1..], input[1..]);
        }
      case Operand(v) =>
        match ScanOperand(v, input)
        case None =>
        case Some((item, len)) =>
          ScanKinds(format[1..], input[len..]);
          assert Verbs(format) == [v] + Verbs(format[1..]);
    }
  }

  // ---------------------------------------------------------------------------
  // newState
  // ---------------------------------------------------------------------------

  datatype Error =
    | ScanFailed        // "astitello: scanf failed"
    | ItemCount(n: int) // "astitello: scanf only parsed n items"

  datatype Result = Ok(state: State) | Err(error: Error)

  /** The record's fields in the order the format scans them. */
  function StateItems(s: State): (items: seq<Item>)
    ensures |items| == 16
  {
    [IntItem(s.attitude.pitch), IntItem(s.attitude.roll), IntItem(s.attitude.yaw),
     IntItem(s.speed.x), IntItem(s.speed.y), IntItem(s.speed.z),
     IntItem(s.lowestTemperature), IntItem(s.highestTemperature),
     IntItem(s.flightDistance), IntItem(s.height), IntItem(s.battery),
     FloatItem(s.barometer), IntItem(s.flightTime),
     FloatItem(s.acceleration.x), FloatItem(s.acceleration.y), FloatItem(s.acceleration.z)]
  }

  /** The record the sixteen scanned operands are stored into. */
  function ToState(items: seq<Item>): (s: State)
    requires Conforms(Schema, items)
    ensures StateItems(s) == items
  {
    SchemaVerbs();
    State(Acceleration(items[13].d, items[14].d, items[15].d),
          Attitude(items[0].i, items[1].i, items[2].i),
          items[11].d, items[10].i, items[8].i, items[12].i, items[9].i,
          items[7].i, items[6].i,
          Speed(items[3].i, items[4].i, items[5].i))
  }

  /** newState: scan the line against the schema; an error from the scan, or
      fewer than sixteen operands, is an error; otherwise the record. */
  function NewState(i: string): (r: Result)
    ensures r.Ok? <==> !Scan(Schema, i).failed
    ensures r.Ok? ==> StateItems(r.state) == Scan(Schema, i).items
  {
    var sr := Scan(Schema, i);
    SchemaVerbs();
    ScanKinds(Schema, i);
    if sr.failed then Err(ScanFailed)
    else if |sr.items| != 16 then Err(ItemCount(|sr.items|))
    else Ok(ToState(sr.items))
  }

  /** The telemetry line for a record: `key:value;` per field, in schema
      order, each value in its plain spelling. */
  function FormatState(s: State): string {
    Line(Fields, StateItems(s))
  }

  // ---------------------------------------------------------------------------
  // The format written out
  // ---------------------------------------------------------------------------

  function ItemText(item: Item): string {
    match item
    case IntItem(n) => FormatInt(n)
    case FloatItem(d) => FormatDecimal(d)
  }

  /** The format with each operand replaced by the spelling of the next
      item (an operand with no item left is spelled as nothing). */
  function Render(format: seq<Directive>, items: seq<Item>): string {
    if format == [] then ""
    else match format[0]
      case Lit(c) => [c] + Render(format[1..], items)
      case Operand(v) =>
        if items == [] then "" + Render(format[1..], items)
        else ItemText(items[0]) + Render(format[1..], items[1..])
  }

  /** Items that fill a field list, kind for kind. */
  predicate FieldsConform(fields: seq<(string, Verb)>, items: seq<Item>) {
    |items| == |fields| && forall k :: 0 <= k < |items| ==> items[k].Kind() == fields[k].1
  }

  /** `key:value;` for each field and its item. */
  function Line(fields: seq<(string, Verb)>, items: seq<Item>): string
    requires |items| == |fields|
  {
    if fields == [] then ""
    else fields[0].0 + ":" + ItemText(items[0]) + ";" + Line(fields[1..], items[1..])
  }

  // ---------------------------------------------------------------------------
  // Lemmas about the schema
  // ---------------------------------------------------------------------------

  function FieldVerbs(fields: seq<(string, Verb)>): (vs: seq<Verb>)
    ensures |vs| == |fields|
    ensures forall k :: 0 <= k < |fields| ==> vs[k] == fields[k].1
  {
    seq(|fields|, k requires 0 <= k < |fields| => fields[k].1)
  }

  lemma AppendAssoc<T>(x: seq<T>, y: seq<T>, z: seq<T>)
    ensures x + (y + z) == (x + y) + z
  {
  }

  lemma {:induction false} VerbsAppend(a: seq<Directive>, b: seq<Directive>)
    ensures Verbs(a + b) == Verbs(a) + Verbs(b)
  {
    if a == [] {
      assert a + b == b;
    } else {
      var h: seq<Verb> := if a[0].Operand? then [a[0].verb] else [];
      assert (a + b)[0] == a[0];
      assert (a + b)[1..] == a[1..] + b;
      assert Verbs(a + b) == h + Verbs(a[1..] + b);
      VerbsAppend(a[1..], b);
      AppendAssoc(h, Verbs(a[1..]), Verbs(b));
    }
  }

  lemma {:induction false} VerbsLiterals(s: string)
    ensures Verbs(Literals(s)) == []
  {
    if s != [] {
      assert Literals(s)[1..] == Literals(s[1..]);
      VerbsLiterals(s[1..]);
    }
  }

  lemma {:induction false} VerbsLayout(fields: seq<(string, Verb)>)
    ensures Verbs(Layout(fields)) == FieldVerbs(fields)
  {
    if fields != [] {
      var f := fields[0];
      var tail: seq<Directive> := [Lit(':'), Operand(f.1), Lit(';')];
      VerbsAppend(Literals(f.0) + tail, Layout(fields[1..]));
      VerbsAppend(Literals(f.0), tail);
      VerbsLiterals(f.0);
      assert Verbs(tail) == [f.1] by {
        assert tail[1..] == [Operand(f.1), Lit(';')];
        assert tail[1..][1..] == [Lit(';')];
        assert tail[1..][1..][1..] == [];
        assert Verbs(tail[1..][1..]) == [];
        assert Verbs(tail[1..]) == [f.1];
      }
      VerbsLayout(fields[1..]);
      assert FieldVerbs(fields) == [f.1] + FieldVerbs(fields[1..]);
    }
  }

  /** The schema has sixteen operands: eleven integers, then the barometer as
      a decimal, the flight time as an integer, and three decimals. */
  lemma SchemaVerbs()
    ensures |Verbs(Schema)| == 16
    ensures forall k :: 0 <= k < 16 ==> Verbs(Schema)[k] == (if k == 11 || k >= 13 then FloatVerb else IntVerb)
  {
    VerbsLayout(Fields);
  }

  /** Neither a digit nor a point: a character that ends a number token. */
  predicate EndsToken(c: char) {
    !IsDigit(c) && c != '.'
  }

  /** Every operand of the format is followed by a literal that ends its token. */
  predicate Separated(format: seq<Directive>) {
    forall k :: 0 <= k < |format| && format[k].Operand? ==>
      k + 1 < |format| && format[k + 1].Lit? && EndsToken(format[k + 1].c)
  }

  lemma {:induction false} SeparatedLayout(fields: seq<(string, Verb)>)
    ensures Separated(Layout(fields))
  {
    if fields != [] {
      var f := fields[0];
      var head := Literals(f.0) + [Lit(':'), Operand(f.1), Lit(';')];
      var rest := Layout(fields[1..]);
      SeparatedLayout(fields[1..]);
      var all := head + rest;
      assert Layout(fields) == all;
      forall k | 0 <= k < |all| && all[k].Operand?
        ensures k + 1 < |all| && all[k + 1].Lit? && EndsToken(all[k + 1].c)
      {
        if k < |head| {
          assert k == |f.0| + 1;
        } else {
          assert all[k] == rest[k - |head|];
          assert all[k + 1] == rest[k + 1 - |head|];
        }
      }
    }
  }

  lemma {:induction false} RenderLiterals(key: string, format: seq<Directive>, items: seq<Item>)
    ensures Render(Literals(key) + format, items) == key + Render(format, items)
  {
    if key == [] {
      assert Literals(key) + format == format;
    } else {
      var lt := Literals(key[1..]) + format;
      assert Literals(key) + format == [Lit(key[0])] + lt;
      RenderLit(key[0], lt, items);
      RenderLiterals(key[1..], format, items);
      ConsAppend(key[0], key[1..], Render(format, items));
      assert [key[0]] + key[1..] == key;
    }
  }

  lemma RenderLit(c: char, format: seq<Directive>, items: seq<Item>)
    ensures Render([Lit(c)] + format, items) == [c] + Render(format, items)
  {
    assert ([Lit(c)] + format)[1..] == format;
  }

  lemma ConsAppend(c: char, a: string, b: string)
    ensures [c] + (a + b) == ([c] + a) + b
  {
  }

  lemma RenderField(v: Verb, rest: seq<Directive>, items: seq<Item>)
    requires items != []
    ensures Render([Lit(':'), Operand(v), Lit(';')] + rest, items) ==
      ":" + ItemText(items[0]) + ";" + Render(rest, items[1..])
  {
    var f := [Lit(':'), Operand(v), Lit(';')] + rest;
    assert f[1..] == [Operand(v), Lit(';')] + rest;
    assert f[1..][1..] == [Lit(';')] + rest;
    assert f[1..][1..][1..] == rest;
    assert Render(f[1..][1..], items[1..]) == ";" + Render(rest, items[1..]);
    assert Render(f[1..], items) == ItemText(items[0]) + Render(f[1..][1..], items[1..]);
  }

  /** Rendering the layout of a field list is its `key:value;` line. */
  lemma {:induction false} RenderLayout(fields: seq<(string, Verb)>, items: seq<Item>)
    requires |items| == |fields|
    ensures Render(Layout(fields), items) == Line(fields, items)
  {
    if fields != [] {
      var f := fields[0];
      var tail := Layout(fields[1..]);
      RenderLayout(fields[1..], items[1..]);
      var field := [Lit(':'), Operand(f.1), Lit(';')] + tail;
      RenderField(f.1, tail, items);
      RenderLiterals(f.0, field, items);
      AppendAssoc(Literals(f.0), [Lit(':'), Operand(f.1), Lit(';')], tail);
      FieldText(f.0, ItemText(items[0]), Line(fields[1..], items[1..]));
    }
  }

  lemma FieldText(key: string, value: string, line: string)
    ensures key + (":" + value + ";" + line) == key + ":" + value + ";" + line
  {
  }

  // ---------------------------------------------------------------------------
  // Round trip: writing a record and scanning it back
  // ---------------------------------------------------------------------------

  lemma ItemTextStart(item: Item)
    ensures ItemText(item) != []
    ensures !IsScanSpace(ItemText(item)[0])
  {
    match item
    case IntItem(n) =>
    case FloatItem(d) =>
      assert FormatDecimal(d)[0] == '-' || FormatDecimal(d)[0] == NatDigits(WholePart(d))[0];
  }

  /** An operand whose text starts the input directly. */
  lemma ScanOperandInt(s: string, n: Int64, len: nat)
    requires s != [] && !IsScanSpace(s[0]) && ScanInt(s) == Some((n as int, len))
    ensures ScanOperand(IntVerb, s) == Some((IntItem(n), len))
  {
    assert ScanSpaces(s) == 0;
    assert s[0..] == s;
  }

  lemma ScanOperandFloat(s: string, d: Decimal, len: nat)
    requires s != [] && !IsScanSpace(s[0]) && ScanDecimal(s) == Some((d, len))
    ensures ScanOperand(FloatVerb, s) == Some((FloatItem(d), len))
  {
    assert ScanSpaces(s) == 0;
    assert s[0..] == s;
  }

  lemma ScanOperandText(item: Item, rest: string)
    requires rest == [] || EndsToken(rest[0])
    ensures ScanOperand(item.Kind(), ItemText(item) + rest) == Some((item, |ItemText(item)|))
  {
    ItemTextStart(item);
    var t := ItemText(item);
    assert (t + rest)[0] == t[0];
    match item
    case IntItem(n) =>
      ScanIntFormat(n, rest);
      ScanOperandInt(t + rest, n, |t|);
    case FloatItem(d) =>
      ScanDecimalFormat(d, rest);
      ScanOperandFloat(t + rest, d, |t|);
  }

  lemma {:induction false} RenderStart(format: seq<Directive>, items: seq<Item>, rest: string)
    requires format != [] && format[0].Lit?
    ensures (Render(format, items) + rest)[0] == format[0].c
  {
  }

  lemma {:induction false} ConformsTail(format: seq<Directive>, items: seq<Item>)
    requires format != [] && Conforms(format, items)
    ensures format[0].Operand? ==> items != [] && items[0].Kind() == format[0].verb && Conforms(format[1..], items[1..])
    ensures format[0].Lit? ==> Conforms(format[1..], items)
  {
    assert Verbs(format) == (if format[0].Operand? then [format[0].verb] else []) + Verbs(format[1..]);
  }

  lemma SeparatedTail(format: seq<Directive>)
    requires format != [] && Separated(format)
    ensures Separated(format[1..])
    ensures format[0].Operand? ==> |format| > 1 && format[1].Lit? && EndsToken(format[1].c)
  {
    var tail := format[1..];
    forall k | 0 <= k < |tail| && tail[k].Operand?
      ensures k + 1 < |tail| && tail[k + 1].Lit? && EndsToken(tail[k + 1].c)
    {
      assert tail[k] == format[k + 1];
    }
  }

  lemma ScanLiteralConcat(format: seq<Directive>, t: string)
    requires format != [] && format[0].Lit?
    ensures Scan(format, [format[0].c] + t) == Scan(format[1..], t)
  {
    assert ([format[0].c] + t)[1..] == t;
  }

  lemma RenderLiteral(format: seq<Directive>, items: seq<Item>, rest: string)
    requires format != [] && format[0].Lit?
    ensures Render(format, items) + rest == [format[0].c] + (Render(format[1..], items) + rest)
  {
  }

  lemma ScanRenderLiteral(format: seq<Directive>, items: seq<Item>, rest: string)
    requires format != [] && format[0].Lit? && Conforms(format, items)
    requires Conforms(format[1..], items)
    requires Scan(format[1..], Render(format[1..], items) + rest) == ScanResult(items, false)
    ensures Scan(format, Render(format, items) + rest) == ScanResult(items, false)
  {
    RenderLiteral(format, items, rest);
    ScanLiteralConcat(format, Render(format[1..], items) + rest);
  }

  lemma ScanOperandConcat(format: seq<Directive>, text: string, after: string, item: Item)
    requires format != [] && format[0].Operand?
    requires ScanOperand(format[0].verb, text + after) == Some((item, |text|))
    ensures Scan(format, text + after) ==
      ScanResult([item] + Scan(format[1..], after).items, Scan(format[1..], after).failed)
  {
    assert (text + after)[|text|..] == after;
  }

  lemma ScanItemConcat(format: seq<Directive>, item: Item, after: string)
    requires format != [] && format[0] == Operand(item.Kind())
    requires after == [] || EndsToken(after[0])
    ensures Scan(format, ItemText(item) + after) ==
      ScanResult([item] + Scan(format[1..], after).items, Scan(format[1..], after).failed)
  {
    ScanOperandText(item, after);
    ScanOperandConcat(format, ItemText(item), after, item);
  }

  lemma RenderOperand(format: seq<Directive>, items: seq<Item>, rest: string)
    requires format != [] && format[0].Operand? && items != []
    ensures Render(format, items) + rest == ItemText(items[0]) + (Render(format[1..], items[1..]) + rest)
  {
  }

  /** What follows a rendered operand starts with the literal that ends it. */
  lemma OperandFollower(format: seq<Directive>, tailItems: seq<Item>, rest: string)
    requires format != [] && format[0].Operand? && Separated(format)
    ensures Render(format[1..], tailItems) + rest != []
    ensures EndsToken((Render(format[1..], tailItems) + rest)[0])
  {
    SeparatedTail(format);
    RenderStart(format[1..], tailItems, rest);
  }

  lemma ScanRenderOperand(format: seq<Directive>, items: seq<Item>, rest: string)
    requires format != [] && format[0].Operand? && Conforms(format, items)
    requires items != [] && items[0].Kind() == format[0].verb && Conforms(format[1..], items[1..])
    requires Render(format[1..], items[1..]) + rest != []
    requires EndsToken((Render(format[1..], items[1..]) + rest)[0])
    requires Scan(format[1..], Render(format[1..], items[1..]) + rest) == ScanResult(items[1..], false)
    ensures Scan(format, Render(format, items) + rest) == ScanResult(items, false)
  {
    RenderOperand(format, items, rest);
    ScanItemConcat(format, items[0], Render(format[1..], items[1..]) + rest);
    assert [items[0]] + items[1..] == items;
  }

  /** Scanning a rendered format gives back exactly its items, without error,
      whatever comes after it. */
  lemma {:induction false} ScanRender(format: seq<Directive>, items: seq<Item>, rest: string)
    requires Separated(format) && Conforms(format, items)
    ensures Scan(format, Render(format, items) + rest) == ScanResult(items, false)
  {
    if format == [] {
      assert |items| == 0;
    } else {
      SeparatedTail(format);
      ConformsTail(format, items);
      if format[0].Lit? {
        ScanRender(format[1..], items, rest);
        ScanRenderLiteral(format, items, rest);
      } else {
        ScanRender(format[1..], items[1..], rest);
        OperandFollower(format, items[1..], rest);
        ScanRenderOperand(format, items, rest);
      }
    }
  }

  /** Round trip: a record written out as a telemetry line, with anything
      after it, parses back to the same record, decimals exact. */
  lemma NewStateFormat(s: State, rest: string)
    ensures NewState(FormatState(s) + rest) == Ok(s)
  {
    SeparatedLayout(Fields);
    StateItemsConform(s);
    RenderLayout(Fields, StateItems(s));
    ScanRender(Schema, StateItems(s), rest);
    var r := NewState(FormatState(s) + rest);
    StateItemsInjective(r.state, s);
  }

  lemma StateItemsConform(s: State)
    ensures Conforms(Schema, StateItems(s))
  {
    SchemaVerbs();
  }

  /** Distinct records have distinct item lists. */
  lemma StateItemsInjective(a: State, b: State)
    requires StateItems(a) == StateItems(b)
    ensures a == b
  {
    var ia, ib := StateItems(a), StateItems(b);
    assert ia[0] == ib[0] && ia[1] == ib[1] && ia[2] == ib[2] && ia[3] == ib[3];
    assert ia[4] == ib[4] && ia[5] == ib[5] && ia[6] == ib[6] && ia[7] == ib[7];
    assert ia[8] == ib[8] && ia[9] == ib[9] && ia[10] == ib[10] && ia[11] == ib[11];
    assert ia[12] == ib[12] && ia[13] == ib[13] && ia[14] == ib[14] && ia[15] == ib[15];
  }

  // ---------------------------------------------------------------------------
  // Error cases
  // ---------------------------------------------------------------------------

  /** Only a scan error makes newState fail: when the scan succeeds it has
      always stored all sixteen operands, so the item-count check never
      fires. */
  lemma NewStateError(i: string)
    ensures NewState(i).Err? ==> NewState(i).error == ScanFailed
  {
    SchemaVerbs();
  }

  /** A literal that is not the next input character stops the scan with an
      error, whatever has been scanned before it. */
  lemma {:induction false} ScanLiteralMismatch(format: seq<Directive>, input: string)
    requires format != [] && format[0].Lit?
    requires input == [] || input[0] != format[0].c
    ensures Scan(format, input) == ScanResult([], true)
  {
  }

  /** An operand whose text does not scan stops the scan with an error. */
  lemma {:induction false} ScanOperandMismatch(format: seq<Directive>, input: string)
    requires format != [] && format[0].Operand?
    requires ScanOperand(format[0].verb, input).None?
    ensures Scan(format, input) == ScanResult([], true)
  {
  }

  // ---------------------------------------------------------------------------
  // The test line
  // ---------------------------------------------------------------------------

  /** The telemetry line of the tests, field by field. */
  const ExampleFields: seq<string> := [
    "pitch:8;", "roll:9;", "yaw:10;", "vg" + "x:11;", "vgy:12;", "vgz:13;", "templ:14;", "temph:15;",
    "tof:16;", "h:17;", "bat:18;", "baro:19.1;", "time:20;", "agx:21.1;", "agy:22.1;", "agz:23.1;"]

  const ExampleLine: string := Concat(ExampleFields)

  const ExampleState: State :=
    State(Acceleration(Decimal(211, 1), Decimal(221, 1), Decimal(231, 1)), Attitude(8, 9, 10),
          Decimal(191, 1), 18, 16, 20, 17, 15, 14, Speed(11, 12, 13))
  /** The spelling of a one-digit integer. */
  lemma SmallIntText(n: nat)
    requires n < 10
    ensures ItemText(IntItem(n)) == [DigitChar(n)]
  {
  }

  /** The spelling of a two-digit integer. */
  lemma TwoDigitText(n: nat)
    requires 10 <= n < 100
    ensures ItemText(IntItem(n)) == [DigitChar(n / 10), DigitChar(n % 10)]
  {
    assert NatDigits(n / 10) == [DigitChar(n / 10)];
  }

  /** The spelling of a decimal with two integer digits and one fraction digit. */
  lemma TenthsText(m: nat)
    requires 100 <= m < 1000
    ensures ItemText(FloatItem(Decimal(m, 1))) == [DigitChar(m / 100), DigitChar(m / 10 % 10), '.', DigitChar(m % 10)]
  {
    var d := Decimal(m, 1);
    assert Pow10(1) == 10;
    assert WholePart(d) == m / 10;
    assert NatDigits(m / 10) == [DigitChar(m / 10 / 10), DigitChar(m / 10 % 10)] by {
      assert NatDigits(m / 10 / 10) == [DigitChar(m / 10 / 10)];
    }
    assert m / 10 / 10 == m / 100;
    assert PadDigits(m % 10, 1) == [DigitChar(m % 10)] by {
      assert PadDigits(m % 10 / 10, 0) == "";
    }
    assert FractionText(d) == "." + [DigitChar(m % 10)];
  }

  /** Concatenation of a list of strings. */
  function Concat(parts: seq<string>): (s: string)
    ensures parts == [] ==> s == ""
  {
    if parts == [] then "" else parts[0] + Concat(parts[1..])
  }

  /** Part k spells field k with item k as `key:value;`. */
  predicate FieldSpelled(fields: seq<(string, Verb)>, items: seq<Item>, parts: seq<string>, k: nat)
    requires k < |fields| && k < |items| && k < |parts|
  {
    parts[k] == fields[k].0 + ":" + ItemText(items[k]) + ";"
  }

  /** A line is the concatenation of its `key:value;` fields. */
  lemma {:induction false} LineFields(fields: seq<(string, Verb)>, items: seq<Item>, parts: seq<string>)
    requires |items| == |fields| == |parts|
    requires forall k :: 0 <= k < |parts| ==> FieldSpelled(fields, items, parts, k)
    ensures Line(fields, items) == Concat(parts)
  {
    if fields != [] {
      assert FieldSpelled(fields, items, parts, 0);
      forall k | 0 <= k < |parts| - 1 ensures FieldSpelled(fields[1..], items[1..], parts[1..], k) {
        assert FieldSpelled(fields, items, parts, k + 1);
      }
      LineFields(fields[1..], items[1..], parts[1..]);
    }
  }

  lemma ExampleField0()
    ensures FieldSpelled(Fields, StateItems(ExampleState), ExampleFields, 0)
  {
    assert Fields[0].0 == "pitch" && StateItems(ExampleState)[0] == IntItem(8);
    SmallIntText(8);
    assert ItemText(IntItem(8)) == "8";
    assert ExampleFields[0] == "pitch" + ":" + "8" + ";";
  }

  lemma ExampleField1()
    ensures FieldSpelled(Fields, StateItems(ExampleState), ExampleFields, 1)
  {
    assert Fields[1].0 == "roll" && StateItems(ExampleState)[1] == IntItem(9);
    SmallIntText(9);
    assert ItemText(IntItem(9)) == "9";
    assert ExampleFields[1] == "roll" + ":" + "9" + ";";
  }

  lemma ExampleField2()
    ensures FieldSpelled(Fields, StateItems(ExampleState), ExampleFields, 2)
  {
    assert Fields[2].0 == "yaw" && StateItems(ExampleState)[2] == IntItem(10);
    TwoDigitText(10);
    assert ItemText(IntItem(10)) == "10";
    assert ExampleFields[2] == "yaw" + ":" + "10" + ";";
  }

  lemma ExampleField3()
    ensures FieldSpelled(Fields, StateItems(ExampleState), ExampleFields, 3)
  {
    assert Fields[3].0 == "vg" + "x" && StateItems(ExampleState)[3] == IntItem(11);
    TwoDigitText(11);
    assert ItemText(IntItem(11)) == "11";
    assert ExampleFields[3] == "vg" + "x" + ":" + "11" + ";";
  }

  lemma ExampleField4()
    ensures FieldSpelled(Fields, StateItems(ExampleState), ExampleFields, 4)
  {
    assert Fields[4].0 == "vgy" && StateItems(ExampleState)[4] == IntItem(12);
    TwoDigitText(12);
    assert ItemText(IntItem(12)) == "12";
    assert ExampleFields[4] == "vgy" + ":" + "12" + ";";
  }

  lemma ExampleField5()
    ensures FieldSpelled(Fields, StateItems(ExampleState), ExampleFields, 5)
  {
    assert Fields[5].0 == "vgz" && StateItems(ExampleState)[5] == IntItem(13);
    TwoDigitText(13);
    assert ItemText(IntItem(13)) == "13";
    assert ExampleFields[5] == "vgz" + ":" + "13" + ";";
  }

  lemma ExampleField6()
    ensures FieldSpelled(Fields, StateItems(ExampleState), ExampleFields, 6)
  {
    assert Fields[6].0 == "templ" && StateItems(ExampleState)[6] == IntItem(14);
    TwoDigitText(14);
    assert ItemText(IntItem(14)) == "14";
    assert ExampleFields[6] == "templ" + ":" + "14" + ";";
  }

  lemma ExampleField7()
    ensures FieldSpelled(Fields, StateItems(ExampleState), ExampleFields, 7)
  {
    assert Fields[7].0 == "temph" && StateItems(ExampleState)[7] == IntItem(15);
    TwoDigitText(15);
    assert ItemText(IntItem(15)) == "15";
    assert ExampleFields[7] == "temph" + ":" + "15" + ";";
  }

  lemma ExampleField8()
    ensures FieldSpelled(Fields, StateItems(ExampleState), ExampleFields, 8)
  {
    assert Fields[8].0 == "tof" && StateItems(ExampleState)[8] == IntItem(16);
    TwoDigitText(16);
    assert ItemText(IntItem(16)) == "16";
    assert ExampleFields[8] == "tof" + ":" + "16" + ";";
  }

  lemma ExampleField9()
    ensures FieldSpelled(Fields, StateItems(ExampleState), ExampleFields, 9)
  {
    assert Fields[9].0 == "h" && StateItems(ExampleState)[9] == IntItem(17);
    TwoDigitText(17);
    assert ItemText(IntItem(17)) == "17";
    assert ExampleFields[9] == "h" + ":" + "17" + ";";
  }

  lemma ExampleField10()
    ensures FieldSpelled(Fields, StateItems(ExampleState), ExampleFields, 10)
  {
    assert Fields[10].0 == "bat" && StateItems(ExampleState)[10] == IntItem(18);
    TwoDigitText(18);
    assert ItemText(IntItem(18)) == "18";
    assert ExampleFields[10] == "bat" + ":" + "18" + ";";
  }

  lemma ExampleField11()
    ensures FieldSpelled(Fields, StateItems(ExampleState), ExampleFields, 11)
  {
    assert Fields[11].0 == "baro" && StateItems(ExampleState)[11] == FloatItem(Decimal(191, 1));
    TenthsText(191);
    assert ItemText(FloatItem(Decimal(191, 1))) == "19.1";
    assert ExampleFields[11] == "baro" + ":" + "19.1" + ";";
  }

  lemma ExampleField12()
    ensures FieldSpelled(Fields, StateItems(ExampleState), ExampleFields, 12)
  {
    assert Fields[12].0 == "time" && StateItems(ExampleState)[12] == IntItem(20);
    TwoDigitText(20);
    assert ItemText(IntItem(20)) == "20";
    assert ExampleFields[12] == "time" + ":" + "20" + ";";
  }

  lemma ExampleField13()
    ensures FieldSpelled(Fields, StateItems(ExampleState), ExampleFields, 13)
  {
    assert Fields[13].0 == "agx" && StateItems(ExampleState)[13] == FloatItem(Decimal(211, 1));
    TenthsText(211);
    assert ItemText(FloatItem(Decimal(211, 1))) == "21.1";
    assert ExampleFields[13] == "agx" + ":" + "21.1" + ";";
  }

  lemma ExampleField14()
    ensures FieldSpelled(Fields, StateItems(ExampleState), ExampleFields, 14)
  {
    assert Fields[14].0 == "agy" && StateItems(ExampleState)[14] == FloatItem(Decimal(221, 1));
    TenthsText(221);
    assert ItemText(FloatItem(Decimal(221, 1))) == "22.1";
    assert ExampleFields[14] == "agy" + ":" + "22.1" + ";";
  }

  lemma ExampleField15()
    ensures FieldSpelled(Fields, StateItems(ExampleState), ExampleFields, 15)
  {
    assert Fields[15].0 == "agz" && StateItems(ExampleState)[15] == FloatItem(Decimal(231, 1));
    TenthsText(231);
    assert ItemText(FloatItem(Decimal(231, 1))) == "23.1";
    assert ExampleFields[15] == "agz" + ":" + "23.1" + ";";
  }

  lemma ExampleLineFormat()
    ensures FormatState(ExampleState) == ExampleLine
  {
    forall k | 0 <= k < 16 ensures FieldSpelled(Fields, StateItems(ExampleState), ExampleFields, k) {
      if k == 0 {
        ExampleField0();
      } else if k == 1 {
        ExampleField1();
      } else if k == 2 {
        ExampleField2();
      } else if k == 3 {
        ExampleField3();
      } else if k == 4 {
        ExampleField4();
      } else if k == 5 {
        ExampleField5();
      } else if k == 6 {
        ExampleField6();
      } else if k == 7 {
        ExampleField7();
      } else if k == 8 {
        ExampleField8();
      } else if k == 9 {
        ExampleField9();
      } else if k == 10 {
        ExampleField10();
      } else if k == 11 {
        ExampleField11();
      } else if k == 12 {
        ExampleField12();
      } else if k == 13 {
        ExampleField13();
      } else if k == 14 {
        ExampleField14();
      } else {
        ExampleField15();
      }
    }
    LineFields(Fields, StateItems(ExampleState), ExampleFields);
  }

  /** The test line parses to the test record; its barometer and
      accelerations are exactly 19.1, 21.1, 22.1 and 23.1. */
  lemma NewStateExample()
    ensures NewState(ExampleLine) == Ok(ExampleState)
    ensures NewState(ExampleLine).state.barometer.Value() == 19.1
    ensures NewState(ExampleLine).state.acceleration.z.Value() == 23.1
  {
    ExampleLineFormat();
    NewStateFormat(ExampleState, "");
    assert FormatState(ExampleState) + "" == ExampleLine;
  }

  /** An empty line, or one whose first key is not pitch, is a scan error. */
  lemma NewStateMalformed()
    ensures NewState("") == Err(ScanFailed)
    ensures NewState("roll:9;") == Err(ScanFailed)
  {
    assert Schema[0] == Lit('p');
    ScanLiteralMismatch(Schema, "");
    ScanLiteralMismatch(Schema, "roll:9;");
  }
}
