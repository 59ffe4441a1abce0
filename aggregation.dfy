/**
 * The plant aggregator (`aggregate_plant_data`): folds the latest reading of every device into one
 * eight-field plant summary. Five fixed fields are summed, every `*_Panel_Power` attribute is pooled
 * into one panel total, and the latest `Update_time` and `Server_Time` are kept.
 */
module Aggregation {
  import opened Common
  import opened Numbers
  import opened Timestamps

  /** A device's attributes in insertion order; None stands for a JSON null. */
  type Attributes = seq<(string, Option<string>)>

  /** A device's latest reading: a mapping, or a value that is not one (None, a list, ...). */
  datatype Reading = Mapping(attrs: Attributes) | NotMapping

  /** Serial number to reading, in insertion order. */
  type DeviceData = seq<(string, Reading)>

  /** A value of the plant summary: a rounded amount or a timestamp string (None when unknown). */
  datatype PlantValue = Amount(amount: real) | Stamp(stamp: Option<string>)

  type PlantData = seq<(string, PlantValue)>

  /** `round(x, n)`, left abstract. */
  type Rounding = (real, nat) -> real

  /** The attributes summed into a field of the same name. */
  const SummedFields: seq<string> := ["Power", "Energy_Today", "Energy_This_Month", "Energy_This_Year",
                                      "Energy_Total"]

  predicate IsSummedField(attr: string)
  {
    attr == "Power" || attr == "Energy_Today" || attr == "Energy_This_Month"
    || attr == "Energy_This_Year" || attr == "Energy_Total"
  }

  lemma SummedFieldsListed(attr: string)
    ensures attr in SummedFields <==> IsSummedField(attr)
  {
  }

  predicate IsPanelPower(attr: string)
  {
    EndsWith(attr, "_Panel_Power")
  }

  predicate IsSummable(attr: string)
  {
    IsSummedField(attr) || IsPanelPower(attr)
  }

  predicate IsTimestampAttr(attr: string)
  {
    attr == "Update_time" || attr == "Server_Time"
  }

  /** `latest_*_str` and `compare_*_obj` for one timestamp attribute. */
  datatype Latest = Latest(text: Option<string>, compare: Option<DateTime>)

  /** The running state of the aggregation loop. */
  datatype Acc = Acc(power: real, today: real, month: real, year: real, total: real, panel: real,
                     update: Latest, server: Latest)

  const Start := Acc(0.0, 0.0, 0.0, 0.0, 0.0, 0.0, Latest(None, None), Latest(None, None))

  /** Adds a converted amount to the field the attribute feeds. */
  function AddAmount(acc: Acc, attr: string, v: real): Acc
  {
    if attr == "Power" then acc.(power := acc.power + v)
    else if attr == "Energy_Today" then acc.(today := acc.today + v)
    else if attr == "Energy_This_Month" then acc.(month := acc.month + v)
    else if attr == "Energy_This_Year" then acc.(year := acc.year + v)
    else if attr == "Energy_Total" then acc.(total := acc.total + v)
    else if IsPanelPower(attr) then acc.(panel := acc.panel + v)
    else acc
  }

  /** How a timestamp string is read; the loop uses ParseTimestamp. */
  type Parser = string -> Option<DateTime>

  /** One timestamp value seen by the loop: an empty value changes nothing, a new value is kept
      with its own text, and the time held is only replaced by a strictly later one. */
  function Track(parse: Parser, l: Latest, value: Option<string>): (r: Latest)
    ensures !NonEmpty(value) ==> r == l
    ensures r == l || (r.text == value && NonEmpty(value))
    ensures l.compare.Some? ==>
      r.compare == l.compare || (r.compare.Some? && Later(r.compare.value, l.compare.value))
  {
    if value.None? || value.value == "" then l
    else match parse(value.value)
      case Some(t) => if l.compare.None? || Later(t, l.compare.value) then Latest(value, Some(t)) else l
      case None => if l.text.None? then Latest(value, l.compare) else l
  }

  /**
   * How the loop reads a value: `sum` converts a numeric attribute and `parse` reads a timestamp.
   * The fold and its lemmas are stated for any readers; `Standard` holds the ones the code uses.
   */
  datatype Readers = Readers(sum: Option<string> -> real, parse: Parser)

  /** sum_numbers_from_string, and strptime with the fixed `%Y-%m-%dT%H:%M:%SZ` format. */
  const Standard := Readers(SumNumbers, ParseTimestamp)

  /** The amount part of one attribute: a summable attribute with a non-null value adds its sum. */
  function Gather(rd: Readers, acc: Acc, attr: string, value: Option<string>): Acc
  {
    if IsSummable(attr) && value.Some? then AddAmount(acc, attr, rd.sum(value)) else acc
  }

  /** The timestamp part of one attribute. */
  function Stamps(rd: Readers, acc: Acc, attr: string, value: Option<string>): Acc
  {
    if attr == "Update_time" then acc.(update := Track(rd.parse, acc.update, value))
    else if attr == "Server_Time" then acc.(server := Track(rd.parse, acc.server, value))
    else acc
  }

  /** One attribute of one device. */
  function Step(rd: Readers, acc: Acc, attr: string, value: Option<string>): Acc
  {
    Stamps(rd, Gather(rd, acc, attr, value), attr, value)
  }

  function FoldAttrs(rd: Readers, acc: Acc, attrs: Attributes): Acc
    decreases |attrs|
  {
    if attrs == [] then acc
    else
      var last := attrs[|attrs| - 1];
      Step(rd, FoldAttrs(rd, acc, attrs[..|attrs| - 1]), last.0, last.1)
  }

  function FoldDevices(rd: Readers, acc: Acc, devices: DeviceData): Acc
    decreases |devices|
  {
    if devices == [] then acc
    else
      var before := FoldDevices(rd, acc, devices[..|devices| - 1]);
      match devices[|devices| - 1].1
      case Mapping(attrs) => FoldAttrs(rd, before, attrs)
      case NotMapping => before
  }

  lemma FoldAttrsStep(rd: Readers, acc: Acc, attrs: Attributes, j: nat)
    requires j < |attrs|
    ensures FoldAttrs(rd, acc, attrs[..j + 1]) == Step(rd, FoldAttrs(rd, acc, attrs[..j]), attrs[j].0, attrs[j].1)
  {
    assert attrs[..j + 1][..j] == attrs[..j];
  }

  lemma FoldDevicesStep(rd: Readers, acc: Acc, devices: DeviceData, i: nat)
    requires i < |devices|
    ensures FoldDevices(rd, acc, devices[..i + 1])
      == match devices[i].1
         case Mapping(attrs) => FoldAttrs(rd, FoldDevices(rd, acc, devices[..i]), attrs)
         case NotMapping => FoldDevices(rd, acc, devices[..i])
  {
    assert devices[..i + 1][..i] == devices[..i];
  }

  /** The eight-key result built from the final accumulators. */
  function Summary(acc: Acc, rnd: Rounding): PlantData
  {
    [("Power", Amount(rnd(acc.power / 1000.0, 3))),
     ("Energy_Today", Amount(rnd(acc.today, 2))),
     ("Energy_This_Month", Amount(rnd(acc.month, 2))),
     ("Energy_This_Year", Amount(rnd(acc.year, 2))),
     ("Energy_Total", Amount(rnd(acc.total, 2))),
     ("Panel_Power", Amount(rnd(acc.panel / 1000.0, 3))),
     ("Update_time", Stamp(acc.update.text)),
     ("Server_Time", Stamp(acc.server.text))]
  }

  /** The keys of the plant summary, in order. */
  const PlantKeys: seq<string> := SummedFields + ["Panel_Power", "Update_time", "Server_Time"]

  /** The value `aggregate_plant_data` returns: empty exactly when there are no devices, and
      otherwise the eight keys in order, six amounts and then two timestamps. */
  function Aggregate(fetched: Option<DeviceData>, rnd: Rounding): (r: PlantData)
    ensures r == [] <==> fetched.None? || fetched.value == []
    ensures r != [] ==>
      && |r| == |PlantKeys| == 8
      && (forall k :: 0 <= k < 8 ==> r[k].0 == PlantKeys[k])
      && (forall k :: 0 <= k < 6 ==> r[k].1.Amount?) && r[6].1.Stamp? && r[7].1.Stamp?
  {
    if fetched.None? || fetched.value == [] then [] else Summary(FoldDevices(Standard, Start, fetched.value), rnd)
  }

  // ---------------------------------------------------------------------------------------
  // What the summary means: per-field totals over all attributes, and the latest timestamps
  // ---------------------------------------------------------------------------------------

  /** The six numeric outputs. */
  datatype Field = PowerField | TodayField | MonthField | YearField | TotalField | PanelField

  /** Whether an attribute feeds a numeric output. */
  predicate Feeds(attr: string, f: Field)
  {
    match f
    case PowerField => attr == "Power"
    case TodayField => attr == "Energy_Today"
    case MonthField => attr == "Energy_This_Month"
    case YearField => attr == "Energy_This_Year"
    case TotalField => attr == "Energy_Total"
    case PanelField => IsPanelPower(attr)
  }

  function Get(acc: Acc, f: Field): real
  {
    match f
    case PowerField => acc.power
    case TodayField => acc.today
    case MonthField => acc.month
    case YearField => acc.year
    case TotalField => acc.total
    case PanelField => acc.panel
  }

  /** What one attribute adds to an output: its converted value if it feeds the output and is not null. */
  function Contribution(rd: Readers, attr: string, value: Option<string>, f: Field): real
  {
    if Feeds(attr, f) && value.Some? then rd.sum(value) else 0.0
  }

  /** The sum of every contribution to `f`. */
  function Total(rd: Readers, attrs: Attributes, f: Field): real
  {
    if attrs == [] then 0.0 else Contribution(rd, attrs[0].0, attrs[0].1, f) + Total(rd, attrs[1..], f)
  }

  /** The attributes of every mapping reading, device after device. */
  function Pairs(devices: DeviceData): Attributes
  {
    if devices == [] then []
    else (match devices[0].1 case Mapping(attrs) => attrs case NotMapping => []) + Pairs(devices[1..])
  }

  /** The values of the attributes called `name`, in order. */
  function Values(attrs: Attributes, name: string): seq<Option<string>>
  {
    if attrs == [] then []
    else (if attrs[0].0 == name then [attrs[0].1] else []) + Values(attrs[1..], name)
  }

  /** Python's truthiness of a value string. */
  predicate NonEmpty(v: Option<string>)
  {
    v.Some? && v.value != ""
  }

  predicate Parses(parse: Parser, v: Option<string>)
  {
    NonEmpty(v) && parse(v.value).Some?
  }

  function Parsed(parse: Parser, v: Option<string>): DateTime
    requires Parses(parse, v)
  {
    parse(v.value).value
  }

  /** Track applied to each value in turn. */
  function TrackAll(parse: Parser, l: Latest, vs: seq<Option<string>>): Latest
    decreases |vs|
  {
    if vs == [] then l else Track(parse, TrackAll(parse, l, vs[..|vs| - 1]), vs[|vs| - 1])
  }

  /** No time is kept exactly when no value parses. */
  predicate NoneIffUnparsed(parse: Parser, l: Latest, vs: seq<Option<string>>)
  {
    l.compare.None? <==> forall k :: 0 <= k < |vs| ==> !Parses(parse, vs[k])
  }

  /** The kept time is the strictly latest one, held with the text of its first occurrence. */
  predicate KeepsLatest(parse: Parser, l: Latest, vs: seq<Option<string>>)
  {
    l.compare.Some? ==>
      (exists k :: 0 <= k < |vs| && Parses(parse, vs[k]) && Parsed(parse, vs[k]) == l.compare.value && l.text == vs[k]
                   && forall i :: 0 <= i < k && Parses(parse, vs[i]) ==> Later(l.compare.value, Parsed(parse, vs[i])))
      && forall i :: 0 <= i < |vs| && Parses(parse, vs[i]) ==> !Later(Parsed(parse, vs[i]), l.compare.value)
  }

  /** With no parseable value, the text is the first non-empty value, or None if there is none. */
  predicate KeepsFirstRaw(parse: Parser, l: Latest, vs: seq<Option<string>>)
  {
    l.compare.None? ==>
      (l.text.None? <==> forall k :: 0 <= k < |vs| ==> !NonEmpty(vs[k]))
      && (l.text.Some? ==> exists k :: 0 <= k < |vs| && NonEmpty(vs[k]) && l.text == vs[k]
                                        && forall i :: 0 <= i < k ==> !NonEmpty(vs[i]))
  }

  predicate IsLatest(parse: Parser, l: Latest, vs: seq<Option<string>>)
  {
    NoneIffUnparsed(parse, l, vs) && KeepsLatest(parse, l, vs) && KeepsFirstRaw(parse, l, vs)
  }

  // ---------------------------------------------------------------------------------------
  // Properties
  // ---------------------------------------------------------------------------------------

  /** Absent input and an empty device map give an empty result. */
  lemma AggregateOfNothing(fetched: Option<DeviceData>, rnd: Rounding)
    requires fetched.None? || fetched.value == []
    ensures Aggregate(fetched, rnd) == []
  {
  }

  /** None of the five field names, and not the plant key `Panel_Power` either, ends in `_Panel_Power`. */
  lemma FieldNamesArePlain()
    ensures !IsPanelPower("Power") && !IsPanelPower("Energy_Today") && !IsPanelPower("Energy_This_Month")
    ensures !IsPanelPower("Energy_This_Year") && !IsPanelPower("Energy_Total") && !IsPanelPower("Panel_Power")
    ensures !IsSummable("Panel_Power")
  {
    assert "Energy_Total"[0] != "_Panel_Power"[0];
    assert "Energy_This_Month"[5..][0] != "_Panel_Power"[0];
    assert "Energy_This_Year"[4..][0] != "_Panel_Power"[0];
  }

  /** An attribute is summed exactly when it feeds one output, and it feeds at most one. */
  lemma SummableFeedsOne(attr: string)
    ensures IsSummable(attr) <==> exists f :: Feeds(attr, f)
    ensures forall f, g :: Feeds(attr, f) && Feeds(attr, g) ==> f == g
  {
    FieldNamesArePlain();
    if IsSummable(attr) {
      if IsSummedField(attr) {
        assert Feeds(attr, PowerField) || Feeds(attr, TodayField) || Feeds(attr, MonthField)
          || Feeds(attr, YearField) || Feeds(attr, TotalField);
      } else {
        assert Feeds(attr, PanelField);
      }
    }
  }

  lemma AddAmountAdds(acc: Acc, attr: string, v: real, f: Field)
    ensures Get(AddAmount(acc, attr, v), f) == Get(acc, f) + (if Feeds(attr, f) then v else 0.0)
  {
    FieldNamesArePlain();
  }

  /** One attribute adds its contribution to each output and changes nothing else numeric. */
  lemma StepAdds(rd: Readers, acc: Acc, attr: string, value: Option<string>, f: Field)
    ensures Get(Step(rd, acc, attr, value), f) == Get(acc, f) + Contribution(rd, attr, value, f)
  {
    var a := Gather(rd, acc, attr, value);
    assert Get(Step(rd, acc, attr, value), f) == Get(a, f);
    SummableFeedsOne(attr);
    if IsSummable(attr) && value.Some? {
      AddAmountAdds(acc, attr, rd.sum(value), f);
    } else {
      assert !(Feeds(attr, f) && value.Some?);
    }
  }

  /** One attribute moves the timestamp of its own name only. */
  lemma StepStamps(rd: Readers, acc: Acc, attr: string, value: Option<string>)
    ensures Step(rd, acc, attr, value).update == if attr == "Update_time" then Track(rd.parse, acc.update, value) else acc.update
    ensures Step(rd, acc, attr, value).server == if attr == "Server_Time" then Track(rd.parse, acc.server, value) else acc.server
  {
    var a := Gather(rd, acc, attr, value);
    assert a.update == acc.update && a.server == acc.server by {
      if IsSummable(attr) && value.Some? {
        AddAmountKeepsStamps(acc, attr, rd.sum(value));
      }
    }
    assert "Update_time"[0] != "Server_Time"[0];
  }

  lemma AddAmountKeepsStamps(acc: Acc, attr: string, v: real)
    ensures AddAmount(acc, attr, v).update == acc.update && AddAmount(acc, attr, v).server == acc.server
  {
  }

  lemma {:induction false} TotalConcat(rd: Readers, a: Attributes, b: Attributes, f: Field)
    ensures Total(rd, a + b, f) == Total(rd, a, f) + Total(rd, b, f)
    decreases |a|
  {
    if a == [] {
      assert a + b == b;
    } else {
      assert (a + b)[0] == a[0];
      assert (a + b)[1..] == a[1..] + b;
      TotalConcat(rd, a[1..], b, f);
    }
  }

  /** Each numeric output of the attribute fold is its start value plus the total of its contributions. */
  lemma {:induction false} FoldAttrsTotal(rd: Readers, acc: Acc, attrs: Attributes, f: Field)
    ensures Get(FoldAttrs(rd, acc, attrs), f) == Get(acc, f) + Total(rd, attrs, f)
    decreases |attrs|
  {
    if attrs != [] {
      var p := attrs[..|attrs| - 1];
      var last := attrs[|attrs| - 1];
      FoldAttrsTotal(rd, acc, p, f);
      StepAdds(rd, FoldAttrs(rd, acc, p), last.0, last.1, f);
      assert attrs == p + [last];
      TotalConcat(rd, p, [last], f);
      assert Total(rd, [last], f) == Contribution(rd, last.0, last.1, f) + Total(rd, [], f);
    }
  }

  lemma {:induction false} FoldAttrsConcat(rd: Readers, acc: Acc, a: Attributes, b: Attributes)
    ensures FoldAttrs(rd, acc, a + b) == FoldAttrs(rd, FoldAttrs(rd, acc, a), b)
    decreases |b|
  {
    if b == [] {
      assert a + b == a;
    } else {
      assert (a + b)[..|a + b| - 1] == a + b[..|b| - 1];
      FoldAttrsConcat(rd, acc, a, b[..|b| - 1]);
    }
  }

  lemma {:induction false} PairsConcat(a: DeviceData, b: DeviceData)
    ensures Pairs(a + b) == Pairs(a) + Pairs(b)
    decreases |a|
  {
    if a == [] {
      assert a + b == b;
    } else {
      assert (a + b)[0] == a[0];
      assert (a + b)[1..] == a[1..] + b;
      PairsConcat(a[1..], b);
      var h := match a[0].1 case Mapping(attrs) => attrs case NotMapping => [];
      assert Pairs(a + b) == h + Pairs(a[1..] + b);
      assert h + (Pairs(a[1..]) + Pairs(b)) == (h + Pairs(a[1..])) + Pairs(b);
    }
  }

  /** Folding device by device is folding over all their attributes; non-mapping readings add none. */
  lemma {:induction false} FoldDevicesPairs(rd: Readers, acc: Acc, devices: DeviceData)
    ensures FoldDevices(rd, acc, devices) == FoldAttrs(rd, acc, Pairs(devices))
    decreases |devices|
  {
    if devices != [] {
      var p := devices[..|devices| - 1];
      var last := devices[|devices| - 1];
      FoldDevicesPairs(rd, acc, p);
      assert devices == p + [last];
      PairsConcat(p, [last]);
      var mine := match last.1 case Mapping(attrs) => attrs case NotMapping => [];
      assert Pairs([last]) == mine + [];
      assert mine + [] == mine;
      FoldAttrsConcat(rd, acc, Pairs(p), mine);
    }
  }

  lemma {:induction false} ValuesConcat(a: Attributes, b: Attributes, name: string)
    ensures Values(a + b, name) == Values(a, name) + Values(b, name)
    decreases |a|
  {
    if a == [] {
      assert a + b == b;
    } else {
      assert (a + b)[0] == a[0];
      assert (a + b)[1..] == a[1..] + b;
      ValuesConcat(a[1..], b, name);
      var h := if a[0].0 == name then [a[0].1] else [];
      assert Values(a + b, name) == h + Values(a[1..] + b, name);
      assert Values(a, name) == h + Values(a[1..], name);
      assert h + (Values(a[1..], name) + Values(b, name)) == (h + Values(a[1..], name)) + Values(b, name);
    }
  }

  /** The latest `Update_time` and `Server_Time` of the fold are Track over that attribute's values. */
  lemma {:induction false} FoldAttrsStamps(rd: Readers, acc: Acc, attrs: Attributes)
    ensures FoldAttrs(rd, acc, attrs).update == TrackAll(rd.parse, acc.update, Values(attrs, "Update_time"))
    ensures FoldAttrs(rd, acc, attrs).server == TrackAll(rd.parse, acc.server, Values(attrs, "Server_Time"))
    decreases |attrs|
  {
    if attrs != [] {
      var p := attrs[..|attrs| - 1];
      var last := attrs[|attrs| - 1];
      FoldAttrsStamps(rd, acc, p);
      assert attrs == p + [last];
      ValuesConcat(p, [last], "Update_time");
      ValuesConcat(p, [last], "Server_Time");
      StepStamps(rd, FoldAttrs(rd, acc, p), last.0, last.1);
      TrackAllSnoc(rd.parse, acc.update, Values(p, "Update_time"), Values([last], "Update_time"));
      TrackAllSnoc(rd.parse, acc.server, Values(p, "Server_Time"), Values([last], "Server_Time"));
    }
  }

  /** Appending no value or one value to the list. */
  lemma TrackAllSnoc(parse: Parser, l: Latest, vs: seq<Option<string>>, w: seq<Option<string>>)
    requires |w| <= 1
    ensures TrackAll(parse, l, vs + w) == if w == [] then TrackAll(parse, l, vs) else Track(parse, TrackAll(parse, l, vs), w[0])
  {
    if w == [] {
      assert vs + w == vs;
    } else {
      assert (vs + w)[..|vs + w| - 1] == vs;
    }
  }

  /** A value that is empty changes nothing and keeps every property. */
  lemma TrackEmpty(parse: Parser, l: Latest, p: seq<Option<string>>, v: Option<string>)
    requires IsLatest(parse, l, p) && !NonEmpty(v)
    ensures IsLatest(parse, Track(parse, l, v), p + [v])
  {
    var vs := p + [v];
    assert Track(parse, l, v) == l;
    assert vs[|p|] == v;
    assert NoneIffUnparsed(parse, l, vs) by {
      assert forall k :: 0 <= k < |p| ==> vs[k] == p[k];
    }
    assert KeepsLatest(parse, l, vs) by {
      if l.compare.Some? {
        var k :| 0 <= k < |p| && Parses(parse, p[k]) && Parsed(parse, p[k]) == l.compare.value && l.text == p[k]
                  && forall i :: 0 <= i < k && Parses(parse, p[i]) ==> Later(l.compare.value, Parsed(parse, p[i]));
        assert forall i :: 0 <= i <= k ==> vs[i] == p[i];
        assert forall i :: 0 <= i < |p| ==> vs[i] == p[i];
      }
    }
    assert KeepsFirstRaw(parse, l, vs) by {
      assert forall k :: 0 <= k < |p| ==> vs[k] == p[k];
      if l.compare.None? && l.text.Some? {
        var k :| 0 <= k < |p| && NonEmpty(p[k]) && l.text == p[k] && forall i :: 0 <= i < k ==> !NonEmpty(p[i]);
        assert vs[k] == p[k];
      }
    }
  }

  /** A non-empty value that does not parse is kept only when no text is held yet. */
  lemma TrackRaw(parse: Parser, l: Latest, p: seq<Option<string>>, v: Option<string>)
    requires IsLatest(parse, l, p) && NonEmpty(v) && !Parses(parse, v)
    ensures IsLatest(parse, Track(parse, l, v), p + [v])
  {
    var vs := p + [v];
    assert forall k :: 0 <= k < |p| ==> vs[k] == p[k];
    if l.compare.Some? {
      var k :| 0 <= k < |p| && Parses(parse, p[k]) && Parsed(parse, p[k]) == l.compare.value && l.text == p[k]
                && forall i :: 0 <= i < k && Parses(parse, p[i]) ==> Later(l.compare.value, Parsed(parse, p[i]));
      assert Track(parse, l, v) == l;
      assert vs[k] == p[k];
    } else if l.text.Some? {
      var k :| 0 <= k < |p| && NonEmpty(p[k]) && l.text == p[k] && forall i :: 0 <= i < k ==> !NonEmpty(p[i]);
      assert Track(parse, l, v) == l;
      assert vs[k] == p[k];
    } else {
      assert Track(parse, l, v) == Latest(v, None);
      assert vs[|p|] == v;
    }
  }

  /** A parseable value replaces the held one exactly when it is strictly later, or nothing is held. */
  lemma TrackParsed(parse: Parser, l: Latest, p: seq<Option<string>>, v: Option<string>)
    requires IsLatest(parse, l, p) && Parses(parse, v)
    ensures IsLatest(parse, Track(parse, l, v), p + [v])
  {
    var vs := p + [v];
    var t := Parsed(parse, v);
    assert forall k :: 0 <= k < |p| ==> vs[k] == p[k];
    assert vs[|p|] == v;
    if l.compare.None? {
      assert Track(parse, l, v) == Latest(v, Some(t));
    } else {
      var c := l.compare.value;
      var k :| 0 <= k < |p| && Parses(parse, p[k]) && Parsed(parse, p[k]) == c && l.text == p[k]
                && forall i :: 0 <= i < k && Parses(parse, p[i]) ==> Later(c, Parsed(parse, p[i]));
      if Later(t, c) {
        assert Track(parse, l, v) == Latest(v, Some(t));
        forall i | 0 <= i < |vs| - 1 && Parses(parse, vs[i])
          ensures Later(t, Parsed(parse, vs[i])) && !Later(Parsed(parse, vs[i]), t)
        {
          var x := Parsed(parse, vs[i]);
          assert !Later(x, c);
          LaterIsStrictTotal(t, c, x);
          LaterIsStrictTotal(x, t, c);
        }
      } else {
        assert Track(parse, l, v) == l;
        assert vs[k] == p[k];
      }
    }
  }

  /** After any run of values, `latest` holds the first value with the strictly latest time, or, when no
      value parses, the first non-empty value (None if there is none). */
  lemma {:induction false} TrackAllLatest(parse: Parser, vs: seq<Option<string>>)
    ensures IsLatest(parse, TrackAll(parse, Latest(None, None), vs), vs)
    decreases |vs|
  {
    if vs != [] {
      var p := vs[..|vs| - 1];
      var v := vs[|vs| - 1];
      TrackAllLatest(parse, p);
      assert vs == p + [v];
      var l := TrackAll(parse, Latest(None, None), p);
      if !NonEmpty(v) {
        TrackEmpty(parse, l, p, v);
      } else if Parses(parse, v) {
        TrackParsed(parse, l, p, v);
      } else {
        TrackRaw(parse, l, p, v);
      }
    }
  }

  /** The accumulators after all devices: each numeric output is the total of its contributions over
      every mapping reading, and each timestamp is Track over that attribute's values. */
  lemma FoldDevicesMeaning(rd: Readers, devices: DeviceData)
    ensures var p := Pairs(devices);
      FoldDevices(rd, Start, devices)
      == Acc(Total(rd, p, PowerField), Total(rd, p, TodayField), Total(rd, p, MonthField), Total(rd, p, YearField),
             Total(rd, p, TotalField), Total(rd, p, PanelField),
             TrackAll(rd.parse, Latest(None, None), Values(p, "Update_time")),
             TrackAll(rd.parse, Latest(None, None), Values(p, "Server_Time")))
  {
    var p := Pairs(devices);
    FoldDevicesPairs(rd, Start, devices);
    FoldAttrsTotal(rd, Start, p, PowerField);
    FoldAttrsTotal(rd, Start, p, TodayField);
    FoldAttrsTotal(rd, Start, p, MonthField);
    FoldAttrsTotal(rd, Start, p, YearField);
    FoldAttrsTotal(rd, Start, p, TotalField);
    FoldAttrsTotal(rd, Start, p, PanelField);
    FoldAttrsStamps(rd, Start, p);
  }

  /** A non-empty device map gives the eight keys, in order, built from those totals and timestamps. */
  lemma AggregateSummary(devices: DeviceData, rnd: Rounding)
    requires devices != []
    ensures var p := Pairs(devices);
      Aggregate(Some(devices), rnd)
      == Summary(Acc(Total(Standard, p, PowerField), Total(Standard, p, TodayField), Total(Standard, p, MonthField), Total(Standard, p, YearField),
                     Total(Standard, p, TotalField), Total(Standard, p, PanelField),
                     TrackAll(ParseTimestamp, Latest(None, None), Values(p, "Update_time")),
                     TrackAll(ParseTimestamp, Latest(None, None), Values(p, "Server_Time"))), rnd)
  {
    FoldDevicesMeaning(Standard, devices);
  }

  /** The two timestamp outputs satisfy the latest-wins rule over every device's values. */
  lemma AggregateStamps(devices: DeviceData, rnd: Rounding)
    requires devices != []
    ensures var r := Aggregate(Some(devices), rnd);
      |r| == 8 && r[6].0 == "Update_time" && r[7].0 == "Server_Time"
      && (exists l :: IsLatest(ParseTimestamp, l, Values(Pairs(devices), "Update_time")) && r[6].1 == Stamp(l.text))
      && (exists l :: IsLatest(ParseTimestamp, l, Values(Pairs(devices), "Server_Time")) && r[7].1 == Stamp(l.text))
  {
    AggregateSummary(devices, rnd);
    TrackAllLatest(ParseTimestamp, Values(Pairs(devices), "Update_time"));
    TrackAllLatest(ParseTimestamp, Values(Pairs(devices), "Server_Time"));
  }

  /** The summing part of the loop body for one attribute. */
  method AddSummable(acc: Acc, attribute: string, value: Option<string>) returns (next: Acc)
    ensures next == Gather(Standard, acc, attribute, value)
  {
    next := acc;
    var summable := attribute in SummedFields || EndsWith(attribute, "_Panel_Power");
    SummedFieldsListed(attribute);
    if summable && value.Some? {
      var amount := SumNumbersFromString(value);
      next := AddAmount(acc, attribute, amount);
    }
  }

  /** The timestamp part of the loop body for one attribute. */
  method TrackTimestamp(acc: Acc, attribute: string, value: Option<string>) returns (next: Acc)
    ensures next == Stamps(Standard, acc, attribute, value)
  {
    var updateText, updateObj := acc.update.text, acc.update.compare;
    var serverText, serverObj := acc.server.text, acc.server.compare;
    if attribute == "Update_time" || attribute == "Server_Time" {
      if value.Some? && value.value != "" {
        var parsed := ParseTimestamp(value.value);
        if parsed.Some? {
          if attribute == "Update_time" {
            if updateObj.None? || Later(parsed.value, updateObj.value) {
              updateObj := parsed;
              updateText := value;
            }
          } else {
            if serverObj.None? || Later(parsed.value, serverObj.value) {
              serverObj := parsed;
              serverText := value;
            }
          }
        } else {
          if attribute == "Update_time" && updateText.None? {
            updateText := value;
          }
          if attribute == "Server_Time" && serverText.None? {
            serverText := value;
          }
        }
      }
    }
    next := acc.(update := Latest(updateText, updateObj), server := Latest(serverText, serverObj));
  }

  /** aggregate_plant_data; the ten running variables are the fields of `acc`. */
  method AggregatePlantData(fetched: Option<DeviceData>, rnd: Rounding) returns (result: PlantData)
    ensures result == Aggregate(fetched, rnd)
  {
    if fetched.None? || fetched.value == [] {
      return [];
    }
    var devices := fetched.value;
    var acc := Start;
    var i := 0;
    while i < |devices|
      invariant 0 <= i <= |devices|
      invariant acc == FoldDevices(Standard, Start, devices[..i])
    {
      var reading := devices[i].1;
      FoldDevicesStep(Standard, Start, devices, i);
      if reading.Mapping? && reading.attrs != [] {
        var attrs := reading.attrs;
        ghost var before := acc;
        var j := 0;
        while j < |attrs|
          invariant 0 <= j <= |attrs|
          invariant acc == FoldAttrs(Standard, before, attrs[..j])
        {
          FoldAttrsStep(Standard, before, attrs, j);
          acc := AddSummable(acc, attrs[j].0, attrs[j].1);
          acc := TrackTimestamp(acc, attrs[j].0, attrs[j].1);
          j := j + 1;
        }
        assert attrs[..j] == attrs;
      }
      i := i + 1;
    }
    assert devices[..i] == devices;
    result := Summary(acc, rnd);
  }
}
