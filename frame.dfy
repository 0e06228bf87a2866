/**
 * The frame parser of the acquisition program (`parse_sensor_data` in
 * display.py): a received chunk is cut at every "Sensor", each piece that
 * mentions "acel" is read as `<id> ... x=<x> y=<y> z=<z>`, and the readings are
 * collected in a dictionary keyed "Sensor <id>". One `try` guards the whole
 * loop, so the first piece that cannot be read ends the parse and keeps what
 * was collected before it.
 */
module Frame {
  import opened Wrappers
  import opened Strings
  import opened Numerals

  /** One accelerometer reading. */
  datatype Accel = Accel(x: real, y: real, z: real)

  /** The parser's dictionary: "Sensor <id>" to reading. */
  type Sensors = map<string, Accel>

  /** The key `f"Sensor {sensor_id}"`. */
  function SensorKey(id: int): string {
    "Sensor " + ShowInt(id)
  }

  /** Distinct sensor numbers have distinct keys. */
  lemma SensorKeyInjective(m: int, n: int)
    requires SensorKey(m) == SensorKey(n)
    ensures m == n
  {
    assert SensorKey(m)[7..] == ShowInt(m);
    assert SensorKey(n)[7..] == ShowInt(n);
    ShowIntInjective(m, n);
  }

  /** What one piece of the chunk contributes. */
  datatype PartResult =
    | Skipped                          // the piece does not mention "acel"
    | Entry(id: int, accel: Accel)     // a reading for sensor `id`
    | Malformed                        // reading it raised; the parse stops here

  /** `float(val.split("=")[1]) if "=" in val else float(val)`. */
  function TokenValue(token: string): Option<real> {
    if Contains(token, "=") then ParseNum(Split(token, "=")[1]) else ParseNum(token)
  }

  /** The list comprehension over the tokens: every token converts, or it raises. */
  function TokenValues(tokens: seq<string>): (r: Option<seq<real>>)
    ensures r.Some? ==> |r.value| == |tokens|
    ensures r.Some? ==> forall i :: 0 <= i < |tokens| ==> TokenValue(tokens[i]) == Some(r.value[i])
    ensures r.None? ==> exists i :: 0 <= i < |tokens| && TokenValue(tokens[i]).None?
  {
    if tokens == [] then Some([])
    else
      match TokenValue(tokens[0])
      case None => None
      case Some(v) =>
        match TokenValues(tokens[1..])
        case None => None
        case Some(vs) => Some([v] + vs)
  }

  lemma TokenValuesCons(t: string, ts: seq<string>, v: real, vs: seq<real>)
    requires TokenValue(t) == Some(v) && TokenValues(ts) == Some(vs)
    ensures TokenValues([t] + ts) == Some([v] + vs)
  {
    assert ([t] + ts)[0] == t;
    assert ([t] + ts)[1..] == ts;
  }

  /** One iteration of the loop over `raw_data.split("Sensor")`. */
  function ParsePart(part: string): PartResult {
    if !Contains(part, "acel") then Skipped else ParseSection(part)
  }

  /** A piece that mentions "acel": the sensor number is its first word. */
  function ParseSection(part: string): PartResult {
    var words := Words(part);
    if words == [] then Malformed
    else
      match ParseInt(words[0])
      case None => Malformed
      case Some(id) => ParseReading(id, part)
  }

  /** The values after "x=", with the "y=" and "z=" labels deleted. */
  function ParseReading(id: int, part: string): PartResult {
    var pieces := Split(part, "x=");
    if |pieces| < 2 then Malformed
    else
      var tokens := Words(DeleteAll(DeleteAll(pieces[1], "y="), "z="));
      match TokenValues(tokens)
      case None => Malformed
      case Some(vs) =>
        if |vs| != 3 then Malformed else Entry(id, Accel(vs[0], vs[1], vs[2]))
  }

  /** The outcome of each piece, in order. */
  function Outcomes(parts: seq<string>): seq<PartResult> {
    if parts == [] then [] else [ParsePart(parts[0])] + Outcomes(parts[1..])
  }

  /** The outcome at each position is that of the piece at the same position. */
  lemma {:induction false} OutcomesSpec(parts: seq<string>)
    ensures |Outcomes(parts)| == |parts|
    ensures forall i :: 0 <= i < |parts| ==> Outcomes(parts)[i] == ParsePart(parts[i])
  {
    if parts != [] {
      OutcomesSpec(parts[1..]);
      forall i | 1 <= i < |parts| ensures Outcomes(parts)[i] == ParsePart(parts[i]) {
        assert parts[1..][i - 1] == parts[i];
      }
    }
  }

  /** The loop from the outcome `results[0]` on, with `sensors` collected so far. */
  function Collect(results: seq<PartResult>, sensors: Sensors): Sensors {
    if results == [] then sensors
    else
      match results[0]
      case Skipped => Collect(results[1..], sensors)
      case Entry(id, a) => Collect(results[1..], sensors[SensorKey(id) := a])
      case Malformed => sensors
  }

  /** What `parse_sensor_data(raw)` returns. */
  function SensorsOf(raw: string): Sensors {
    Collect(Outcomes(Split(raw, "Sensor")), map[])
  }

  /** `parse_sensor_data`: the loop filling the dictionary in place. */
  method ParseSensorData(raw: string) returns (sensors: Sensors)
    ensures sensors == SensorsOf(raw)
  {
    var parts := Split(raw, "Sensor");
    ghost var results := Outcomes(parts);
    OutcomesSpec(parts);
    sensors := map[];
    var i := 0;
    while i < |parts|
      invariant 0 <= i <= |parts|
      invariant Collect(results[i..], sensors) == SensorsOf(raw)
    {
      assert results[i..][0] == ParsePart(parts[i]);
      assert results[i..][1..] == results[i + 1..];
      match ParsePart(parts[i]) {
        case Skipped =>
        case Entry(id, a) =>
          sensors := sensors[SensorKey(id) := a];
        case Malformed =>
          return;
      }
      i := i + 1;
    }
  }

  // ---------------------------------------------------------------------------
  // Properties of the parse

  /**
   * A piece yields the reading `a` for sensor `id` exactly when it mentions
   * "acel", has an "x=", its first word reads as `id`, and the text after the
   * first "x=", with the "y=" and "z=" labels deleted, is three words that
   * convert, in order, to the x, y and z of `a`.
   */
  lemma PartEntry(part: string, id: int, a: Accel)
    ensures ParsePart(part) == Entry(id, a) <==>
              Contains(part, "acel") && |Split(part, "x=")| >= 2
              && Words(part) != [] && ParseInt(Words(part)[0]) == Some(id)
              && var tokens := Words(DeleteAll(DeleteAll(Split(part, "x=")[1], "y="), "z="));
                 |tokens| == 3 && TokenValue(tokens[0]) == Some(a.x)
                 && TokenValue(tokens[1]) == Some(a.y) && TokenValue(tokens[2]) == Some(a.z)
    ensures ParsePart(part).Entry? ==> Contains(part, "x=")
  {
    SplitSingle(part, "x=");
    if Contains(part, "acel") && Words(part) != [] && ParseInt(Words(part)[0]).Some? {
      var n := ParseInt(Words(part)[0]).value;
      assert ParsePart(part) == ParseReading(n, part);
      if |Split(part, "x=")| >= 2 {
        var tokens := Words(DeleteAll(DeleteAll(Split(part, "x=")[1], "y="), "z="));
        ReadingOf3(n, part, tokens, a);
      }
    }
  }

  /** The last layer of `PartEntry`: three convertible words and nothing else. */
  lemma ReadingOf3(n: int, part: string, tokens: seq<string>, a: Accel)
    requires |Split(part, "x=")| >= 2
    requires tokens == Words(DeleteAll(DeleteAll(Split(part, "x=")[1], "y="), "z="))
    ensures ParseReading(n, part) == Entry(n, a) <==>
              |tokens| == 3 && TokenValue(tokens[0]) == Some(a.x)
              && TokenValue(tokens[1]) == Some(a.y) && TokenValue(tokens[2]) == Some(a.z)
  {
    ThreeTokens(tokens, a);
  }

  lemma ThreeTokens(tokens: seq<string>, a: Accel)
    ensures TokenValues(tokens) == Some([a.x, a.y, a.z]) <==>
              |tokens| == 3 && TokenValue(tokens[0]) == Some(a.x)
              && TokenValue(tokens[1]) == Some(a.y) && TokenValue(tokens[2]) == Some(a.z)
  {
    if |tokens| == 3 && TokenValue(tokens[0]) == Some(a.x)
       && TokenValue(tokens[1]) == Some(a.y) && TokenValue(tokens[2]) == Some(a.z) {
      ThreeTokensConvert(tokens[0], tokens[1], tokens[2], a);
      assert tokens == [tokens[0], tokens[1], tokens[2]];
    }
    if TokenValues(tokens) == Some([a.x, a.y, a.z]) {
      var vs := [a.x, a.y, a.z];
      assert |tokens| == |vs| && vs[0] == a.x && vs[1] == a.y && vs[2] == a.z;
    }
  }

  lemma ThreeTokensConvert(t0: string, t1: string, t2: string, a: Accel)
    requires TokenValue(t0) == Some(a.x) && TokenValue(t1) == Some(a.y) && TokenValue(t2) == Some(a.z)
    ensures TokenValues([t0, t1, t2]) == Some([a.x, a.y, a.z])
  {
    TokenValuesCons(t2, [], a.z, []);
    assert [t2] + [] == [t2] && [a.z] + [] == [a.z];
    TokenValuesCons(t1, [t2], a.y, [a.z]);
    assert [t1] + [t2] == [t1, t2] && [a.y] + [a.z] == [a.y, a.z];
    TokenValuesCons(t0, [t1, t2], a.x, [a.y, a.z]);
    assert [t0] + [t1, t2] == [t0, t1, t2] && [a.x] + [a.y, a.z] == [a.x, a.y, a.z];
  }

  lemma OutcomesCons(part: string, parts: seq<string>)
    ensures Outcomes([part] + parts) == [ParsePart(part)] + Outcomes(parts)
  {
    assert ([part] + parts)[1..] == parts;
  }

  lemma CollectEntry(id: int, a: Accel, rest: seq<PartResult>, sensors: Sensors)
    ensures Collect([Entry(id, a)] + rest, sensors) == Collect(rest, sensors[SensorKey(id) := a])
  {
    assert ([Entry(id, a)] + rest)[1..] == rest;
  }

  lemma CollectSkip(rest: seq<PartResult>, sensors: Sensors)
    ensures Collect([Skipped] + rest, sensors) == Collect(rest, sensors)
  {
    assert ([Skipped] + rest)[1..] == rest;
  }

  lemma {:induction false} CollectSkipsAll(results: seq<PartResult>, sensors: Sensors)
    requires forall i :: 0 <= i < |results| ==> results[i] == Skipped
    ensures Collect(results, sensors) == sensors
  {
    if results != [] {
      CollectSkipsAll(results[1..], sensors);
    }
  }

  /** A chunk none of whose pieces mentions "acel" yields an empty dictionary. */
  lemma NoAccelPartsParseEmpty(raw: string)
    requires forall i :: 0 <= i < |Split(raw, "Sensor")| ==> !Contains(Split(raw, "Sensor")[i], "acel")
    ensures SensorsOf(raw) == map[]
  {
    OutcomesSpec(Split(raw, "Sensor"));
    CollectSkipsAll(Outcomes(Split(raw, "Sensor")), map[]);
  }

  /** In particular an empty chunk yields an empty dictionary. */
  lemma EmptyChunkParsesEmpty()
    ensures SensorsOf("") == map[]
  {
    SplitWhole("", "Sensor");
    NoAccelPartsParseEmpty("");
  }

  lemma {:induction false} CollectKeys(results: seq<PartResult>, sensors: Sensors, key: string)
    requires key in Collect(results, sensors)
    ensures (key in sensors && Collect(results, sensors)[key] == sensors[key])
         || exists i :: 0 <= i < |results| && results[i].Entry?
                     && key == SensorKey(results[i].id)
                     && Collect(results, sensors)[key] == results[i].accel
  {
    if results != [] {
      var r := Collect(results, sensors);
      var next := match results[0]
        case Entry(id, a) => sensors[SensorKey(id) := a]
        case _ => sensors;
      if !results[0].Malformed? {
        assert r == Collect(results[1..], next);
        CollectKeys(results[1..], next, key);
        if key in next && r[key] == next[key] {
          if results[0].Entry? && key == SensorKey(results[0].id) {
            assert r[key] == results[0].accel;
          }
        } else {
          var i :| 0 <= i < |results[1..]| && results[1..][i].Entry?
                 && key == SensorKey(results[1..][i].id)
                 && r[key] == results[1..][i].accel;
          assert results[1..][i] == results[i + 1];
        }
      }
    }
  }

  /**
   * Every key of the result is "Sensor n" for the number n read from a piece
   * that mentions "acel", and its reading is that piece's; n is not checked
   * against the three sensors that exist.
   */
  lemma KeysComeFromParts(raw: string, key: string)
    requires key in SensorsOf(raw)
    ensures exists i :: 0 <= i < |Split(raw, "Sensor")|
                     && Contains(Split(raw, "Sensor")[i], "acel")
                     && ParsePart(Split(raw, "Sensor")[i]).Entry?
                     && key == SensorKey(ParsePart(Split(raw, "Sensor")[i]).id)
                     && SensorsOf(raw)[key] == ParsePart(Split(raw, "Sensor")[i]).accel
  {
    var parts := Split(raw, "Sensor");
    OutcomesSpec(parts);
    CollectKeys(Outcomes(parts), map[], key);
    var i :| 0 <= i < |parts| && Outcomes(parts)[i].Entry?
           && key == SensorKey(Outcomes(parts)[i].id)
           && SensorsOf(raw)[key] == Outcomes(parts)[i].accel;
    assert ParsePart(parts[i]).Entry?;
  }

  /**
   * The first piece that cannot be read ends the parse: what came before it
   * is kept, and nothing after it is looked at.
   */
  lemma {:induction false} StopsAtMalformed(before: seq<PartResult>, after: seq<PartResult>, sensors: Sensors)
    ensures Collect(before + [Malformed] + after, sensors) == Collect(before, sensors)
  {
    if before == [] {
      assert before + [Malformed] + after == [Malformed] + after;
    } else {
      assert (before + [Malformed] + after)[1..] == before[1..] + [Malformed] + after;
      match before[0]
      case Skipped =>
        StopsAtMalformed(before[1..], after, sensors);
      case Entry(id, a) =>
        StopsAtMalformed(before[1..], after, sensors[SensorKey(id) := a]);
      case Malformed =>
    }
  }

  lemma OutcomesSplit(parts: seq<string>, k: nat)
    requires k < |parts|
    ensures Outcomes(parts) == Outcomes(parts[..k]) + [ParsePart(parts[k])] + Outcomes(parts[k + 1..])
  {
    var l := Outcomes(parts[..k]) + [ParsePart(parts[k])] + Outcomes(parts[k + 1..]);
    OutcomesSpec(parts);
    OutcomesSpec(parts[..k]);
    OutcomesSpec(parts[k + 1..]);
    assert |l| == |parts|;
    forall i | 0 <= i < |parts| ensures l[i] == Outcomes(parts)[i] {
      if i < k {
        assert parts[..k][i] == parts[i];
      } else if i > k {
        assert l[i] == Outcomes(parts[k + 1..])[i - k - 1];
        assert parts[k + 1..][i - k - 1] == parts[i];
      }
    }
  }

  /** The same, for the pieces of a chunk: the result is that of the pieces before the first bad one. */
  lemma StopsAtMalformedPiece(raw: string, k: nat)
    requires k < |Split(raw, "Sensor")| && ParsePart(Split(raw, "Sensor")[k]) == Malformed
    ensures SensorsOf(raw) == Collect(Outcomes(Split(raw, "Sensor")[..k]), map[])
  {
    var parts := Split(raw, "Sensor");
    OutcomesSplit(parts, k);
    StopsAtMalformed(Outcomes(parts[..k]), Outcomes(parts[k + 1..]), map[]);
  }

  lemma {:induction false} CollectKeepsOthers(results: seq<PartResult>, sensors: Sensors, id: int)
    requires SensorKey(id) in sensors
    requires forall i :: 0 <= i < |results| ==> !(results[i].Entry? && results[i].id == id)
    ensures SensorKey(id) in Collect(results, sensors)
    ensures Collect(results, sensors)[SensorKey(id)] == sensors[SensorKey(id)]
  {
    if results != [] {
      match results[0]
      case Skipped =>
        CollectKeepsOthers(results[1..], sensors, id);
      case Entry(other, a) =>
        if SensorKey(other) == SensorKey(id) {
          SensorKeyInjective(other, id);
        }
        CollectKeepsOthers(results[1..], sensors[SensorKey(other) := a], id);
      case Malformed =>
    }
  }

  /**
   * When two pieces carry the same sensor number, the later one's reading is
   * the one returned, provided nothing between stops the parse.
   */
  lemma {:induction false} LaterPartWins(before: seq<PartResult>, id: int, a: Accel, after: seq<PartResult>, sensors: Sensors)
    requires forall i :: 0 <= i < |before| ==> before[i] != Malformed
    requires forall i :: 0 <= i < |after| ==> !(after[i].Entry? && after[i].id == id)
    ensures SensorKey(id) in Collect(before + [Entry(id, a)] + after, sensors)
    ensures Collect(before + [Entry(id, a)] + after, sensors)[SensorKey(id)] == a
  {
    var q := Entry(id, a);
    if before == [] {
      assert before + [q] + after == [q] + after;
      assert ([q] + after)[1..] == after;
      CollectKeepsOthers(after, sensors[SensorKey(id) := a], id);
    } else {
      assert (before + [q] + after)[1..] == before[1..] + [q] + after;
      match before[0]
      case Skipped =>
        LaterPartWins(before[1..], id, a, after, sensors);
      case Entry(other, b) =>
        LaterPartWins(before[1..], id, a, after, sensors[SensorKey(other) := b]);
    }
  }
}
