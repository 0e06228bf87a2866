/**
 * The text the sensor hub sends, as the frame parser expects it:
 * `Sensor <id> acel x=<x> y=<y> z=<z>` for each sensor, separated by single
 * spaces. Writing readings in this form and parsing the result gives back
 * exactly those readings.
 */
module WireFormat {
  import opened Wrappers
  import opened Strings
  import opened Numerals
  import opened Frame

  /** One sensor section, as the literal tokens the device writes. */
  datatype Section = Section(id: string, x: string, y: string, z: string)

  /** Tokens that `int()` and `float()` accept. */
  predicate WellFormed(s: Section) {
    ParseInt(s.id).Some? && ParseNum(s.x).Some? && ParseNum(s.y).Some? && ParseNum(s.z).Some?
  }

  /** The text of a section after the marker "Sensor". */
  function SectionText(s: Section): string {
    " " + s.id + " " + "acel" + " " + "x=" + s.x + " " + "y=" + s.y + " " + "z=" + s.z
  }

  /** A whole chunk: "Sensor" and the section text for each section, separated by spaces. */
  function FrameText(secs: seq<Section>): string {
    if secs == [] then "" else "Sensor" + Body(secs)
  }

  /** The chunk after its first "Sensor" marker. */
  function Body(secs: seq<Section>): string
    requires secs != []
  {
    if |secs| == 1 then SectionText(secs[0])
    else SectionText(secs[0]) + " " + "Sensor" + Body(secs[1..])
  }

  /** The reading a well-formed section stands for. */
  function ReadingOf(s: Section): Accel
    requires WellFormed(s)
  {
    Accel(ParseNum(s.x).value, ParseNum(s.y).value, ParseNum(s.z).value)
  }

  /** The key a well-formed section is filed under. */
  function KeyOf(s: Section): string
    requires WellFormed(s)
  {
    SensorKey(ParseInt(s.id).value)
  }

  /** The dictionary the sections stand for: later sections overwrite earlier ones. */
  function Expected(secs: seq<Section>, sensors: Sensors): Sensors
    requires forall i :: 0 <= i < |secs| ==> WellFormed(secs[i])
  {
    if secs == [] then sensors
    else
      var s := secs[0];
      assert WellFormed(s);
      Expected(secs[1..], sensors[KeyOf(s) := ReadingOf(s)])
  }

  /** The pieces `FrameText(secs).split("Sensor")` yields after the leading empty one. */
  function Pieces(secs: seq<Section>): seq<string>
    requires secs != []
  {
    if |secs| == 1 then [SectionText(secs[0])]
    else [SectionText(secs[0]) + " "] + Pieces(secs[1..])
  }

  lemma NumeralLacks(t: string, c: char)
    requires NumeralText(t) && !NumeralChar(c)
    ensures Lacks(t, c)
  {
  }

  lemma NumeralNoSpace(t: string)
    requires NumeralText(t)
    ensures NoSpace(t)
  {
    forall i | 0 <= i < |t| ensures !IsSpace(t[i]) {
      assert NumeralChar(t[i]);
    }
  }

  lemma SectionLacksS(s: Section)
    requires WellFormed(s)
    ensures Lacks(SectionText(s), 'S') && Lacks(SectionText(s) + " ", 'S')
  {
    NumeralLacks(s.id, 'S');
    NumeralLacks(s.x, 'S');
    NumeralLacks(s.y, 'S');
    NumeralLacks(s.z, 'S');
  }

  lemma DeleteYStep(a: string, b: string, c: string, t: string)
    requires NumeralText(a) && NumeralText(b) && NumeralText(c) && (t == "" || t == " ")
    ensures DeleteAll(a + " " + "y=" + b + " " + "z=" + c + t, "y=") == a + " " + b + " " + "z=" + c + t
  {
    NumeralLacks(a, 'y'); NumeralLacks(b, 'y'); NumeralLacks(c, 'y');
    DeleteOnceAt(a + " " + "y=" + b + " " + "z=" + c + t, a + " ", "y=", b + " " + "z=" + c + t,
                 a + " " + b + " " + "z=" + c + t);
  }

  lemma DeleteZStep(a: string, b: string, c: string, t: string)
    requires NumeralText(a) && NumeralText(b) && NumeralText(c) && (t == "" || t == " ")
    ensures DeleteAll(a + " " + b + " " + "z=" + c + t, "z=") == a + " " + b + " " + c + t
  {
    NumeralLacks(a, 'z'); NumeralLacks(b, 'z'); NumeralLacks(c, 'z');
    DeleteOnceAt(a + " " + b + " " + "z=" + c + t, a + " " + b + " ", "z=", c + t, a + " " + b + " " + c + t);
  }

  lemma WordThen(x: string, w: string, rest: string)
    requires |w| > 0 && NoSpace(w) && x == w + " " + rest
    ensures Words(x) == [w] + Words(rest)
  {
    WordsConsAt(x, w, " " + rest);
    WordsSkipSpaceAt(" " + rest, rest);
  }

  lemma LastWord(x: string, w: string, t: string)
    requires |w| > 0 && NoSpace(w) && (t == "" || t == " ") && x == w + t
    ensures Words(x) == [w]
  {
    WordsConsAt(x, w, t);
    if t == " " {
      WordsSkipSpaceAt(t, "");
    }
  }

  lemma ThreeWords(a: string, b: string, c: string, t: string)
    requires NumeralText(a) && NumeralText(b) && NumeralText(c) && (t == "" || t == " ")
    ensures Words(a + " " + b + " " + c + t) == [a, b, c]
  {
    NumeralNoSpace(a); NumeralNoSpace(b); NumeralNoSpace(c);
    WordThen(a + " " + b + " " + c + t, a, b + " " + c + t);
    WordThen(b + " " + c + t, b, c + t);
    LastWord(c + t, c, t);
  }

  /** The three value tokens of a section, once "x=" has been split off and "y=", "z=" deleted. */
  lemma ValueTokens(s: Section, t: string)
    requires WellFormed(s) && (t == "" || t == " ")
    ensures Words(DeleteAll(DeleteAll(s.x + " " + "y=" + s.y + " " + "z=" + s.z + t, "y="), "z="))
            == [s.x, s.y, s.z]
  {
    DeleteYStep(s.x, s.y, s.z, t);
    DeleteZStep(s.x, s.y, s.z, t);
    ThreeWords(s.x, s.y, s.z, t);
  }

  lemma TokenValueOfNumeral(t: string)
    requires ParseNum(t).Some?
    ensures TokenValue(t) == ParseNum(t)
  {
    NumeralLacks(t, '=');
    FindAbsent(t, "=");
  }

  lemma AcelFound(part: string, d: string, tail: string)
    requires NumeralText(d) && part == " " + d + " " + "acel" + tail
    ensures Contains(part, "acel")
  {
    NumeralLacks(d, 'a');
    ContainsAt(part, " " + d + " ", "acel", tail);
  }

  lemma FirstWord(part: string, d: string, tail: string)
    requires NumeralText(d) && part == " " + d + " " + "acel" + tail
    ensures |Words(part)| > 0 && Words(part)[0] == d
  {
    NumeralNoSpace(d);
    WordsSkipSpaceAt(part, d + " " + "acel" + tail);
    WordThen(d + " " + "acel" + tail, d, "acel" + tail);
  }

  lemma LacksX(d: string, a: string, b: string, c: string, t: string)
    requires NumeralText(d) && NumeralText(a) && NumeralText(b) && NumeralText(c) && (t == "" || t == " ")
    ensures Lacks(" " + d + " " + "acel" + " ", 'x')
    ensures Lacks(a + " " + "y=" + b + " " + "z=" + c + t, 'x')
  {
    NumeralLacks(d, 'x'); NumeralLacks(a, 'x'); NumeralLacks(b, 'x'); NumeralLacks(c, 'x');
  }

  lemma SplitAtX(part: string, d: string, a: string, b: string, c: string, t: string)
    requires NumeralText(d) && NumeralText(a) && NumeralText(b) && NumeralText(c) && (t == "" || t == " ")
    requires part == " " + d + " " + "acel" + " " + "x=" + a + " " + "y=" + b + " " + "z=" + c + t
    ensures Split(part, "x=") == [" " + d + " " + "acel" + " ", a + " " + "y=" + b + " " + "z=" + c + t]
  {
    LacksX(d, a, b, c, t);
    SplitOnceAt(part, " " + d + " " + "acel" + " ", "x=", a + " " + "y=" + b + " " + "z=" + c + t);
  }

  lemma ThreeValues(a: string, b: string, c: string)
    requires ParseNum(a).Some? && ParseNum(b).Some? && ParseNum(c).Some?
    ensures TokenValues([a, b, c]) == Some([ParseNum(a).value, ParseNum(b).value, ParseNum(c).value])
  {
    TokenValueOfNumeral(a);
    TokenValueOfNumeral(b);
    TokenValueOfNumeral(c);
    var x, y, z := ParseNum(a).value, ParseNum(b).value, ParseNum(c).value;
    TokenValuesCons(c, [], z, []);
    assert [c] + [] == [c] && [z] + [] == [z];
    TokenValuesCons(b, [c], y, [z]);
    assert [b] + [c] == [b, c] && [y] + [z] == [y, z];
    TokenValuesCons(a, [b, c], x, [y, z]);
    assert [a] + [b, c] == [a, b, c] && [x] + [y, z] == [x, y, z];
  }

  /** The path through `ParsePart` that ends in an entry. */
  lemma ParsePartEntry(part: string, id: int, xs: string, vs: seq<real>)
    requires Contains(part, "acel")
    requires |Words(part)| > 0 && ParseInt(Words(part)[0]) == Some(id)
    requires |Split(part, "x=")| >= 2 && Split(part, "x=")[1] == xs
    requires TokenValues(Words(DeleteAll(DeleteAll(xs, "y="), "z="))) == Some(vs) && |vs| == 3
    ensures ParsePart(part) == Entry(id, Accel(vs[0], vs[1], vs[2]))
  {
    assert ParseReading(id, part) == Entry(id, Accel(vs[0], vs[1], vs[2]));
  }

  lemma SectionAfterAcel(s: Section, t: string)
    ensures SectionText(s) + t == " " + s.id + " " + "acel" + (" " + "x=" + s.x + " " + "y=" + s.y + " " + "z=" + s.z + t)
  {
    var head := " " + s.id + " " + "acel";
    var tail := " " + "x=" + s.x + " " + "y=" + s.y + " " + "z=" + s.z + t;
    assert SectionText(s) + t == head + " " + "x=" + s.x + " " + "y=" + s.y + " " + "z=" + s.z + t;
    assert |SectionText(s) + t| == |head + tail|;
    forall i | 0 <= i < |head + tail| ensures (SectionText(s) + t)[i] == (head + tail)[i] {
    }
  }

  /** A well-formed section, followed by nothing or by the separating space, reads back as its reading. */
  lemma SectionParses(s: Section, t: string)
    requires WellFormed(s) && (t == "" || t == " ")
    ensures ParsePart(SectionText(s) + t) == Entry(ParseInt(s.id).value, ReadingOf(s))
  {
    var part := SectionText(s) + t;
    var tail := " " + "x=" + s.x + " " + "y=" + s.y + " " + "z=" + s.z + t;
    var xs := s.x + " " + "y=" + s.y + " " + "z=" + s.z + t;
    SectionAfterAcel(s, t);
    AcelFound(part, s.id, tail);
    FirstWord(part, s.id, tail);
    SplitAtX(part, s.id, s.x, s.y, s.z, t);
    ValueTokens(s, t);
    ThreeValues(s.x, s.y, s.z);
    ParsePartEntry(part, ParseInt(s.id).value, xs, [ParseNum(s.x).value, ParseNum(s.y).value, ParseNum(s.z).value]);
  }

  lemma {:induction false} BodySplits(secs: seq<Section>)
    requires secs != [] && forall i :: 0 <= i < |secs| ==> WellFormed(secs[i])
    ensures Split(Body(secs), "Sensor") == Pieces(secs)
  {
    SectionLacksS(secs[0]);
    if |secs| == 1 {
      SplitWhole(SectionText(secs[0]), "Sensor");
    } else {
      BodySplits(secs[1..]);
      SplitFirstAt(Body(secs), SectionText(secs[0]) + " ", "Sensor", Body(secs[1..]));
    }
  }

  lemma MarkerFirst(f: string, b: string, ps: seq<string>)
    requires f == "Sensor" + b && Split(b, "Sensor") == ps
    ensures Split(f, "Sensor") == [""] + ps
  {
    SplitFirstAt(f, "", "Sensor", b);
  }

  /** `FrameText(secs).split("Sensor")`: an empty piece, then one piece per section. */
  lemma FrameSplits(secs: seq<Section>)
    requires secs != [] && forall i :: 0 <= i < |secs| ==> WellFormed(secs[i])
    ensures Split(FrameText(secs), "Sensor") == [""] + Pieces(secs)
  {
    BodySplits(secs);
    MarkerFirst(FrameText(secs), Body(secs), Pieces(secs));
  }

  lemma ExpectedCons(secs: seq<Section>, sensors: Sensors)
    requires secs != [] && forall i :: 0 <= i < |secs| ==> WellFormed(secs[i])
    ensures Expected(secs, sensors)
            == Expected(secs[1..], sensors[KeyOf(secs[0]) := ReadingOf(secs[0])])
  {
  }

  lemma {:induction false} CollectPieces(secs: seq<Section>, sensors: Sensors)
    requires secs != [] && forall i :: 0 <= i < |secs| ==> WellFormed(secs[i])
    ensures Collect(Outcomes(Pieces(secs)), sensors) == Expected(secs, sensors)
  {
    var s0 := secs[0];
    assert WellFormed(s0);
    var id, a := ParseInt(s0.id).value, ReadingOf(s0);
    var next := sensors[SensorKey(id) := a];
    ExpectedCons(secs, sensors);
    if |secs| == 1 {
      SectionParses(s0, "");
      assert SectionText(s0) + "" == SectionText(s0);
      OutcomesCons(SectionText(s0), []);
      CollectEntry(id, a, Outcomes([]), sensors);
    } else {
      SectionParses(s0, " ");
      CollectPieces(secs[1..], next);
      OutcomesCons(SectionText(s0) + " ", Pieces(secs[1..]));
      CollectEntry(id, a, Outcomes(Pieces(secs[1..])), sensors);
    }
  }

  /** Parsing the text of well-formed sections gives back exactly their readings. */
  lemma FrameRoundTrip(secs: seq<Section>)
    requires forall i :: 0 <= i < |secs| ==> WellFormed(secs[i])
    ensures SensorsOf(FrameText(secs)) == Expected(secs, map[])
  {
    if secs == [] {
      EmptyChunkParsesEmpty();
    } else {
      FrameSplits(secs);
      assert !Contains("", "acel");
      OutcomesCons("", Pieces(secs));
      CollectSkip(Outcomes(Pieces(secs)), map[]);
      CollectPieces(secs, map[]);
    }
  }

  /**
   * "Sensor 1 acel x=a y=b z=c Sensor 2 acel x=d y=e z=f Sensor 3 acel x=g y=h z=i"
   * parses to exactly the three keys with the literal values.
   */
  lemma ThreeSensorRoundTrip(a: string, b: string, c: string, d: string, e: string, f: string,
                             g: string, h: string, i: string)
    requires ParseNum(a).Some? && ParseNum(b).Some? && ParseNum(c).Some?
    requires ParseNum(d).Some? && ParseNum(e).Some? && ParseNum(f).Some?
    requires ParseNum(g).Some? && ParseNum(h).Some? && ParseNum(i).Some?
    ensures SensorsOf(FrameText([Section("1", a, b, c), Section("2", d, e, f), Section("3", g, h, i)]))
            == map["Sensor 1" := Accel(ParseNum(a).value, ParseNum(b).value, ParseNum(c).value),
                   "Sensor 2" := Accel(ParseNum(d).value, ParseNum(e).value, ParseNum(f).value),
                   "Sensor 3" := Accel(ParseNum(g).value, ParseNum(h).value, ParseNum(i).value)]
  {
    SmallIds();
    var s1, s2, s3 := Section("1", a, b, c), Section("2", d, e, f), Section("3", g, h, i);
    assert WellFormed(s1) && WellFormed(s2) && WellFormed(s3);
    WellFormedThree(s1, s2, s3);
    FrameRoundTrip([s1, s2, s3]);
    ExpectedThree(s1, s2, s3);
  }

  lemma WellFormedThree(s1: Section, s2: Section, s3: Section)
    requires WellFormed(s1) && WellFormed(s2) && WellFormed(s3)
    ensures forall k :: 0 <= k < |[s1, s2, s3]| ==> WellFormed([s1, s2, s3][k])
  {
    var secs := [s1, s2, s3];
    forall k | 0 <= k < |secs| ensures WellFormed(secs[k]) {
      if k == 0 {
        assert secs[k] == s1;
      } else if k == 1 {
        assert secs[k] == s2;
      } else {
        assert secs[k] == s3;
      }
    }
  }

  lemma SmallIds()
    ensures ParseInt("1") == Some(1) && ParseInt("2") == Some(2) && ParseInt("3") == Some(3)
    ensures SensorKey(1) == "Sensor 1" && SensorKey(2) == "Sensor 2" && SensorKey(3) == "Sensor 3"
  {
  }

  lemma ExpectedThree(s1: Section, s2: Section, s3: Section)
    requires WellFormed(s1) && WellFormed(s2) && WellFormed(s3)
    ensures Expected([s1, s2, s3], map[]) == map[KeyOf(s1) := ReadingOf(s1), KeyOf(s2) := ReadingOf(s2), KeyOf(s3) := ReadingOf(s3)]
  {
    ExpectedCons([s1, s2, s3], map[]);
    assert [s1, s2, s3][1..] == [s2, s3];
    ExpectedTwo(s2, s3, map[KeyOf(s1) := ReadingOf(s1)]);
  }

  lemma ExpectedTwo(s2: Section, s3: Section, m: Sensors)
    requires WellFormed(s2) && WellFormed(s3)
    ensures Expected([s2, s3], m) == m[KeyOf(s2) := ReadingOf(s2)][KeyOf(s3) := ReadingOf(s3)]
  {
    ExpectedCons([s2, s3], m);
    assert [s2, s3][1..] == [s3];
    ExpectedOne(s3, m[KeyOf(s2) := ReadingOf(s2)]);
  }

  lemma ExpectedOne(s: Section, m: Sensors)
    requires WellFormed(s)
    ensures Expected([s], m) == m[KeyOf(s) := ReadingOf(s)]
  {
    ExpectedCons([s], m);
    assert [s][1..] == [];
  }

  /** A sensor number outside 1..3 is not rejected: "Sensor 7 ..." gives the key "Sensor 7". */
  lemma OtherSensorNumberKept()
    ensures SensorsOf(FrameText([Section("7", "1", "2", "3")])) == map["Sensor 7" := Accel(1.0, 2.0, 3.0)]
  {
    var s := Section("7", "1", "2", "3");
    assert ParseInt("7") == Some(7);
    assert ParseNum("1") == Some(1.0) && ParseNum("2") == Some(2.0) && ParseNum("3") == Some(3.0);
    assert SensorKey(7) == "Sensor 7";
    OneSection(s, 7, Accel(1.0, 2.0, 3.0));
  }

  lemma OneSection(s: Section, id: int, r: Accel)
    requires WellFormed(s) && ParseInt(s.id) == Some(id) && ReadingOf(s) == r
    ensures SensorsOf(FrameText([s])) == map[SensorKey(id) := r]
  {
    FrameRoundTrip([s]);
    ExpectedOne(s, map[]);
  }

  /** A chunk of well-formed sections starts with "S" and ends with the last digit or point of a value. */
  lemma FrameTextEnds(secs: seq<Section>)
    requires secs != [] && forall i :: 0 <= i < |secs| ==> WellFormed(secs[i])
    ensures var f := FrameText(secs); f != [] && !IsSpace(f[0]) && !IsSpace(f[|f| - 1])
  {
    BodyEnds(secs);
  }

  lemma {:induction false} BodyEnds(secs: seq<Section>)
    requires secs != [] && forall i :: 0 <= i < |secs| ==> WellFormed(secs[i])
    ensures var b := Body(secs); b != [] && !IsSpace(b[|b| - 1])
  {
    if |secs| == 1 {
      var z := secs[0].z;
      assert WellFormed(secs[0]);
      NumeralNoSpace(z);
      assert SectionText(secs[0])[|SectionText(secs[0])| - 1] == z[|z| - 1];
    } else {
      BodyEnds(secs[1..]);
      var rest := Body(secs[1..]);
      assert Body(secs)[|Body(secs)| - 1] == rest[|rest| - 1];
    }
  }
}
