/**
 * The feedback computations of the dashboard (dashboard.py): the fix-up of
 * one patient's saved angles, the normalisation and trimming of an angle
 * curve, the angular velocity along it, and the G7 metric comparing the
 * sessions with and without current.
 */
module Analytics {
  import opened Wrappers

  function Abs(x: real): real {
    if x < 0.0 then -x else x
  }

  function Max(a: real, b: real): real {
    if a >= b then a else b
  }

  /** One saved session line as the feedback graph reads it. */
  datatype Feedback = Feedback(
    patient: string,
    condition: string,
    joint: string,
    current: Option<real>,  // "Valor Corrente"; None when the field is empty
    angles: seq<real>,      // "Angle Between Sensors", already split into numbers
    trimmed: seq<real>)     // "Trimmed Angle", the normalised and trimmed curve

  // ---------------------------------------------------------------- preprocess_angle_data

  /** The one session class whose angles are rewritten. */
  predicate IsTarget(f: Feedback) {
    f.patient == "Perso" && f.joint == "Punho" && f.condition == "Corrente" && f.current == Some(23.0)
  }

  /** Each angle negated and then made absolute. */
  function Adjusted(angles: seq<real>): seq<real> {
    seq(|angles|, i requires 0 <= i < |angles| => Abs(-angles[i]))
  }

  function AdjustRow(f: Feedback): Feedback {
    if IsTarget(f) then f.(angles := Adjusted(f.angles)) else f
  }

  /** The table after `preprocess_angle_data`, row by row. */
  function Preprocessed(rows: seq<Feedback>): seq<Feedback> {
    seq(|rows|, i requires 0 <= i < |rows| => AdjustRow(rows[i]))
  }

  /** The adjusted angles are the absolute values of the originals, one for one. */
  lemma AdjustedSpec(angles: seq<real>)
    ensures |Adjusted(angles)| == |angles|
    ensures forall i :: 0 <= i < |angles| ==> Adjusted(angles)[i] == Abs(angles[i]) && Adjusted(angles)[i] >= 0.0
  {
  }

  /**
   * Only target rows change, and in them only the angles, which become
   * their absolute values; the table keeps its length and order.
   */
  lemma PreprocessedSpec(rows: seq<Feedback>)
    ensures |Preprocessed(rows)| == |rows|
    ensures forall i :: 0 <= i < |rows| && !IsTarget(rows[i]) ==> Preprocessed(rows)[i] == rows[i]
    ensures forall i :: 0 <= i < |rows| && IsTarget(rows[i]) ==>
              Preprocessed(rows)[i] == rows[i].(angles := Preprocessed(rows)[i].angles)
              && |Preprocessed(rows)[i].angles| == |rows[i].angles|
              && forall k :: 0 <= k < |rows[i].angles| ==> Preprocessed(rows)[i].angles[k] == Abs(rows[i].angles[k])
  {
    forall i | 0 <= i < |rows| && IsTarget(rows[i])
      ensures |Preprocessed(rows)[i].angles| == |rows[i].angles|
      ensures forall k :: 0 <= k < |rows[i].angles| ==> Preprocessed(rows)[i].angles[k] == Abs(rows[i].angles[k])
    {
      AdjustedSpec(rows[i].angles);
    }
  }

  /** Preprocessing an already preprocessed table changes nothing. */
  lemma PreprocessedIdempotent(rows: seq<Feedback>)
    ensures Preprocessed(Preprocessed(rows)) == Preprocessed(rows)
  {
    var once := Preprocessed(rows);
    forall i | 0 <= i < |once| ensures AdjustRow(once[i]) == once[i] {
      if IsTarget(rows[i]) {
        var a := once[i].angles;
        AdjustedSpec(rows[i].angles);
        AdjustedSpec(a);
        assert Adjusted(a) == a;
      }
    }
  }

  /** `preprocess_angle_data`, rewriting the matching rows of the table in place. */
  method PreprocessAngleData(rows: array<Feedback>)
    modifies rows
    ensures rows[..] == Preprocessed(old(rows[..]))
  {
    var i := 0;
    while i < rows.Length
      invariant 0 <= i <= rows.Length
      invariant forall k :: 0 <= k < i ==> rows[k] == AdjustRow(old(rows[k]))
      invariant forall k :: i <= k < rows.Length ==> rows[k] == old(rows[k])
    {
      if IsTarget(rows[i]) {
        rows[i] := rows[i].(angles := Adjusted(rows[i].angles));
      }
      i := i + 1;
    }
  }

  // ---------------------------------------------------------------- normalize_and_trim

  function Negated(data: seq<real>): seq<real> {
    seq(|data|, i requires 0 <= i < |data| => -data[i])
  }

  /** The curve made rising: negated when it ends lower than it starts. */
  function Oriented(data: seq<real>): seq<real>
    requires data != []
  {
    if data[0] > data[|data| - 1] then Negated(data) else data
  }

  /** The rising curve shifted to start at zero. */
  function Normalized(data: seq<real>): seq<real>
    requires data != []
  {
    var o := Oriented(data);
    seq(|o|, i requires 0 <= i < |o| => o[i] - o[0])
  }

  /** The first position from `k` on holding a value of magnitude above one, or 0 when there is none. */
  function FirstAboveFrom(v: seq<real>, k: nat): (r: nat)
    requires k <= |v|
    ensures r < |v| || r == 0
    decreases |v| - k
  {
    if k == |v| then 0 else if Abs(v[k]) > 1.0 then k else FirstAboveFrom(v, k + 1)
  }

  /** Python's `next((i for i, x in enumerate(v) if abs(x) > 1), 0)`. */
  function FirstAbove(v: seq<real>): nat {
    FirstAboveFrom(v, 0)
  }

  lemma {:induction false} FirstAboveFromSpec(v: seq<real>, k: nat)
    requires k <= |v| && forall j :: 0 <= j < k ==> Abs(v[j]) <= 1.0
    ensures var r := FirstAboveFrom(v, k);
            (r < |v| && Abs(v[r]) > 1.0 && forall j :: 0 <= j < r ==> Abs(v[j]) <= 1.0)
            || (r == 0 && forall j :: 0 <= j < |v| ==> Abs(v[j]) <= 1.0)
    decreases |v| - k
  {
    if k < |v| && Abs(v[k]) <= 1.0 {
      FirstAboveFromSpec(v, k + 1);
    }
  }

  /** The index found is the first above one in magnitude, or 0 when no value is. */
  lemma FirstAboveSpec(v: seq<real>)
    ensures var r := FirstAbove(v);
            (r < |v| && Abs(v[r]) > 1.0 && forall j :: 0 <= j < r ==> Abs(v[j]) <= 1.0)
            || (r == 0 && forall j :: 0 <= j < |v| ==> Abs(v[j]) <= 1.0)
  {
    FirstAboveFromSpec(v, 0);
  }

  /** Where the trimmed window starts: ten points before the first jump, but not before 0. */
  function TrimStart(v: seq<real>): nat {
    if FirstAbove(v) >= 10 then FirstAbove(v) - 10 else 0
  }

  /**
   * `normalize_and_trim`: the window of at most 50 points of the normalised
   * curve; None stands for the IndexError an empty list raises.
   */
  function NormalizeAndTrim(data: seq<real>): Option<seq<real>> {
    if data == [] then None
    else
      var n := Normalized(data);
      var s := TrimStart(n);
      var e := if |n| <= s + 50 then |n| else s + 50;
      Some(n[s..e])
  }

  /**
   * The normalised curve has the length of the data, starts at zero and
   * does not end below it; it is the data less its first value, negated
   * exactly when the data end lower than they start.
   */
  lemma NormalizedSpec(data: seq<real>)
    requires data != []
    ensures var n := Normalized(data);
            |n| == |data| && n[0] == 0.0 && n[|n| - 1] >= 0.0
            && (data[0] > data[|data| - 1] ==> forall i :: 0 <= i < |data| ==> n[i] == data[0] - data[i])
            && (data[0] <= data[|data| - 1] ==> forall i :: 0 <= i < |data| ==> n[i] == data[i] - data[0])
  {
  }

  /**
   * The result is the contiguous window of the normalised curve from
   * `TrimStart` for up to 50 points: never empty, never longer than 50.
   */
  lemma NormalizeAndTrimSpec(data: seq<real>)
    ensures NormalizeAndTrim(data).None? <==> data == []
    ensures data != [] ==>
              var n := Normalized(data);
              var s := TrimStart(n);
              var r := NormalizeAndTrim(data).value;
              s < |n| && 0 < |r| <= 50 && |r| == (if |n| - s < 50 then |n| - s else 50)
              && r == n[s..s + |r|]
  {
  }

  /** A curve that never moves more than one away from its start is kept whole up to 50 points, from 0. */
  lemma QuietCurveKeptFromStart(data: seq<real>)
    requires data != []
    requires forall i :: 0 <= i < |data| ==> Abs(Normalized(data)[i]) <= 1.0
    ensures TrimStart(Normalized(data)) == 0
    ensures NormalizeAndTrim(data).value[0] == 0.0
  {
    FirstAboveSpec(Normalized(data));
  }

  // ---------------------------------------------------------------- calculate_angular_velocity

  /** The speed between sample `i - 1` and sample `i`; a zero time step gives 0. */
  function VelocityAt(angles: seq<real>, times: seq<real>, i: nat): real
    requires 1 <= i < |angles| && i < |times|
  {
    var dt := times[i] - times[i - 1];
    if dt != 0.0 then Abs((angles[i] - angles[i - 1]) / dt) else 0.0
  }

  /** `calculate_angular_velocity`: one non-negative speed per step between consecutive samples. */
  method AngularVelocity(angles: seq<real>, times: seq<real>) returns (v: seq<real>)
    requires |angles| <= 1 || |angles| <= |times|
    ensures |v| == if |angles| == 0 then 0 else |angles| - 1
    ensures forall i :: 0 <= i < |v| ==> v[i] == VelocityAt(angles, times, i + 1) && v[i] >= 0.0
  {
    v := [];
    if |angles| == 0 {
      return;
    }
    var i := 1;
    while i < |angles|
      invariant 1 <= i <= |angles|
      invariant |v| == i - 1
      invariant forall k :: 0 <= k < |v| ==> v[k] == VelocityAt(angles, times, k + 1) && v[k] >= 0.0
    {
      var dTheta := angles[i] - angles[i - 1];
      var dTime := times[i] - times[i - 1];
      if dTime != 0.0 {
        v := v + [Abs(dTheta / dTime)];
      } else {
        v := v + [0.0];
      }
      i := i + 1;
    }
  }

  /** With one time unit per sample, as the graph uses, each speed is the size of the angle step. */
  lemma UniformVelocity(angles: seq<real>, times: seq<real>, i: nat)
    requires |times| == |angles| && forall k :: 0 <= k < |times| ==> times[k] == k as real
    requires 1 <= i < |angles|
    ensures VelocityAt(angles, times, i) == Abs(angles[i] - angles[i - 1])
  {
    assert times[i] - times[i - 1] == 1.0;
  }

  // ---------------------------------------------------------------- G7 metric

  /** Python's `max(values)` of a non-empty list. */
  function Peak(values: seq<real>): (m: real)
    requires values != []
    ensures m in values && forall i :: 0 <= i < |values| ==> values[i] <= m
  {
    if |values| == 1 then values[0] else Max(values[0], Peak(values[1..]))
  }

  /** The outcome of `calculate_g7_metric_from_plotted_data`. */
  datatype G7 =
    | Metric(value: real)
    | InsufficientData   // no session with current, or none without, for the joint
    | ZeroBaseline       // the peak without current is zero
    | EmptyCurve         // `max()` of an empty curve raised

  /** The two running maxima of the loop; None until a session of that condition is seen. */
  datatype Maxima = Maxima(withCurrent: Option<real>, withoutCurrent: Option<real>)

  /** A session the loop looks at: the joint matches and the condition is one of the two. */
  predicate Counted(f: Feedback, joint: string) {
    f.joint == joint && (f.condition == "Corrente" || f.condition == "Sem Corrente")
  }

  /** `max(m or 0, max(curve))`. */
  function Bump(m: Option<real>, curve: seq<real>): Option<real>
    requires curve != []
  {
    Some(Max(m.GetOr(0.0), Peak(curve)))
  }

  /** One turn of the loop; None when `max()` raises on an empty curve. */
  function ScanOne(m: Maxima, f: Feedback, joint: string): Option<Maxima> {
    if !Counted(f, joint) then Some(m)
    else if f.trimmed == [] then None
    else if f.condition == "Corrente" then Some(m.(withCurrent := Bump(m.withCurrent, f.trimmed)))
    else Some(m.(withoutCurrent := Bump(m.withoutCurrent, f.trimmed)))
  }

  /** The loop over the sessions, in table order, from the maxima `m`. */
  function Scan(rows: seq<Feedback>, joint: string, m: Maxima): Option<Maxima> {
    if rows == [] then Some(m)
    else match ScanOne(m, rows[0], joint)
      case None => None
      case Some(m') => Scan(rows[1..], joint, m')
  }

  /** The verdict on the two maxima. */
  function Verdict(m: Maxima): G7 {
    if m.withCurrent.None? || m.withoutCurrent.None? then InsufficientData
    else if m.withoutCurrent.value == 0.0 then ZeroBaseline
    else Metric((m.withCurrent.value - m.withoutCurrent.value) / m.withoutCurrent.value)
  }

  function G7Of(rows: seq<Feedback>, joint: string): G7 {
    match Scan(rows, joint, Maxima(None, None))
    case None => EmptyCurve
    case Some(m) => Verdict(m)
  }

  /** `calculate_g7_metric_from_plotted_data` over the sessions of the table for `joint`. */
  method CalculateG7(rows: seq<Feedback>, joint: string) returns (r: G7)
    ensures r == G7Of(rows, joint)
  {
    var withCurrent: Option<real> := None;
    var withoutCurrent: Option<real> := None;
    var i := 0;
    while i < |rows|
      invariant 0 <= i <= |rows|
      invariant Scan(rows, joint, Maxima(None, None)) == Scan(rows[i..], joint, Maxima(withCurrent, withoutCurrent))
    {
      assert rows[i..][0] == rows[i] && rows[i..][1..] == rows[i + 1..];
      var f := rows[i];
      if f.joint == joint {
        if f.condition == "Corrente" {
          if f.trimmed == [] {
            return EmptyCurve;
          }
          withCurrent := Some(Max(withCurrent.GetOr(0.0), Peak(f.trimmed)));
        } else if f.condition == "Sem Corrente" {
          if f.trimmed == [] {
            return EmptyCurve;
          }
          withoutCurrent := Some(Max(withoutCurrent.GetOr(0.0), Peak(f.trimmed)));
        }
      }
      i := i + 1;
    }
    if withCurrent.None? || withoutCurrent.None? {
      return InsufficientData;
    }
    if withoutCurrent.value == 0.0 {
      return ZeroBaseline;
    }
    r := Metric((withCurrent.value - withoutCurrent.value) / withoutCurrent.value);
  }

  /** Some counted session of the joint has an empty curve. */
  ghost predicate HasEmptyCurve(rows: seq<Feedback>, joint: string) {
    exists i :: 0 <= i < |rows| && Counted(rows[i], joint) && rows[i].trimmed == []
  }

  /** Some session of the joint has the condition `c`. */
  ghost predicate HasCondition(rows: seq<Feedback>, joint: string, c: string) {
    exists i :: 0 <= i < |rows| && rows[i].joint == joint && rows[i].condition == c
  }

  /** The running maximum of condition `c` (one of the two). */
  function Field(m: Maxima, c: string): Option<real> {
    if c == "Corrente" then m.withCurrent else m.withoutCurrent
  }

  /** Session `i` belongs to joint `joint` and condition `c`. */
  predicate Matches(rows: seq<Feedback>, i: int, joint: string, c: string) {
    0 <= i < |rows| && rows[i].joint == joint && rows[i].condition == c
  }

  /**
   * `v` is the maximum of `start` and the peaks of the sessions of `joint`
   * with condition `c`: at least each of them, and equal to one of them.
   */
  ghost predicate IsTopFrom(v: real, start: real, rows: seq<Feedback>, joint: string, c: string)
    requires !HasEmptyCurve(rows, joint) && (c == "Corrente" || c == "Sem Corrente")
  {
    v >= start
    && (forall i :: Matches(rows, i, joint, c) ==> Peak(rows[i].trimmed) <= v)
    && (v == start || exists i :: Matches(rows, i, joint, c) && Peak(rows[i].trimmed) == v)
  }

  lemma NoEmptyTail(rows: seq<Feedback>, joint: string)
    requires rows != [] && !HasEmptyCurve(rows, joint)
    ensures !HasEmptyCurve(rows[1..], joint)
    ensures Counted(rows[0], joint) ==> rows[0].trimmed != []
  {
    forall i | 0 <= i < |rows[1..]| ensures !(Counted(rows[1..][i], joint) && rows[1..][i].trimmed == []) {
      assert rows[1..][i] == rows[i + 1];
    }
  }

  /** Putting a session in front: the maximum over the rest, started from the bumped value, is the maximum over all. */
  lemma TopFromCons(v: real, start: real, rows: seq<Feedback>, joint: string, c: string)
    requires rows != [] && !HasEmptyCurve(rows, joint) && (c == "Corrente" || c == "Sem Corrente")
    requires !HasEmptyCurve(rows[1..], joint)
    requires Matches(rows, 0, joint, c) ==> rows[0].trimmed != [] && IsTopFrom(v, Max(start, Peak(rows[0].trimmed)), rows[1..], joint, c)
    requires !Matches(rows, 0, joint, c) ==> IsTopFrom(v, start, rows[1..], joint, c)
    ensures IsTopFrom(v, start, rows, joint, c)
  {
    var rest := rows[1..];
    forall i | Matches(rows, i, joint, c) ensures Peak(rows[i].trimmed) <= v {
      if i > 0 {
        assert rows[i] == rest[i - 1] && Matches(rest, i - 1, joint, c);
      }
    }
    if v != start {
      if Matches(rows, 0, joint, c) && v == Peak(rows[0].trimmed) {
      } else {
        var j :| Matches(rest, j, joint, c) && Peak(rest[j].trimmed) == v;
        assert rows[j + 1] == rest[j] && Matches(rows, j + 1, joint, c);
      }
    }
  }

  lemma HasConditionCons(rows: seq<Feedback>, joint: string, c: string)
    requires rows != []
    ensures HasCondition(rows, joint, c) <==> Matches(rows, 0, joint, c) || HasCondition(rows[1..], joint, c)
  {
    if HasCondition(rows, joint, c) && !Matches(rows, 0, joint, c) {
      var i :| 0 <= i < |rows| && rows[i].joint == joint && rows[i].condition == c;
      assert rows[1..][i - 1] == rows[i];
    }
    if HasCondition(rows[1..], joint, c) {
      var i :| 0 <= i < |rows[1..]| && rows[1..][i].joint == joint && rows[1..][i].condition == c;
      assert rows[i + 1] == rows[1..][i];
    }
  }

  /**
   * Without an empty curve the loop runs to the end, and each running
   * maximum ends as the maximum of its start and the peaks of its
   * condition's sessions, None only when it started None and no such
   * session exists.
   */
  lemma {:induction false} ScanSpec(rows: seq<Feedback>, joint: string, m: Maxima, c: string)
    requires !HasEmptyCurve(rows, joint) && (c == "Corrente" || c == "Sem Corrente")
    ensures Scan(rows, joint, m).Some?
    ensures var f := Field(Scan(rows, joint, m).value, c);
            (f.None? <==> Field(m, c).None? && !HasCondition(rows, joint, c))
            && (f.Some? ==> IsTopFrom(f.value, Field(m, c).GetOr(0.0), rows, joint, c))
  {
    if rows != [] {
      NoEmptyTail(rows, joint);
      HasConditionCons(rows, joint, c);
      var m' := ScanOne(m, rows[0], joint).value;
      ScanSpec(rows[1..], joint, m', c);
      var f := Field(Scan(rows, joint, m).value, c);
      if Matches(rows, 0, joint, c) {
        assert Field(m', c) == Some(Max(Field(m, c).GetOr(0.0), Peak(rows[0].trimmed)));
      } else {
        assert Field(m', c) == Field(m, c);
      }
      if f.Some? {
        TopFromCons(f.value, Field(m, c).GetOr(0.0), rows, joint, c);
      }
    }
  }

  /** An empty curve in a counted session makes `max()` raise, whatever came before. */
  lemma {:induction false} ScanRaises(rows: seq<Feedback>, joint: string, m: Maxima)
    requires HasEmptyCurve(rows, joint)
    ensures Scan(rows, joint, m).None?
  {
    var i :| 0 <= i < |rows| && Counted(rows[i], joint) && rows[i].trimmed == [];
    if i > 0 && ScanOne(m, rows[0], joint).Some? {
      assert rows[1..][i - 1] == rows[i];
      ScanRaises(rows[1..], joint, ScanOne(m, rows[0], joint).value);
    }
  }

  /**
   * The three outcomes of the G7 metric: `max()` raises exactly on an empty
   * curve; otherwise the data are insufficient exactly when a condition has
   * no session; otherwise, with each peak the maximum of 0 and its
   * sessions' peaks, a zero peak without current is refused and any other
   * gives (peak with − peak without) / peak without.
   */
  lemma G7Outcomes(rows: seq<Feedback>, joint: string)
    ensures G7Of(rows, joint) == EmptyCurve <==> HasEmptyCurve(rows, joint)
    ensures !HasEmptyCurve(rows, joint) ==>
              (G7Of(rows, joint) == InsufficientData
               <==> !HasCondition(rows, joint, "Corrente") || !HasCondition(rows, joint, "Sem Corrente"))
    ensures !HasEmptyCurve(rows, joint) && HasCondition(rows, joint, "Corrente") && HasCondition(rows, joint, "Sem Corrente") ==>
              exists withC: real, withoutC: real ::
                IsTopFrom(withC, 0.0, rows, joint, "Corrente") && IsTopFrom(withoutC, 0.0, rows, joint, "Sem Corrente")
                && G7Of(rows, joint) == if withoutC == 0.0 then ZeroBaseline else Metric((withC - withoutC) / withoutC)
  {
    if HasEmptyCurve(rows, joint) {
      ScanRaises(rows, joint, Maxima(None, None));
    } else {
      BothMaxima(rows, joint);
      var m := Scan(rows, joint, Maxima(None, None)).value;
      assert G7Of(rows, joint) == Verdict(m);
      if m.withCurrent.Some? && m.withoutCurrent.Some? {
        var withC, withoutC := m.withCurrent.value, m.withoutCurrent.value;
        assert IsTopFrom(withC, 0.0, rows, joint, "Corrente") && IsTopFrom(withoutC, 0.0, rows, joint, "Sem Corrente");
      }
    }
  }

  /** Without an empty curve both running maxima come out of the scan, each None exactly when its condition is absent. */
  lemma BothMaxima(rows: seq<Feedback>, joint: string)
    requires !HasEmptyCurve(rows, joint)
    ensures Scan(rows, joint, Maxima(None, None)).Some?
    ensures var m := Scan(rows, joint, Maxima(None, None)).value;
            (m.withCurrent.None? <==> !HasCondition(rows, joint, "Corrente"))
            && (m.withoutCurrent.None? <==> !HasCondition(rows, joint, "Sem Corrente"))
            && (m.withCurrent.Some? ==> IsTopFrom(m.withCurrent.value, 0.0, rows, joint, "Corrente"))
            && (m.withoutCurrent.Some? ==> IsTopFrom(m.withoutCurrent.value, 0.0, rows, joint, "Sem Corrente"))
  {
    ScanSpec(rows, joint, Maxima(None, None), "Corrente");
    ScanSpec(rows, joint, Maxima(None, None), "Sem Corrente");
  }
}
