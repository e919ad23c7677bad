/**
 * Motion traces of `maskbot/recording.py`: a recorded arm state, the
 * equality that ignores its time stamp, the recording loop that samples the
 * arm on every keyboard prompt, and the replay that moves the arm from sample
 * to sample at a speed rebuilt from distance and elapsed time.
 */
module Recording {
  import opened Wrappers
  import opened Arm

  const DefaultMaxSpeed: real := 150.0

  /** One recorded arm state; `time` is seconds since the recording started. */
  datatype RobotState = RobotState(x: real, y: real, z: real, pump: bool, time: real)

  /** A value held in a RobotState's instance dictionary. */
  datatype FieldValue = Number(n: real) | Flag(b: bool)

  /** The instance dictionary `__dict__` of a RobotState: field name to value. */
  function Fields(s: RobotState): (m: map<string, FieldValue>)
  {
    map["x" := Number(s.x), "y" := Number(s.y), "z" := Number(s.z),
        "pump" := Flag(s.pump), "time" := Number(s.time)]
  }

  /** `RobotState.__eq__`: the two instance dictionaries are compared with "time" popped. */
  predicate SameState(a: RobotState, b: RobotState)
  {
    Fields(a) - {"time"} == Fields(b) - {"time"}
  }

  lemma SameStateIff(a: RobotState, b: RobotState)
    ensures SameState(a, b) <==> a.x == b.x && a.y == b.y && a.z == b.z && a.pump == b.pump
  {
    var fa, fb := Fields(a) - {"time"}, Fields(b) - {"time"};
    if SameState(a, b) {
      assert fa["x"] == fb["x"] && fa["y"] == fb["y"] && fa["z"] == fb["z"] && fa["pump"] == fb["pump"];
    }
    if a.x == b.x && a.y == b.y && a.z == b.z && a.pump == b.pump {
      assert fa.Keys == fb.Keys;
      assert forall k :: k in fa ==> fa[k] == fb[k];
    }
  }

  /** The time stamp plays no part in the comparison. */
  lemma SameStateIgnoresTime(s: RobotState, t: real)
    ensures SameState(s, s.(time := t))
  {
    SameStateIff(s, s.(time := t));
  }

  /** The comparison is an equivalence relation. */
  lemma SameStateIsEquivalence(a: RobotState, b: RobotState, c: RobotState)
    ensures SameState(a, a)
    ensures SameState(a, b) ==> SameState(b, a)
    ensures SameState(a, b) && SameState(b, c) ==> SameState(a, c)
  {
  }

  function Sq(d: real): (r: real)
    ensures r >= 0.0
  {
    d * d
  }

  /** The square of `RobotState.distance`: the sum of the squared coordinate differences. */
  function SquaredDistance(a: RobotState, b: RobotState): (r: real)
    ensures r >= 0.0
  {
    Sq(b.x - a.x) + Sq(b.y - a.y) + Sq(b.z - a.z)
  }

  /**
   * The model does not compute square roots: `(dx ** 2 + dy ** 2 + dz ** 2) ** 0.5`
   * is a function `norm` of the three differences, supplied by the caller; the
   * properties of the distance are proved for every `norm` that returns the
   * non-negative square root of the sum of squares.
   */
  ghost predicate IsEuclideanNorm(norm: (real, real, real) -> real)
  {
    forall dx, dy, dz :: norm(dx, dy, dz) >= 0.0 && Sq(norm(dx, dy, dz)) == Sq(dx) + Sq(dy) + Sq(dz)
  }

  /** `RobotState.distance`: the norm of the difference `other - self`. */
  function Distance(a: RobotState, b: RobotState, norm: (real, real, real) -> real): (d: real)
  {
    norm(b.x - a.x, b.y - a.y, b.z - a.z)
  }

  /**
   * The distance is `IsEuclideanNorm` read back for two samples: this is the
   * definition of `distance` under the assumed square root, not a derived fact.
   */
  lemma DistanceIsEuclidean(a: RobotState, b: RobotState, norm: (real, real, real) -> real)
    requires IsEuclideanNorm(norm)
    ensures Distance(a, b, norm) >= 0.0
    ensures Sq(Distance(a, b, norm)) == SquaredDistance(a, b)
  {
  }

  lemma SqStrictlyMonotone(u: real, v: real)
    requires 0.0 <= u < v
    ensures Sq(u) < Sq(v)
  {
    var below, mid, above := u * u, u * v, v * v;
    assert below <= mid;
    assert mid < above;
    assert Sq(u) == below && Sq(v) == above;
  }

  lemma SqNeg(d: real)
    ensures Sq(-d) == Sq(d)
  {
  }

  /** Two non-negative reals with the same square are equal. */
  lemma SqInjective(u: real, v: real)
    requires u >= 0.0 && v >= 0.0 && Sq(u) == Sq(v)
    ensures u == v
  {
    if u < v {
      SqStrictlyMonotone(u, v);
    } else if v < u {
      SqStrictlyMonotone(v, u);
    }
  }

  /** The distance is symmetric. */
  lemma DistanceSymmetric(a: RobotState, b: RobotState, norm: (real, real, real) -> real)
    requires IsEuclideanNorm(norm)
    ensures Distance(a, b, norm) == Distance(b, a, norm)
  {
    DistanceIsEuclidean(a, b, norm);
    DistanceIsEuclidean(b, a, norm);
    SqNeg(b.x - a.x);
    SqNeg(b.y - a.y);
    SqNeg(b.z - a.z);
    assert SquaredDistance(a, b) == SquaredDistance(b, a);
    SqInjective(Distance(a, b, norm), Distance(b, a, norm));
  }

  /** The distance is zero exactly when the positions coincide (the pump and the time do not matter). */
  lemma DistanceZeroIffSamePosition(a: RobotState, b: RobotState, norm: (real, real, real) -> real)
    requires IsEuclideanNorm(norm)
    ensures Distance(a, b, norm) == 0.0 <==> a.x == b.x && a.y == b.y && a.z == b.z
  {
    var d := Distance(a, b, norm);
    DistanceIsEuclidean(a, b, norm);
    if d == 0.0 {
      assert SquaredDistance(a, b) == 0.0;
      SqZero(b.x - a.x);
      SqZero(b.y - a.y);
      SqZero(b.z - a.z);
    }
    if a.x == b.x && a.y == b.y && a.z == b.z {
      assert SquaredDistance(a, b) == 0.0;
      SqZero(d);
    }
  }

  lemma SqZero(d: real)
    requires Sq(d) == 0.0
    ensures d == 0.0
  {
    if d != 0.0 {
      SqInjective(if d > 0.0 then d else -d, 0.0);
    }
  }

  /** Python's `int()` on a float: truncation toward zero. */
  function Trunc(r: real): (n: int)
    ensures r >= 0.0 ==> n as real <= r < n as real + 1.0
    ensures r < 0.0 ==> n as real - 1.0 < r <= n as real
  {
    if r >= 0.0 then r.Floor else -((-r).Floor)
  }

  /** Replay speed: `min(distance / duration, max_speed)`, given the rate `distance / duration`. */
  function ReplaySpeed(rate: real, maxSpeed: real): (speed: real)
    ensures speed <= maxSpeed
    ensures speed <= rate
    ensures speed == maxSpeed || speed == rate
  {
    if maxSpeed < rate then maxSpeed else rate
  }

  lemma ReplaySpeedClampScenario()
    ensures ReplaySpeed(500.0 / 0.1, DefaultMaxSpeed) == 150.0
  {
  }

  // ---------------------------------------------------------------------
  // Recording

  /**
   * What one keyboard prompt of the recording loop sees: the line typed, then
   * the arm position, the limit switch and the clock, in the order the loop
   * reads them.
   */
  datatype Reading = Reading(line: string, x: real, y: real, z: real, limitSwitch: bool, clock: real)

  /** How many prompts are answered before the first "q". */
  function QuitIndex(rs: seq<Reading>): (n: nat)
    ensures n <= |rs|
    ensures forall j :: 0 <= j < n ==> rs[j].line != "q"
    ensures n < |rs| ==> rs[n].line == "q"
  {
    if rs == [] || rs[0].line == "q" then 0 else 1 + QuitIndex(rs[1..])
  }

  /** The pump flag after a reading: the limit switch toggles it. */
  function Toggled(r: Reading, pump: bool): (on: bool)
  {
    if r.limitSwitch then !pump else pump
  }

  /** The state built from a reading. */
  function Sample(r: Reading, pump: bool, startTime: real): (s: RobotState)
  {
    RobotState(r.x, r.y, r.z, pump, r.clock - startTime)
  }

  /**
   * The states the recording loop appends, from readings `rs`, with pump flag
   * `pump` and last appended state `last` on entry.
   */
  function Recorded(rs: seq<Reading>, startTime: real, pump: bool, last: Option<RobotState>): (stored: seq<RobotState>)
    decreases |rs|
  {
    if rs == [] || rs[0].line == "q" then []
    else
      var p := Toggled(rs[0], pump);
      var s := Sample(rs[0], p, startTime);
      if last.Some? && SameState(last.value, s) then Recorded(rs[1..], startTime, p, last)
      else [s] + Recorded(rs[1..], startTime, p, Some(s))
  }

  /** One prompt of the recording loop: what it stores and which `set_pump` it issues. */
  lemma RecordStep(rs: seq<Reading>, startTime: real, pump: bool, last: Option<RobotState>)
    requires rs != [] && rs[0].line != "q"
    ensures var p := Toggled(rs[0], pump);
      var s := Sample(rs[0], p, startTime);
      var dup := last.Some? && SameState(last.value, s);
      && Recorded(rs, startTime, pump, last)
         == (if dup then [] else [s]) + Recorded(rs[1..], startTime, p, if dup then last else Some(s))
      && PumpCommands(rs, pump)
         == (if rs[0].limitSwitch then [SetPump(p)] else []) + PumpCommands(rs[1..], p)
  {
  }

  /** The state each prompt before the "q" builds, whether or not it is stored. */
  function Samples(rs: seq<Reading>, startTime: real, pump: bool): (out: seq<RobotState>)
    ensures |out| == QuitIndex(rs)
    decreases |rs|
  {
    if rs == [] || rs[0].line == "q" then []
    else
      var p := Toggled(rs[0], pump);
      [Sample(rs[0], p, startTime)] + Samples(rs[1..], startTime, p)
  }

  /** `s` equals (ignoring time) the state kept before, or one of the states stored. */
  ghost predicate Covered(s: RobotState, stored: seq<RobotState>, last: Option<RobotState>)
  {
    (last.Some? && SameState(last.value, s)) || exists j :: 0 <= j < |stored| && SameState(stored[j], s)
  }

  /**
   * Nothing is lost by the deduplication: every prompt's state equals the
   * state kept before recording resumed or one that is stored.
   */
  lemma {:induction false} RecordedCoversSamples(rs: seq<Reading>, startTime: real, pump: bool, last: Option<RobotState>)
    ensures forall i :: 0 <= i < |Samples(rs, startTime, pump)| ==>
      Covered(Samples(rs, startTime, pump)[i], Recorded(rs, startTime, pump, last), last)
    decreases |rs|
  {
    if rs != [] && rs[0].line != "q" {
      var p := Toggled(rs[0], pump);
      var s := Sample(rs[0], p, startTime);
      var dup := last.Some? && SameState(last.value, s);
      var last' := if dup then last else Some(s);
      var samples := Samples(rs, startTime, pump);
      var rest := Samples(rs[1..], startTime, p);
      var stored := Recorded(rs, startTime, pump, last);
      var tail := Recorded(rs[1..], startTime, p, last');
      RecordStep(rs, startTime, pump, last);
      RecordedCoversSamples(rs[1..], startTime, p, last');
      assert samples == [s] + rest;
      forall i | 0 <= i < |samples|
        ensures Covered(samples[i], stored, last)
      {
        if dup {
          assert stored == tail;
          if i > 0 {
            assert samples[i] == rest[i - 1];
            assert Covered(rest[i - 1], tail, last);
          }
        } else {
          assert stored == [s] + tail;
          assert SameState(stored[0], s);
          if i > 0 {
            var t := rest[i - 1];
            assert samples[i] == t;
            assert Covered(t, tail, Some(s));
            if SameState(s, t) {
              assert SameState(stored[0], t);
            } else {
              var j :| 0 <= j < |tail| && SameState(tail[j], t);
              assert stored[j + 1] == tail[j];
            }
          }
        }
      }
    }
  }

  /** Every stored state is the state of some prompt before the "q". */
  lemma {:induction false} RecordedFromSamples(rs: seq<Reading>, startTime: real, pump: bool, last: Option<RobotState>)
    ensures forall s :: s in Recorded(rs, startTime, pump, last) ==> s in Samples(rs, startTime, pump)
    decreases |rs|
  {
    if rs != [] && rs[0].line != "q" {
      var p := Toggled(rs[0], pump);
      var s := Sample(rs[0], p, startTime);
      var dup := last.Some? && SameState(last.value, s);
      RecordStep(rs, startTime, pump, last);
      RecordedFromSamples(rs[1..], startTime, p, if dup then last else Some(s));
      assert Samples(rs, startTime, pump) == [s] + Samples(rs[1..], startTime, p);
    }
  }

  /**
   * An independent statement of the deduplication rule: from the states the
   * prompts build, keep each one exactly when it differs (ignoring time) from
   * the state of the prompt before it; `prev` is the state before the first.
   */
  function KeepChanges(ss: seq<RobotState>, prev: Option<RobotState>): (kept: seq<RobotState>)
    ensures |kept| <= |ss|
    ensures ss != [] && prev.None? ==> kept != [] && kept[0] == ss[0]
    decreases |ss|
  {
    if ss == [] then []
    else (if prev.Some? && SameState(prev.value, ss[0]) then [] else [ss[0]]) + KeepChanges(ss[1..], Some(ss[0]))
  }

  /** Both absent, or both present and equal ignoring time. */
  predicate SameLast(a: Option<RobotState>, b: Option<RobotState>)
  {
    (a.None? && b.None?) || (a.Some? && b.Some? && SameState(a.value, b.value))
  }

  /**
   * The recording loop stores exactly the prompts' states that differ from
   * the previous prompt's: comparing with the last stored state, as the loop
   * does, is the same as comparing with the previous prompt's state.
   */
  lemma {:induction false} RecordedKeepsChanges(rs: seq<Reading>, startTime: real, pump: bool, last: Option<RobotState>, prev: Option<RobotState>)
    requires SameLast(last, prev)
    ensures Recorded(rs, startTime, pump, last) == KeepChanges(Samples(rs, startTime, pump), prev)
    decreases |rs|
  {
    if rs != [] && rs[0].line != "q" {
      var p := Toggled(rs[0], pump);
      var s := Sample(rs[0], p, startTime);
      var dup := last.Some? && SameState(last.value, s);
      var last' := if dup then last else Some(s);
      RecordStep(rs, startTime, pump, last);
      var ss := Samples(rs, startTime, pump);
      assert ss == [s] + Samples(rs[1..], startTime, p);
      assert ss[1..] == Samples(rs[1..], startTime, p);
      if last.Some? {
        SameStateIsEquivalence(last.value, prev.value, s);
        SameStateIsEquivalence(prev.value, last.value, s);
      }
      assert dup <==> prev.Some? && SameState(prev.value, s);
      SameStateIff(s, s);
      assert SameLast(last', Some(s));
      RecordedKeepsChanges(rs[1..], startTime, p, last', Some(s));
    }
  }

  /** Three prompts at poses A, B, A with no switch press store all three. */
  lemma ReturnToEarlierPoseStored(a: Reading, b: Reading, a': Reading, startTime: real)
    requires a.line != "q" && b.line != "q" && a'.line != "q"
    requires !a.limitSwitch && !b.limitSwitch && !a'.limitSwitch
    requires a.x != b.x && a'.x == a.x && a'.y == a.y && a'.z == a.z
    ensures |Recorded([a, b, a'], startTime, false, None)| == 3
  {
    var rs := [a, b, a'];
    var sa, sb, sa' := Sample(a, false, startTime), Sample(b, false, startTime), Sample(a', false, startTime);
    assert rs[1..] == [b, a'] && rs[1..][1..] == [a'] && rs[1..][1..][1..] == [];
    RecordStep(rs, startTime, false, None);
    RecordStep(rs[1..], startTime, false, Some(sa));
    RecordStep(rs[1..][1..], startTime, false, Some(sb));
    SameStateIff(sa, sb);
    SameStateIff(sb, sa');
  }

  /** The `set_pump` commands the recording loop issues. */
  function PumpCommands(rs: seq<Reading>, pump: bool): (cmds: seq<Command>)
    decreases |rs|
  {
    if rs == [] || rs[0].line == "q" then []
    else
      var p := Toggled(rs[0], pump);
      (if rs[0].limitSwitch then [SetPump(p)] else []) + PumpCommands(rs[1..], p)
  }

  /** Everything `create` issues: the pump is switched off first. */
  function RecordScript(rs: seq<Reading>): (cmds: seq<Command>)
  {
    [SetPump(false)] + PumpCommands(rs, false)
  }

  /** No two adjacent recorded states are equal, and the first differs from `last`. */
  lemma {:induction false} RecordedHasNoRepeats(rs: seq<Reading>, startTime: real, pump: bool, last: Option<RobotState>)
    ensures last.Some? && |Recorded(rs, startTime, pump, last)| > 0 ==>
      !SameState(last.value, Recorded(rs, startTime, pump, last)[0])
    ensures forall j :: 0 < j < |Recorded(rs, startTime, pump, last)| ==>
      !SameState(Recorded(rs, startTime, pump, last)[j - 1], Recorded(rs, startTime, pump, last)[j])
    decreases |rs|
  {
    if rs != [] && rs[0].line != "q" {
      var p := Toggled(rs[0], pump);
      var s := Sample(rs[0], p, startTime);
      if last.Some? && SameState(last.value, s) {
        RecordedHasNoRepeats(rs[1..], startTime, p, last);
        var rest := Recorded(rs[1..], startTime, p, last);
        if |rest| > 0 {
          // last equals s, so rest[0] differing from last differs from s too
          SameStateIff(last.value, s);
          SameStateIff(last.value, rest[0]);
          SameStateIff(s, rest[0]);
        }
      } else {
        RecordedHasNoRepeats(rs[1..], startTime, p, Some(s));
      }
    }
  }

  /** At most one state is stored per prompt answered before "q". */
  lemma {:induction false} RecordedLength(rs: seq<Reading>, startTime: real, pump: bool, last: Option<RobotState>)
    ensures |Recorded(rs, startTime, pump, last)| <= QuitIndex(rs)
    decreases |rs|
  {
    if rs != [] && rs[0].line != "q" {
      var p := Toggled(rs[0], pump);
      RecordedLength(rs[1..], startTime, p, last);
      RecordedLength(rs[1..], startTime, p, Some(Sample(rs[0], p, startTime)));
    }
  }

  /** The first reading is always stored, with the pump flag the limit switch gave it. */
  lemma RecordedStartsWithFirstReading(rs: seq<Reading>, startTime: real)
    requires QuitIndex(rs) > 0
    ensures var out := Recorded(rs, startTime, false, None);
      |out| > 0 && out[0] == RobotState(rs[0].x, rs[0].y, rs[0].z, rs[0].limitSwitch, rs[0].clock - startTime)
  {
  }

  /** Two prompts at the same pose, with the switch untouched, store one state. */
  lemma RepeatedPoseStoredOnce(r: Reading, r': Reading, startTime: real)
    requires r.line != "q" && r'.line != "q"
    requires !r.limitSwitch && !r'.limitSwitch
    requires r.x == r'.x && r.y == r'.y && r.z == r'.z
    ensures Recorded([r, r'], startTime, false, None) == [Sample(r, false, startTime)]
  {
    var s := Sample(r, false, startTime);
    SameStateIff(s, Sample(r', false, startTime));
    assert [r, r'][1..] == [r'];
    assert [r'][1..] == [];
    assert Recorded([r'], startTime, false, Some(s)) == [];
  }

  /** The clock never goes back between prompts. */
  ghost predicate ClockMonotone(rs: seq<Reading>)
  {
    forall i, j :: 0 <= i < j < |rs| ==> rs[i].clock <= rs[j].clock
  }

  /** Every stored time is at least the first reading's clock minus the start time. */
  lemma {:induction false} RecordedTimesFrom(rs: seq<Reading>, startTime: real, pump: bool, last: Option<RobotState>)
    requires ClockMonotone(rs)
    ensures forall s :: s in Recorded(rs, startTime, pump, last) ==> s.time >= rs[0].clock - startTime
    decreases |rs|
  {
    if rs != [] && rs[0].line != "q" {
      var p := Toggled(rs[0], pump);
      var s := Sample(rs[0], p, startTime);
      var last' := if last.Some? && SameState(last.value, s) then last else Some(s);
      if |rs| > 1 {
        RecordedTimesFrom(rs[1..], startTime, p, last');
      }
    }
  }

  /** Stored times are non-decreasing when the clock is: states are appended in reading order. */
  lemma {:induction false} RecordedTimesSorted(rs: seq<Reading>, startTime: real, pump: bool, last: Option<RobotState>)
    requires ClockMonotone(rs)
    ensures forall i, j :: 0 <= i < j < |Recorded(rs, startTime, pump, last)| ==>
      Recorded(rs, startTime, pump, last)[i].time <= Recorded(rs, startTime, pump, last)[j].time
    decreases |rs|
  {
    if rs != [] && rs[0].line != "q" {
      var p := Toggled(rs[0], pump);
      var s := Sample(rs[0], p, startTime);
      var last' := if last.Some? && SameState(last.value, s) then last else Some(s);
      RecordedTimesSorted(rs[1..], startTime, p, last');
      if |rs| > 1 {
        RecordedTimesFrom(rs[1..], startTime, p, last');
      }
      var rest := Recorded(rs[1..], startTime, p, last');
      var out := Recorded(rs, startTime, pump, last);
      if !(last.Some? && SameState(last.value, s)) {
        assert out == [s] + rest;
        forall i, j | 0 <= i < j < |out| ensures out[i].time <= out[j].time {
          if i == 0 {
            assert out[j] in rest;
          } else {
            assert out[i] == rest[i - 1] && out[j] == rest[j - 1];
          }
        }
      }
    }
  }

  /** The k-th `set_pump` of the recording loop switches the pump on when k is even: each press flips the flag. */
  lemma {:induction false} PumpCommandsAlternate(rs: seq<Reading>, pump: bool)
    ensures forall k :: 0 <= k < |PumpCommands(rs, pump)| ==>
      PumpCommands(rs, pump)[k] == SetPump(if k % 2 == 0 then !pump else pump)
    decreases |rs|
  {
    if rs != [] && rs[0].line != "q" {
      var p := Toggled(rs[0], pump);
      PumpCommandsAlternate(rs[1..], p);
      var rest := PumpCommands(rs[1..], p);
      var cmds := PumpCommands(rs, pump);
      if rs[0].limitSwitch {
        assert cmds == [SetPump(p)] + rest;
        forall k | 0 <= k < |cmds| ensures cmds[k] == SetPump(if k % 2 == 0 then !pump else pump) {
          if k > 0 {
            assert cmds[k] == rest[k - 1];
            assert rest[k - 1] == SetPump(if (k - 1) % 2 == 0 then !p else p);
            assert (k - 1) % 2 == 0 <==> k % 2 != 0;
          }
        }
      } else {
        assert p == pump;
        assert cmds == rest;
        forall k | 0 <= k < |cmds| ensures cmds[k] == SetPump(if k % 2 == 0 then !pump else pump) {
          assert cmds[k] == rest[k];
        }
      }
    }
  }

  /** One `set_pump` per limit-switch press before "q". */
  function Presses(rs: seq<Reading>): (n: nat)
    ensures n <= QuitIndex(rs)
  {
    if rs == [] || rs[0].line == "q" then 0
    else (if rs[0].limitSwitch then 1 else 0) + Presses(rs[1..])
  }

  lemma {:induction false} PumpCommandsCount(rs: seq<Reading>, pump: bool)
    ensures |PumpCommands(rs, pump)| == Presses(rs)
    decreases |rs|
  {
    if rs != [] && rs[0].line != "q" {
      PumpCommandsCount(rs[1..], Toggled(rs[0], pump));
    }
  }

  // ---------------------------------------------------------------------
  // Replay

  /** No two consecutive samples share a time stamp (the division in `play` is unguarded). */
  predicate DistinctTimes(ps: seq<RobotState>)
  {
    forall j :: 0 < j < |ps| ==> ps[j].time != ps[j - 1].time
  }

  /** Moving to the first sample and switching the pump off. */
  function PlaySetup(first: RobotState): (cmds: seq<Command>)
  {
    [SetPosition(Some(first.x), Some(first.y), Some(first.z), 100.0, false, true), SetPump(false)]
  }

  /** The move of `play` from `prev` to `next`: x, y truncated, and the truncated y passed as z. */
  function ReplayMove(prev: RobotState, next: RobotState, maxSpeed: real, norm: (real, real, real) -> real): (c: Command)
    requires next.time != prev.time
    ensures c.SetPosition? && !c.relative && c.wait
    ensures c.speed <= maxSpeed
    ensures c.x == Some(Trunc(next.x) as real) && c.y == Some(Trunc(next.y) as real)
    // as written: the z slot receives the truncated y
    ensures c.z == Some(Trunc(next.y) as real)
  {
    var speed := ReplaySpeed(Distance(prev, next, norm) / (next.time - prev.time), maxSpeed);
    SetPosition(Some(Trunc(next.x) as real), Some(Trunc(next.y) as real), Some(Trunc(next.y) as real), speed, false, true)
  }

  /** The speed of a replay move is `min(distance / duration, max_speed)`. */
  lemma ReplayMoveSpeed(prev: RobotState, next: RobotState, maxSpeed: real, norm: (real, real, real) -> real)
    requires next.time != prev.time
    ensures var rate := Distance(prev, next, norm) / (next.time - prev.time);
      var speed := ReplayMove(prev, next, maxSpeed, norm).speed;
      speed <= rate && (speed == maxSpeed || speed == rate)
  {
  }

  /** The commands for one consecutive pair: the move, then the pump if it changes. */
  function PairCommands(prev: RobotState, next: RobotState, maxSpeed: real, norm: (real, real, real) -> real): (cmds: seq<Command>)
    requires next.time != prev.time
    ensures |cmds| == (if prev.pump != next.pump then 2 else 1)
    ensures cmds[0] == ReplayMove(prev, next, maxSpeed, norm)
    ensures |cmds| == 2 ==> cmds[1] == SetPump(next.pump)
  {
    [ReplayMove(prev, next, maxSpeed, norm)] + (if prev.pump != next.pump then [SetPump(next.pump)] else [])
  }

  /** The commands for all consecutive pairs of `ps`, in order. */
  function ReplayMoves(ps: seq<RobotState>, maxSpeed: real, norm: (real, real, real) -> real): (cmds: seq<Command>)
    requires DistinctTimes(ps)
    decreases |ps|
  {
    if |ps| < 2 then []
    else ReplayMoves(ps[..|ps| - 1], maxSpeed, norm) + PairCommands(ps[|ps| - 2], ps[|ps| - 1], maxSpeed, norm)
  }

  /** Everything `play` issues. */
  function PlayScript(ps: seq<RobotState>, maxSpeed: real, norm: (real, real, real) -> real): (cmds: seq<Command>)
    requires |ps| > 0
    requires DistinctTimes(ps)
  {
    PlaySetup(ps[0]) + ReplayMoves(ps, maxSpeed, norm)
  }

  predicate IsMove(c: Command) { c.SetPosition? }

  lemma ReplayMovesSnoc(ps: seq<RobotState>, i: nat, maxSpeed: real, norm: (real, real, real) -> real)
    requires 1 <= i < |ps|
    requires DistinctTimes(ps)
    ensures DistinctTimes(ps[..i]) && DistinctTimes(ps[..i + 1])
    ensures ReplayMoves(ps[..i + 1], maxSpeed, norm)
         == ReplayMoves(ps[..i], maxSpeed, norm) + PairCommands(ps[i - 1], ps[i], maxSpeed, norm)
  {
    assert ps[..i + 1][..i] == ps[..i];
  }

  /** `play` issues one move per consecutive pair, that is `len - 1` moves after the setup. */
  lemma {:induction false} ReplayMoveCount(ps: seq<RobotState>, maxSpeed: real, norm: (real, real, real) -> real)
    requires DistinctTimes(ps)
    ensures CountWhere(ReplayMoves(ps, maxSpeed, norm), IsMove) == if |ps| < 2 then 0 else |ps| - 1
    decreases |ps|
  {
    if |ps| >= 2 {
      var init := ps[..|ps| - 1];
      var prev, next := ps[|ps| - 2], ps[|ps| - 1];
      ReplayMoveCount(init, maxSpeed, norm);
      var pair := PairCommands(prev, next, maxSpeed, norm);
      CountWhereAppend(ReplayMoves(init, maxSpeed, norm), pair, IsMove);
      assert pair[..|pair| - 1] == [ReplayMove(prev, next, maxSpeed, norm)] || pair == [ReplayMove(prev, next, maxSpeed, norm)];
      CountWhereAppend([ReplayMove(prev, next, maxSpeed, norm)], pair[1..], IsMove);
      assert [ReplayMove(prev, next, maxSpeed, norm)] + pair[1..] == pair;
      CountWhereNone(pair[1..], IsMove);
      assert [ReplayMove(prev, next, maxSpeed, norm)][..0] == [];
    }
  }

  /** Every replay move runs at a speed no higher than `max_speed`. */
  lemma {:induction false} ReplaySpeedBounded(ps: seq<RobotState>, maxSpeed: real, norm: (real, real, real) -> real)
    requires DistinctTimes(ps)
    ensures forall i :: 0 <= i < |ReplayMoves(ps, maxSpeed, norm)| && ReplayMoves(ps, maxSpeed, norm)[i].SetPosition? ==>
      ReplayMoves(ps, maxSpeed, norm)[i].speed <= maxSpeed
    decreases |ps|
  {
    if |ps| >= 2 {
      var init := ps[..|ps| - 1];
      ReplaySpeedBounded(init, maxSpeed, norm);
      var before := ReplayMoves(init, maxSpeed, norm);
      var pair := PairCommands(ps[|ps| - 2], ps[|ps| - 1], maxSpeed, norm);
      var cmds := ReplayMoves(ps, maxSpeed, norm);
      assert cmds == before + pair;
      forall i | 0 <= i < |cmds| && cmds[i].SetPosition? ensures cmds[i].speed <= maxSpeed {
        if i < |before| {
          assert cmds[i] == before[i];
        } else {
          assert cmds[i] == pair[i - |before|];
        }
      }
    }
  }

  /** Pump commands in a replay set exactly the value of a sample whose pump differs from its predecessor. */
  lemma {:induction false} ReplayPumpOnlyOnChange(ps: seq<RobotState>, maxSpeed: real, norm: (real, real, real) -> real)
    requires DistinctTimes(ps)
    ensures forall i :: 0 <= i < |ReplayMoves(ps, maxSpeed, norm)| && ReplayMoves(ps, maxSpeed, norm)[i].SetPump? ==>
      && i > 0
      && ReplayMoves(ps, maxSpeed, norm)[i - 1].SetPosition?
      && exists j :: 0 < j < |ps| && ps[j].pump != ps[j - 1].pump && ReplayMoves(ps, maxSpeed, norm)[i].on == ps[j].pump
    decreases |ps|
  {
    if |ps| >= 2 {
      var init := ps[..|ps| - 1];
      ReplayPumpOnlyOnChange(init, maxSpeed, norm);
      var cmds := ReplayMoves(ps, maxSpeed, norm);
      var before := ReplayMoves(init, maxSpeed, norm);
      var n := |ps| - 1;
      var pair := PairCommands(ps[n - 1], ps[n], maxSpeed, norm);
      assert cmds == before + pair;
      forall i | 0 <= i < |cmds| && cmds[i].SetPump?
        ensures i > 0 && cmds[i - 1].SetPosition?
        ensures exists j :: 0 < j < |ps| && ps[j].pump != ps[j - 1].pump && cmds[i].on == ps[j].pump
      {
        if i < |before| {
          assert cmds[i] == before[i] && before[i].SetPump?;
          assert cmds[i - 1] == before[i - 1];
          ChangeInPrefix(before[i].on, init, ps);
        } else {
          assert cmds[i] == pair[i - |before|];
          assert i == |before| + 1 && ps[n].pump != ps[n - 1].pump && cmds[i].on == ps[n].pump;
          assert cmds[i - 1] == pair[0];
        }
      }
    }
  }

  /** A pump change between consecutive samples of a prefix is one of the whole sequence. */
  lemma ChangeInPrefix(on: bool, init: seq<RobotState>, ps: seq<RobotState>)
    requires |init| <= |ps| && init == ps[..|init|]
    requires exists j :: 0 < j < |init| && init[j].pump != init[j - 1].pump && on == init[j].pump
    ensures exists j :: 0 < j < |ps| && ps[j].pump != ps[j - 1].pump && on == ps[j].pump
  {
    var j :| 0 < j < |init| && init[j].pump != init[j - 1].pump && on == init[j].pump;
    assert ps[j] == init[j] && ps[j - 1] == init[j - 1];
  }

  // ---------------------------------------------------------------------
  // Pump tracking during replay

  /** Some consecutive pair of samples changes the pump. */
  predicate PumpChanges(ps: seq<RobotState>)
  {
    exists j :: 0 < j < |ps| && ps[j].pump != ps[j - 1].pump
  }

  /** After the pair moves of `ps`, the pump is as the last changing sample left it, or as it was. */
  lemma {:induction false} ReplayMovesPump(ps: seq<RobotState>, maxSpeed: real, norm: (real, real, real) -> real, before: bool)
    requires DistinctTimes(ps)
    requires |ps| > 0
    ensures PumpAfter(ReplayMoves(ps, maxSpeed, norm), before)
         == if PumpChanges(ps) then ps[|ps| - 1].pump else before
    ensures !PumpChanges(ps) ==> forall j :: 0 <= j < |ps| ==> ps[j].pump == ps[0].pump
    decreases |ps|
  {
    if |ps| >= 2 {
      var init := ps[..|ps| - 1];
      var prev, next := ps[|ps| - 2], ps[|ps| - 1];
      ReplayMovesPump(init, maxSpeed, norm, before);
      PumpAfterAppend(ReplayMoves(init, maxSpeed, norm), PairCommands(prev, next, maxSpeed, norm), before);
      PairCommandsPump(prev, next, maxSpeed, norm, PumpAfter(ReplayMoves(init, maxSpeed, norm), before));
      PumpChangesSnoc(ps);
      assert init[|init| - 1] == prev;
      if !PumpChanges(ps) {
        forall j | 0 <= j < |ps| ensures ps[j].pump == ps[0].pump {
          if j < |init| {
            assert ps[j] == init[j];
          }
        }
      }
    } else {
      assert !PumpChanges(ps);
    }
  }

  lemma PairCommandsPump(prev: RobotState, next: RobotState, maxSpeed: real, norm: (real, real, real) -> real, before: bool)
    requires next.time != prev.time
    ensures PumpAfter(PairCommands(prev, next, maxSpeed, norm), before)
         == if prev.pump != next.pump then next.pump else before
  {
    var move := [ReplayMove(prev, next, maxSpeed, norm)];
    assert move[..0] == [];
    if prev.pump == next.pump {
      assert PairCommands(prev, next, maxSpeed, norm) == move;
    }
  }

  lemma PumpChangesSnoc(ps: seq<RobotState>)
    requires |ps| >= 2
    ensures PumpChanges(ps) <==> PumpChanges(ps[..|ps| - 1]) || ps[|ps| - 2].pump != ps[|ps| - 1].pump
  {
    var init := ps[..|ps| - 1];
    if PumpChanges(ps) && ps[|ps| - 2].pump == ps[|ps| - 1].pump {
      var j :| 0 < j < |ps| && ps[j].pump != ps[j - 1].pump;
      assert init[j] == ps[j] && init[j - 1] == ps[j - 1];
    }
    if PumpChanges(init) {
      var j :| 0 < j < |init| && init[j].pump != init[j - 1].pump;
      assert init[j] == ps[j] && init[j - 1] == ps[j - 1];
    }
  }

  /**
   * As written, the pump after a replay matches the last sample except when
   * no pair changes the pump: then it stays off, whatever the samples say.
   */
  lemma PlayFinalPump(ps: seq<RobotState>, maxSpeed: real, norm: (real, real, real) -> real)
    requires |ps| > 0
    requires DistinctTimes(ps)
    ensures PumpAfter(PlayScript(ps, maxSpeed, norm), true)
         == if PumpChanges(ps) then ps[|ps| - 1].pump else false
  {
    PumpAfterAppend(PlaySetup(ps[0]), ReplayMoves(ps, maxSpeed, norm), true);
    ReplayMovesPump(ps, maxSpeed, norm, false);
  }

  /** The samples a recording of two prompts at distinct poses stores when the switch is pressed at the first prompt. */
  function HeldPumpTrace(): (trace: seq<RobotState>)
  {
    [RobotState(0.0, 0.0, 0.0, true, 0.0), RobotState(10.0, 0.0, 0.0, true, 1.0)]
  }

  /** The switch pressed at the first of two prompts at distinct poses records `HeldPumpTrace`. */
  lemma HeldPumpTraceRecorded(startTime: real)
    ensures var r0 := Reading("", 0.0, 0.0, 0.0, true, startTime);
      var r1 := Reading("", 10.0, 0.0, 0.0, false, startTime + 1.0);
      Recorded([r0, r1], startTime, false, None) == HeldPumpTrace()
  {
    var r0 := Reading("", 0.0, 0.0, 0.0, true, startTime);
    var r1 := Reading("", 10.0, 0.0, 0.0, false, startTime + 1.0);
    var rs := [r0, r1];
    var s0 := Sample(r0, true, startTime);
    assert rs[1..] == [r1] && rs[1..][1..] == [];
    RecordStep(rs, startTime, false, None);
    RecordStep(rs[1..], startTime, true, Some(s0));
    SameStateIff(s0, Sample(r1, true, startTime));
  }

  /** A trace whose pump is on throughout is replayed with the pump off. */
  lemma ReplayDropsInitialPump(maxSpeed: real, norm: (real, real, real) -> real)
    ensures DistinctTimes(HeldPumpTrace())
    ensures !PumpAfter(PlayScript(HeldPumpTrace(), maxSpeed, norm), true)
    ensures HeldPumpTrace()[1].pump
  {
    PlayFinalPump(HeldPumpTrace(), maxSpeed, norm);
    assert !PumpChanges(HeldPumpTrace());
  }

  /** A trace at height z = 100 with y = 0 is replayed at height 0. */
  lemma ReplayIgnoresZ(maxSpeed: real, norm: (real, real, real) -> real)
    ensures var ps := [RobotState(0.0, 0.0, 100.0, false, 0.0), RobotState(10.0, 0.0, 100.0, false, 1.0)];
      && DistinctTimes(ps)
      && PlayScript(ps, maxSpeed, norm)[2].z == Some(0.0)
      && ps[1].z == 100.0
  {
  }

  // Intended replay: the arm reaches every sample's own height, and the
  // pump starts as the first sample has it.

  function IntendedMove(prev: RobotState, next: RobotState, maxSpeed: real, norm: (real, real, real) -> real): (c: Command)
    requires next.time != prev.time
    ensures c.SetPosition? && !c.relative && c.wait && c.speed <= maxSpeed
    ensures c.x == Some(Trunc(next.x) as real) && c.y == Some(Trunc(next.y) as real)
    ensures c.z == Some(Trunc(next.z) as real)
  {
    var speed := ReplaySpeed(Distance(prev, next, norm) / (next.time - prev.time), maxSpeed);
    SetPosition(Some(Trunc(next.x) as real), Some(Trunc(next.y) as real), Some(Trunc(next.z) as real), speed, false, true)
  }

  function IntendedMoves(ps: seq<RobotState>, maxSpeed: real, norm: (real, real, real) -> real): (cmds: seq<Command>)
    requires DistinctTimes(ps)
    decreases |ps|
  {
    if |ps| < 2 then []
    else
      var prev, next := ps[|ps| - 2], ps[|ps| - 1];
      IntendedMoves(ps[..|ps| - 1], maxSpeed, norm)
      + [IntendedMove(prev, next, maxSpeed, norm)]
      + (if prev.pump != next.pump then [SetPump(next.pump)] else [])
  }

  function IntendedPlayScript(ps: seq<RobotState>, maxSpeed: real, norm: (real, real, real) -> real): (cmds: seq<Command>)
    requires |ps| > 0
    requires DistinctTimes(ps)
  {
    [SetPosition(Some(ps[0].x), Some(ps[0].y), Some(ps[0].z), 100.0, false, true), SetPump(ps[0].pump)]
    + IntendedMoves(ps, maxSpeed, norm)
  }

  /** After the corrected replay the pump is as the last sample has it, whatever pump state the arm started in. */
  lemma {:induction false} IntendedReplayTracksPump(ps: seq<RobotState>, maxSpeed: real, norm: (real, real, real) -> real, before: bool)
    requires |ps| > 0
    requires DistinctTimes(ps)
    ensures PumpAfter(IntendedPlayScript(ps, maxSpeed, norm), before) == ps[|ps| - 1].pump
    decreases |ps|
  {
    var setup := [SetPosition(Some(ps[0].x), Some(ps[0].y), Some(ps[0].z), 100.0, false, true), SetPump(ps[0].pump)];
    PumpAfterAppend(setup, IntendedMoves(ps, maxSpeed, norm), before);
    IntendedMovesPump(ps, maxSpeed, norm);
  }

  lemma {:induction false} IntendedMovesPump(ps: seq<RobotState>, maxSpeed: real, norm: (real, real, real) -> real)
    requires |ps| > 0
    requires DistinctTimes(ps)
    ensures PumpAfter(IntendedMoves(ps, maxSpeed, norm), ps[0].pump) == ps[|ps| - 1].pump
    decreases |ps|
  {
    if |ps| >= 2 {
      var init := ps[..|ps| - 1];
      var prev, next := ps[|ps| - 2], ps[|ps| - 1];
      IntendedMovesPump(init, maxSpeed, norm);
      var tail := [IntendedMove(prev, next, maxSpeed, norm)] + (if prev.pump != next.pump then [SetPump(next.pump)] else []);
      assert IntendedMoves(ps, maxSpeed, norm) == IntendedMoves(init, maxSpeed, norm) + tail;
      PumpAfterAppend(IntendedMoves(init, maxSpeed, norm), tail, ps[0].pump);
      assert init[0] == ps[0] && init[|init| - 1] == prev;
      if prev.pump == next.pump {
        assert tail[..0] == [];
      }
    }
  }

  /** Every move of the corrected replay targets the truncated coordinates of its own sample. */
  lemma {:induction false} IntendedReplayReachesSamples(ps: seq<RobotState>, maxSpeed: real, norm: (real, real, real) -> real)
    requires DistinctTimes(ps)
    ensures forall i :: 0 <= i < |IntendedMoves(ps, maxSpeed, norm)| && IntendedMoves(ps, maxSpeed, norm)[i].SetPosition? ==>
      exists j :: && 0 < j < |ps|
                  && IntendedMoves(ps, maxSpeed, norm)[i] == IntendedMove(ps[j - 1], ps[j], maxSpeed, norm)
                  && IntendedMoves(ps, maxSpeed, norm)[i].x == Some(Trunc(ps[j].x) as real)
                  && IntendedMoves(ps, maxSpeed, norm)[i].y == Some(Trunc(ps[j].y) as real)
                  && IntendedMoves(ps, maxSpeed, norm)[i].z == Some(Trunc(ps[j].z) as real)
    decreases |ps|
  {
    if |ps| >= 2 {
      var init := ps[..|ps| - 1];
      IntendedReplayReachesSamples(init, maxSpeed, norm);
      var cmds := IntendedMoves(ps, maxSpeed, norm);
      var before := IntendedMoves(init, maxSpeed, norm);
      var n := |ps| - 1;
      var move := IntendedMove(ps[n - 1], ps[n], maxSpeed, norm);
      var pump: seq<Command> := if ps[n - 1].pump != ps[n].pump then [SetPump(ps[n].pump)] else [];
      assert cmds == before + [move] + pump;
      forall i | 0 <= i < |cmds| && cmds[i].SetPosition?
        ensures exists j :: && 0 < j < |ps|
                            && cmds[i] == IntendedMove(ps[j - 1], ps[j], maxSpeed, norm)
                            && cmds[i].x == Some(Trunc(ps[j].x) as real)
                            && cmds[i].y == Some(Trunc(ps[j].y) as real)
                            && cmds[i].z == Some(Trunc(ps[j].z) as real)
      {
        if i < |before| {
          assert cmds[i] == before[i] && before[i].SetPosition?;
          var j :| 0 < j < |init| && before[i] == IntendedMove(init[j - 1], init[j], maxSpeed, norm);
          assert ps[j] == init[j] && ps[j - 1] == init[j - 1];
        } else {
          assert i == |before| && cmds[i] == move;
        }
      }
    }
  }

  // ---------------------------------------------------------------------
  // The recording object

  /** `RobotRecording`: a list of states and the arm they were recorded on and are replayed with. */
  class RobotRecording {
    var positions: seq<RobotState>
    const bot: Bot

    constructor (bot: Bot, positions: seq<RobotState>)
      ensures this.bot == bot && this.positions == positions
    {
      this.bot := bot;
      this.positions := positions;
    }

    /** `_add_state`. */
    method AddState(s: RobotState)
      modifies this
      ensures positions == old(positions) + [s]
    {
      positions := positions + [s];
    }

    /**
     * `create`: one prompt per reading until the line "q"; `finished` says
     * whether a "q" was read (otherwise the loop is still waiting for input).
     */
    static method Create(bot: Bot, readings: seq<Reading>, startTime: real)
      returns (rec: RobotRecording, finished: bool)
      modifies bot
      ensures fresh(rec) && rec.bot == bot
      ensures rec.positions == Recorded(readings, startTime, false, None)
      ensures bot.log == old(bot.log) + RecordScript(readings)
      ensures finished <==> QuitIndex(readings) < |readings|
    {
      rec := new RobotRecording(bot, []);
      bot.Issue(SetPump(false));
      var pump := false;
      var last: Option<RobotState> := None;
      var i := 0;
      while i < |readings| && readings[i].line != "q"
        invariant 0 <= i <= |readings|
        invariant forall j :: 0 <= j < i ==> readings[j].line != "q"
        invariant rec.bot == bot
        invariant rec.positions + Recorded(readings[i..], startTime, pump, last)
               == Recorded(readings, startTime, false, None)
        invariant bot.log + PumpCommands(readings[i..], pump) == old(bot.log) + RecordScript(readings)
      {
        var r := readings[i];
        ghost var stored, issued := rec.positions, bot.log;
        ghost var rest := readings[i..];
        assert rest[0] == r && rest[1..] == readings[i + 1..];
        ghost var p := Toggled(r, pump);
        ghost var s := Sample(r, p, startTime);
        ghost var dup := last.Some? && SameState(last.value, s);
        ghost var last' := if dup then last else Some(s);
        ghost var added := if dup then [] else [s];
        ghost var pressed := if r.limitSwitch then [SetPump(p)] else [];
        RecordStep(rest, startTime, pump, last);
        if r.limitSwitch {
          pump := !pump;
          bot.Issue(SetPump(pump));
        }
        var state := RobotState(r.x, r.y, r.z, pump, r.clock - startTime);
        if !(last.Some? && SameState(last.value, state)) {
          last := Some(state);
          rec.AddState(state);
        }
        i := i + 1;
        assert rec.positions == stored + added && last == last' && pump == p;
        ConcatAssoc(stored, added, Recorded(readings[i..], startTime, p, last'));
        assert bot.log == issued + pressed;
        ConcatAssoc(issued, pressed, PumpCommands(readings[i..], p));
      }
      assert i == QuitIndex(readings) by {
        QuitIndexUnique(readings, i);
      }
      finished := i < |readings|;
    }

    /** `play`: move to the first state, pump off, then one move per consecutive pair. */
    method Play(maxSpeed: real, norm: (real, real, real) -> real)
      requires |positions| > 0
      requires DistinctTimes(positions)
      modifies bot
      ensures bot.log == old(bot.log) + PlayScript(positions, maxSpeed, norm)
    {
      IssuePlaySetup(bot, positions[0]);
      ReplayAll(bot, positions, maxSpeed, norm);
    }
  }

  /** The start of `play`: move to the first sample at speed 100, then switch the pump off. */
  method IssuePlaySetup(bot: Bot, first: RobotState)
    modifies bot
    ensures bot.log == old(bot.log) + PlaySetup(first)
  {
    bot.Issue(SetPosition(Some(first.x), Some(first.y), Some(first.z), 100.0, false, true));
    bot.Issue(SetPump(false));
  }

  /** The loop of `play`: one pass per consecutive pair of samples, in order. */
  method ReplayAll(bot: Bot, ps: seq<RobotState>, maxSpeed: real, norm: (real, real, real) -> real)
    requires |ps| > 0
    requires DistinctTimes(ps)
    modifies bot
    ensures bot.log == old(bot.log) + ReplayMoves(ps, maxSpeed, norm)
  {
    ghost var start := bot.log;
    var last := ps[0];
    var i := 1;
    assert ps[..1] == [ps[0]];
    while i < |ps|
      invariant 1 <= i <= |ps|
      invariant last == ps[i - 1]
      invariant DistinctTimes(ps[..i])
      invariant bot.log == start + ReplayMoves(ps[..i], maxSpeed, norm)
    {
      var next := ps[i];
      ReplayPair(bot, last, next, maxSpeed, norm);
      PlayStep(start, ps, i, maxSpeed, norm);
      last := next;
      i := i + 1;
    }
    assert ps[..i] == ps;
  }

  /** What one pass of the loop in `play` adds to the commands issued so far. */
  lemma PlayStep(issued: seq<Command>, ps: seq<RobotState>, i: nat, maxSpeed: real, norm: (real, real, real) -> real)
    requires 1 <= i < |ps|
    requires DistinctTimes(ps)
    ensures DistinctTimes(ps[..i]) && DistinctTimes(ps[..i + 1])
    ensures issued + ReplayMoves(ps[..i + 1], maxSpeed, norm)
         == issued + ReplayMoves(ps[..i], maxSpeed, norm) + PairCommands(ps[i - 1], ps[i], maxSpeed, norm)
  {
    ReplayMovesSnoc(ps, i, maxSpeed, norm);
    ConcatAssoc(issued, ReplayMoves(ps[..i], maxSpeed, norm), PairCommands(ps[i - 1], ps[i], maxSpeed, norm));
  }

  /** One pass of the loop in `play`: the move to `next`, then the pump command if the pump state differs. */
  method ReplayPair(bot: Bot, last: RobotState, next: RobotState, maxSpeed: real, norm: (real, real, real) -> real)
    requires next.time != last.time
    modifies bot
    ensures bot.log == old(bot.log) + PairCommands(last, next, maxSpeed, norm)
  {
    var distance := Distance(last, next, norm);
    var duration := next.time - last.time;
    var speed := ReplaySpeed(distance / duration, maxSpeed);
    bot.Issue(SetPosition(Some(Trunc(next.x) as real), Some(Trunc(next.y) as real), Some(Trunc(next.y) as real), speed, false, true));
    if last.pump != next.pump {
      bot.Issue(SetPump(next.pump));
    }
  }

  lemma QuitIndexUnique(rs: seq<Reading>, i: nat)
    requires i <= |rs|
    requires forall j :: 0 <= j < i ==> rs[j].line != "q"
    requires i == |rs| || rs[i].line == "q"
    ensures i == QuitIndex(rs)
  {
  }
}
