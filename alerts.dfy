/** The alert engine `check_alerts` (mailer.py:53-86) and the subject that
    `send_mail` picks for a batch of alerts (mailer.py:93-98). */
module Alerts {
  import opened Wrappers
  import opened Text
  import opened Telemetry

  // ALERT_THRESHOLDS (mailer.py:27-36)
  const GAS_LIMIT: real := 300.0
  const SOUND_LIMIT: real := 500.0
  const WATER_LIMIT: real := 300.0
  const TEMP_HIGH: real := 35.0
  const TEMP_LOW: real := 10.0
  const HUMIDITY_HIGH: real := 80.0
  const HUMIDITY_LOW: real := 20.0

  /** One triggered alert, carrying the value that triggered it. */
  datatype Alert =
    | HighGas(value: real)
    | HighSound(value: real)
    | HighWater(value: real)
    | Vibration
    | HighTemp(value: real)
    | LowTemp(value: real)
    | HighHumidity(value: real)
    | LowHumidity(value: real)
    | Motion

  /** The fixed text that starts each alert message; the rest of the message is
      the rendered value (digits) and a unit. */
  function Label(a: Alert): string
  {
    match a
    case HighGas(_) => "HIGH GAS"
    case HighSound(_) => "HIGH SOUND"
    case HighWater(_) => "HIGH WATER"
    case Vibration => "VIBRATION DETECTED"
    case HighTemp(_) => "HIGH TEMP"
    case LowTemp(_) => "LOW TEMP"
    case HighHumidity(_) => "HIGH HUMIDITY"
    case LowHumidity(_) => "LOW HUMIDITY"
    case Motion => "MOTION DETECTED"
  }

  /** The position of each check in `check_alerts`; the two branches of the
      temperature check share one, and so do those of humidity. */
  function Rank(a: Alert): (r: nat)
    ensures r < 7
  {
    match a
    case HighGas(_) => 0
    case HighSound(_) => 1
    case HighWater(_) => 2
    case Vibration => 3
    case HighTemp(_) => 4
    case LowTemp(_) => 4
    case HighHumidity(_) => 5
    case LowHumidity(_) => 5
    case Motion => 6
  }

  /** The alerts are in check order, at most one per check. */
  predicate InCheckOrder(alerts: seq<Alert>)
  {
    forall i, j :: 0 <= i < j < |alerts| ==> Rank(alerts[i]) < Rank(alerts[j])
  }

  /** `payload.get(key, 0) > limit` for a field that is not `null`: a missing
      key compares as 0 and never exceeds a positive limit. */
  function Above(p: Payload, key: string, limit: real): (r: Option<real>)
    requires limit > 0.0
    ensures forall x :: r == Some(x) <==> Get(p, key) == Some(Num(x)) && x > limit
  {
    match Get(p, key)
    case Some(Num(x)) => if x > limit then Some(x) else None
    case _ => None
  }

  /** `payload.get(key, 0) == 1`: a level check, true for every sample while the
      input is set; `None == 1` is simply false. */
  predicate IsSet(p: Payload, key: string)
  {
    Get(p, key) == Some(Num(1.0))
  }

  /** The high/low check of an optional channel: mutually exclusive branches,
      and no data gives no alert. */
  function Band(v: Option<real>, high: real, low: real, isTemp: bool): seq<Alert>
  {
    match v
    case None => []
    case Some(x) =>
      if x > high then [if isTemp then HighTemp(x) else HighHumidity(x)]
      else if x < low then [if isTemp then LowTemp(x) else LowHumidity(x)]
      else []
  }

  /** What check number `k` of `check_alerts` appends (mailer.py:57-84). */
  function Check(p: Payload, k: nat): (r: seq<Alert>)
    requires k < 7
    ensures |r| <= 1
    ensures forall a :: a in r ==> Rank(a) == k
  {
    match k
    case 0 => (var g := Above(p, "gas", GAS_LIMIT); if g.Some? then [HighGas(g.value)] else [])
    case 1 => (var s := Above(p, "sound", SOUND_LIMIT); if s.Some? then [HighSound(s.value)] else [])
    case 2 => (var w := Above(p, "water", WATER_LIMIT); if w.Some? then [HighWater(w.value)] else [])
    case 3 => if IsSet(p, "vibration") then [Vibration] else []
    case 4 => Band(Optional(p, "temp"), TEMP_HIGH, TEMP_LOW, true)
    case 5 => Band(Optional(p, "humidity"), HUMIDITY_HIGH, HUMIDITY_LOW, false)
    case 6 => if IsSet(p, "motion") then [Motion] else []
  }

  /** `check_alerts(payload)`: the seven checks in order. The comparisons of
      gas, sound and water raise `TypeError` when the field is `null`; that is
      the `Failure`, naming the first such field. `payload.get('temp')` is
      `None` for a missing key and for `null` alike, so those skip their check. */
  function CheckAlerts(p: Payload): (r: Result<seq<Alert>, string>)
    ensures r.Failure? <==>
              Get(p, "gas") == Some(Null) || Get(p, "sound") == Some(Null) || Get(p, "water") == Some(Null)
  {
    if Get(p, "gas") == Some(Null) then Failure("gas")
    else if Get(p, "sound") == Some(Null) then Failure("sound")
    else if Get(p, "water") == Some(Null) then Failure("water")
    else Success(Check(p, 0) + Check(p, 1) + Check(p, 2) + Check(p, 3) + Check(p, 4) + Check(p, 5) + Check(p, 6))
  }

  /** Every alert of the list comes from the check of its own rank. */
  lemma {:induction false} FromOwnCheck(p: Payload, a: Alert)
    requires CheckAlerts(p).Success?
    ensures a in CheckAlerts(p).value <==> a in Check(p, Rank(a))
  {
    var r := CheckAlerts(p).value;
    assert r == Check(p, 0) + Check(p, 1) + Check(p, 2) + Check(p, 3) + Check(p, 4) + Check(p, 5) + Check(p, 6);
    if a in r {
      var k :| 0 <= k < 7 && a in Check(p, k);
    }
  }

  /** Gas, sound and water use strict thresholds: an alert carrying value `x`
      is raised exactly when the field holds `x` and `x` is above the limit, so
      a value equal to the limit raises nothing. */
  lemma ThresholdAlerts(p: Payload, x: real)
    requires CheckAlerts(p).Success?
    ensures HighGas(x) in CheckAlerts(p).value <==> Get(p, "gas") == Some(Num(x)) && x > GAS_LIMIT
    ensures HighSound(x) in CheckAlerts(p).value <==> Get(p, "sound") == Some(Num(x)) && x > SOUND_LIMIT
    ensures HighWater(x) in CheckAlerts(p).value <==> Get(p, "water") == Some(Num(x)) && x > WATER_LIMIT
  {
    FromOwnCheck(p, HighGas(x));
    FromOwnCheck(p, HighSound(x));
    FromOwnCheck(p, HighWater(x));
  }

  /** Vibration and motion are level checks on the current sample. */
  lemma LevelAlerts(p: Payload)
    requires CheckAlerts(p).Success?
    ensures Vibration in CheckAlerts(p).value <==> IsSet(p, "vibration")
    ensures Motion in CheckAlerts(p).value <==> IsSet(p, "motion")
  {
    FromOwnCheck(p, Vibration);
    FromOwnCheck(p, Motion);
  }

  /** Temperature raises HIGH TEMP above 35 and LOW TEMP below 10, and
      nothing without data. */
  lemma TempAlerts(p: Payload, x: real)
    requires CheckAlerts(p).Success?
    ensures HighTemp(x) in CheckAlerts(p).value <==> Optional(p, "temp") == Some(x) && x > TEMP_HIGH
    ensures LowTemp(x) in CheckAlerts(p).value <==> Optional(p, "temp") == Some(x) && x < TEMP_LOW
  {
    FromOwnCheck(p, HighTemp(x));
    FromOwnCheck(p, LowTemp(x));
  }

  /** Humidity raises HIGH HUMIDITY above 80 and LOW HUMIDITY below 20, and
      nothing without data. */
  lemma HumidityAlerts(p: Payload, x: real)
    requires CheckAlerts(p).Success?
    ensures HighHumidity(x) in CheckAlerts(p).value <==> Optional(p, "humidity") == Some(x) && x > HUMIDITY_HIGH
    ensures LowHumidity(x) in CheckAlerts(p).value <==> Optional(p, "humidity") == Some(x) && x < HUMIDITY_LOW
  {
    FromOwnCheck(p, HighHumidity(x));
    FromOwnCheck(p, LowHumidity(x));
  }

  /** Appending the output of check `k` to alerts of earlier checks keeps them
      in check order. */
  lemma ExtendInOrder(s: seq<Alert>, c: seq<Alert>, k: nat)
    requires InCheckOrder(s) && forall a :: a in s ==> Rank(a) < k
    requires |c| <= 1 && forall a :: a in c ==> Rank(a) == k
    ensures InCheckOrder(s + c) && forall a :: a in s + c ==> Rank(a) <= k
  {
    var t := s + c;
    forall i, j | 0 <= i < j < |t| ensures Rank(t[i]) < Rank(t[j]) {
      if j >= |s| {
        assert t[j] in c && t[i] in s;
      } else {
        assert t[i] == s[i] && t[j] == s[j];
      }
    }
  }

  /** Alerts come out in the fixed order gas, sound, water, vibration,
      temperature, humidity, motion, at most one per check. */
  lemma AlertsInCheckOrder(p: Payload)
    requires CheckAlerts(p).Success?
    ensures InCheckOrder(CheckAlerts(p).value)
  {
    var s := Check(p, 0);
    ExtendInOrder([], s, 0);
    ExtendInOrder(s, Check(p, 1), 1);
    s := s + Check(p, 1);
    ExtendInOrder(s, Check(p, 2), 2);
    s := s + Check(p, 2);
    ExtendInOrder(s, Check(p, 3), 3);
    s := s + Check(p, 3);
    ExtendInOrder(s, Check(p, 4), 4);
    s := s + Check(p, 4);
    ExtendInOrder(s, Check(p, 5), 5);
    s := s + Check(p, 5);
    ExtendInOrder(s, Check(p, 6), 6);
    s := s + Check(p, 6);
    assert s == CheckAlerts(p).value;
  }

  /** A list in check order holds at most one alert per check, so at most seven. */
  lemma {:induction false} CheckOrderBound(alerts: seq<Alert>, lo: nat)
    requires InCheckOrder(alerts)
    requires lo <= 7
    requires forall i :: 0 <= i < |alerts| ==> lo <= Rank(alerts[i])
    ensures |alerts| + lo <= 7
  {
    if alerts != [] {
      var rest := alerts[1..];
      assert InCheckOrder(rest) by {
        forall i, j | 0 <= i < j < |rest| ensures Rank(rest[i]) < Rank(rest[j]) {
          assert rest[i] == alerts[i + 1] && rest[j] == alerts[j + 1];
        }
      }
      forall i | 0 <= i < |rest| ensures lo + 1 <= Rank(rest[i]) {
        assert rest[i] == alerts[i + 1];
        assert Rank(alerts[0]) < Rank(alerts[i + 1]);
      }
      CheckOrderBound(rest, lo + 1);
    }
  }

  /** At most one of HIGH TEMP and LOW TEMP (and of the two humidity alerts),
      and at most seven alerts in all. */
  lemma AlertsBounded(p: Payload)
    requires CheckAlerts(p).Success?
    ensures |CheckAlerts(p).value| <= 7
    ensures forall x, y :: !(HighTemp(x) in CheckAlerts(p).value && LowTemp(y) in CheckAlerts(p).value)
    ensures forall x, y :: !(HighHumidity(x) in CheckAlerts(p).value && LowHumidity(y) in CheckAlerts(p).value)
  {
    AlertsInCheckOrder(p);
    CheckOrderBound(CheckAlerts(p).value, 0);
    forall x, y ensures !(HighTemp(x) in CheckAlerts(p).value && LowTemp(y) in CheckAlerts(p).value) {
      TempAlerts(p, x);
      TempAlerts(p, y);
    }
    forall x, y ensures !(HighHumidity(x) in CheckAlerts(p).value && LowHumidity(y) in CheckAlerts(p).value) {
      HumidityAlerts(p, x);
      HumidityAlerts(p, y);
    }
  }

  /** Gas 350 raises HIGH GAS carrying 350; gas 300 raises nothing. */
  lemma GasScenario()
    ensures CheckAlerts(map["gas" := Num(350.0), "sound" := Num(0.0), "water" := Num(0.0)]) == Success([HighGas(350.0)])
    ensures CheckAlerts(map["gas" := Num(300.0), "sound" := Num(0.0), "water" := Num(0.0)]) == Success([])
  {
    var p := map["gas" := Num(350.0), "sound" := Num(0.0), "water" := Num(0.0)];
    assert Get(p, "gas") == Some(Num(350.0));
    assert Get(p, "sound") == Some(Num(0.0)) && Get(p, "water") == Some(Num(0.0));
    assert Get(p, "vibration") == None && Get(p, "motion") == None;
    assert Get(p, "temp") == None && Get(p, "humidity") == None;
    assert Check(p, 0) == [HighGas(350.0)];
    assert Check(p, 1) == [] && Check(p, 2) == [] && Check(p, 3) == [];
    assert Check(p, 4) == [] && Check(p, 5) == [] && Check(p, 6) == [];
    assert CheckAlerts(p).value == [HighGas(350.0)];
    var q := map["gas" := Num(300.0), "sound" := Num(0.0), "water" := Num(0.0)];
    assert Get(q, "gas") == Some(Num(300.0));
    assert Get(q, "sound") == Some(Num(0.0)) && Get(q, "water") == Some(Num(0.0));
    assert Get(q, "vibration") == None && Get(q, "motion") == None;
    assert Get(q, "temp") == None && Get(q, "humidity") == None;
    assert Check(q, 0) == [] && Check(q, 1) == [] && Check(q, 2) == [] && Check(q, 3) == [];
    assert Check(q, 4) == [] && Check(q, 5) == [] && Check(q, 6) == [];
    assert CheckAlerts(q).value == [];
  }

  /** Vibration with nominal other channels raises exactly one alert;
      temperature 5 without humidity raises LOW TEMP only. */
  lemma LevelScenario()
    ensures CheckAlerts(map["gas" := Num(10.0), "vibration" := Num(1.0)]) == Success([Vibration])
    ensures CheckAlerts(map["temp" := Num(5.0)]) == Success([LowTemp(5.0)])
  {
    var p := map["gas" := Num(10.0), "vibration" := Num(1.0)];
    assert Get(p, "gas") == Some(Num(10.0)) && Get(p, "vibration") == Some(Num(1.0));
    assert Get(p, "sound") == None && Get(p, "water") == None && Get(p, "motion") == None;
    assert Get(p, "temp") == None && Get(p, "humidity") == None;
    assert Check(p, 0) == [] && Check(p, 1) == [] && Check(p, 2) == [] && Check(p, 3) == [Vibration];
    assert Check(p, 4) == [] && Check(p, 5) == [] && Check(p, 6) == [];
    assert CheckAlerts(p).value == [Vibration];
    var q := map["temp" := Num(5.0)];
    assert Get(q, "temp") == Some(Num(5.0));
    assert Get(q, "gas") == None && Get(q, "sound") == None && Get(q, "water") == None;
    assert Get(q, "vibration") == None && Get(q, "motion") == None && Get(q, "humidity") == None;
    assert Check(q, 0) == [] && Check(q, 1) == [] && Check(q, 2) == [] && Check(q, 3) == [];
    assert Check(q, 4) == [LowTemp(5.0)] && Check(q, 5) == [] && Check(q, 6) == [];
    assert CheckAlerts(q).value == [LowTemp(5.0)];
  }

  /** The three subjects of an alert mail. */
  datatype Severity = Critical | Warning | Plain

  function Subject(s: Severity): string
  {
    match s
    case Critical => "CRITICAL ALERT - Multiple Sensors Triggered!"
    case Warning => "WARNING - Sensor Thresholds Exceeded!"
    case Plain => "Sensor Alert"
  }

  /** The first test of `send_mail`: GAS or VIBRATION in the alert text. */
  predicate CriticalText(t: string)
  {
    Contains(t, "GAS") || Contains(t, "VIBRATION")
  }

  /** The second test of `send_mail`: SOUND or WATER in the alert text. */
  predicate WarningText(t: string)
  {
    Contains(t, "SOUND") || Contains(t, "WATER")
  }

  /** The subject one alert text alone would select. */
  function TextSeverity(t: string): Severity
  {
    if CriticalText(t) then Critical else if WarningText(t) then Warning else Plain
  }

  /** The more urgent of two subjects. */
  function Higher(x: Severity, y: Severity): Severity
  {
    if x == Critical || y == Critical then Critical
    else if x == Warning || y == Warning then Warning
    else Plain
  }

  /** `send_mail`'s subject choice, alert by alert. */
  function SeverityOf(alerts: seq<Alert>): Severity
  {
    if alerts == [] then Plain else Higher(TextSeverity(Label(alerts[0])), SeverityOf(alerts[1..]))
  }

  /** The subject is exactly the source's two `any` tests: critical when some
      alert text passes the first, else a warning when some passes the second,
      else plain. */
  lemma {:induction false} SeverityAny(alerts: seq<Alert>)
    ensures SeverityOf(alerts) == Critical <==> exists a :: a in alerts && CriticalText(Label(a))
    ensures SeverityOf(alerts) == Warning <==>
              && (forall a :: a in alerts ==> !CriticalText(Label(a)))
              && (exists a :: a in alerts && WarningText(Label(a)))
  {
    if alerts != [] {
      SeverityAny(alerts[1..]);
      assert forall a :: a in alerts <==> a == alerts[0] || a in alerts[1..];
    }
  }

  /** Only a gas alert's text contains GAS. */
  lemma GasWord(a: Alert)
    ensures Contains(Label(a), "GAS") <==> a.HighGas?
  {
    var s := Label(a);
    match a
    case HighGas(_) => assert OccursAt(s, "GAS", 5);
    case HighSound(_) => MissingChar(s, "GAS", 'A');
    case HighWater(_) => MissingChar(s, "GAS", 'S');
    case Vibration => MissingChar(s, "GAS", 'G');
    case HighTemp(_) => MissingChar(s, "GAS", 'A');
    case LowTemp(_) => MissingChar(s, "GAS", 'G');
    case HighHumidity(_) => MissingChar(s, "GAS", 'A');
    case LowHumidity(_) => MissingChar(s, "GAS", 'G');
    case Motion => MissingChar(s, "GAS", 'G');
  }

  /** Only a vibration alert's text contains VIBRATION. */
  lemma VibrationWord(a: Alert)
    ensures Contains(Label(a), "VIBRATION") <==> a.Vibration?
  {
    var s := Label(a);
    if a.Vibration? {
      assert OccursAt(s, "VIBRATION", 0);
    } else {
      MissingChar(s, "VIBRATION", 'V');
    }
  }

  /** Only a sound alert's text contains SOUND. */
  lemma SoundWord(a: Alert)
    ensures Contains(Label(a), "SOUND") <==> a.HighSound?
  {
    var s := Label(a);
    match a
    case HighSound(_) => assert OccursAt(s, "SOUND", 5);
    case HighGas(_) => MissingChar(s, "SOUND", 'O');
    case _ => MissingChar(s, "SOUND", 'S');
  }

  /** Only a water alert's text contains WATER. */
  lemma WaterWord(a: Alert)
    ensures Contains(Label(a), "WATER") <==> a.HighWater?
  {
    var s := Label(a);
    match a
    case HighWater(_) => assert OccursAt(s, "WATER", 5);
    case LowTemp(_) => MissingChar(s, "WATER", 'A');
    case LowHumidity(_) => MissingChar(s, "WATER", 'A');
    case _ => MissingChar(s, "WATER", 'W');
  }

  /** The subject depends only on the kinds of the alerts: any gas or
      vibration alert makes it critical; otherwise any sound or water alert
      makes it a warning; otherwise it is the plain subject. */
  lemma SeverityByKind(alerts: seq<Alert>)
    ensures SeverityOf(alerts) == Critical <==> exists a :: a in alerts && (a.HighGas? || a.Vibration?)
    ensures SeverityOf(alerts) == Warning <==>
              && (forall a :: a in alerts ==> !(a.HighGas? || a.Vibration?))
              && (exists a :: a in alerts && (a.HighSound? || a.HighWater?))
  {
    SeverityAny(alerts);
    forall a | a in alerts
      ensures CriticalText(Label(a)) <==> a.HighGas? || a.Vibration?
      ensures WarningText(Label(a)) <==> a.HighSound? || a.HighWater?
    {
      GasWord(a);
      VibrationWord(a);
      SoundWord(a);
      WaterWord(a);
    }
  }
}
