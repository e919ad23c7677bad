/**
 * The alert-reaction loop of `main.py`. Each snapshot of the zone-status
 * stream is reduced to the alerts of every stream's full-frame zone; those that
 * have not been handled, belong to a mask alarm and started at least three
 * seconds after the last reaction are reactable; only when exactly one is
 * reactable does the arm respond (a snack for a masked person, a mask thrown
 * for a maskless one) and the ledger of handled alerts, the reaction time and
 * the two sound cycles advance.
 */
module Reaction {
  import opened Wrappers
  import opened Arm
  import Actions

  type AlertId = int
  type AlarmId = int
  type StreamId = int
  type SoundFile = string

  /** Alarm names provisioned at startup (maskbot/user_helpers.py). */
  const MaskedAlarmName: string := "Masked Person Detected!"
  const MasklessAlarmName: string := "Maskless Person Detected!"
  /** The name of the zone that covers the whole frame, defined by the analytics client library. */
  const FullFrameZoneName: string := "Screen"
  const DebounceSeconds: real := 3.0
  const HomePosition: Position := (150.0, 0.0, 150.0)
  const ThrowPosition: Position := (200.0, 0.0, 30.0)
  const ThrowSpeed: real := 125.0

  datatype Alarm = Alarm(id: AlarmId, name: string)
  datatype Alert = Alert(id: AlertId, alarmId: AlarmId, startTime: real)
  datatype ZoneStatus = ZoneStatus(alerts: seq<Alert>)

  /** One packet of the status stream: stream id to (zone name to status), in the dictionary's order. */
  type Snapshot = seq<(StreamId, map<string, ZoneStatus>)>

  datatype StepError =
      /** `zone_statuses[DEFAULT_ZONE]` raised KeyError for this stream */
    | MissingFullFrameZone(stream: StreamId)
      /** `next` on the cycle of an empty sound directory raised StopIteration */
    | NoSoundFiles

  predicate IsMaskAlarmName(name: string)
  {
    name in [MaskedAlarmName, MasklessAlarmName]
  }

  // ---------------------------------------------------------------------
  // Startup: the alarm catalog

  /**
   * `alarm_id_to_name`: the dictionary comprehension over the zone alarms,
   * keeping the mask alarms; a later alarm with the same id overwrites an earlier one.
   */
  function AlarmCatalog(alarms: seq<Alarm>): (catalog: map<AlarmId, string>)
    ensures forall id :: id in catalog ==> IsMaskAlarmName(catalog[id])
    ensures forall i :: 0 <= i < |alarms| && IsMaskAlarmName(alarms[i].name) ==> alarms[i].id in catalog
    ensures forall id :: id in catalog ==> exists i :: 0 <= i < |alarms| && alarms[i].id == id && alarms[i].name == catalog[id]
    decreases |alarms|
  {
    if alarms == [] then map[]
    else
      var a := alarms[|alarms| - 1];
      var earlier := AlarmCatalog(alarms[..|alarms| - 1]);
      if IsMaskAlarmName(a.name) then earlier[a.id := a.name] else earlier
  }

  // ---------------------------------------------------------------------
  // The ledger and the sound cycles

  /**
   * The loop's mutable state: the handled alert ids, the time of the last
   * reaction, and how many sounds each `itertools.cycle` has yielded.
   */
  datatype Ledger = Ledger(handled: set<AlertId>, lastReaction: real, goodDrawn: nat, badDrawn: nat)

  const InitialLedger: Ledger := Ledger({}, 0.0, 0, 0)

  /** What the loop is started with: the catalog, the sorted sound files of each directory, the two pile positions. */
  datatype Config = Config(
    catalog: map<AlarmId, string>,
    goodSounds: seq<SoundFile>,
    badSounds: seq<SoundFile>,
    snackPosition: Position,
    maskPosition: Position)

  /** The `drawn`-th value yielded by `itertools.cycle(files)`; None when `files` is empty. */
  function Draw(files: seq<SoundFile>, drawn: nat): (f: Option<SoundFile>)
    ensures f.None? <==> |files| == 0
    ensures f.Some? ==> f.value in files
  {
    if |files| == 0 then None else Some(files[drawn % |files|])
  }

  /** The first round yields the files in their sorted order; the next round starts again from the first. */
  lemma DrawCycles(files: seq<SoundFile>)
    requires |files| > 0
    ensures forall k :: 0 <= k < |files| ==> Draw(files, k) == Some(files[k])
    ensures Draw(files, |files|) == Some(files[0])
  {
    forall k | 0 <= k < |files|
      ensures Draw(files, k) == Some(files[k])
    {
      ModSmall(k, |files|);
    }
    ModSmall(0, |files|);
    ModSelf(|files|);
  }

  lemma ModSmall(k: int, n: int)
    requires 0 <= k < n
    ensures k % n == k
  {
  }

  lemma ModSelf(n: int)
    requires 0 < n
    ensures n % n == 0
  {
  }

  // ---------------------------------------------------------------------
  // One loop iteration

  /**
   * `ongoing_alerts`: the alerts of every stream's full-frame zone, chained in
   * stream order; the first stream without that zone raises KeyError.
   */
  function OngoingAlerts(packet: Snapshot): (r: Result<seq<Alert>, StepError>)
    ensures r.Success? <==> forall i :: 0 <= i < |packet| ==> FullFrameZoneName in packet[i].1
    ensures r.Success? ==> forall a :: a in r.value <==>
      exists i :: 0 <= i < |packet| && a in packet[i].1[FullFrameZoneName].alerts
    ensures r.Failure? ==> exists i :: 0 <= i < |packet| && FullFrameZoneName !in packet[i].1
                                       && r.error == MissingFullFrameZone(packet[i].0)
                                       && forall j :: 0 <= j < i ==> FullFrameZoneName in packet[j].1
    decreases |packet|
  {
    if packet == [] then Success([])
    else if FullFrameZoneName !in packet[0].1 then Failure(MissingFullFrameZone(packet[0].0))
    else
      match OngoingAlerts(packet[1..])
      case Failure(e) => Failure(e)
      case Success(rest) => Success(packet[0].1[FullFrameZoneName].alerts + rest)
  }

  /**
   * Chaining is compositional: the alerts of two packets' streams are those of
   * the first followed by those of the second, and the first missing zone wins.
   * With the single-stream case this fixes the order and multiplicity of the chain.
   */
  lemma {:induction false} OngoingAlertsAppend(p: Snapshot, q: Snapshot)
    ensures OngoingAlerts(p + q)
         == match OngoingAlerts(p)
            case Failure(e) => Failure(e)
            case Success(a) =>
              match OngoingAlerts(q)
              case Failure(e) => Failure(e)
              case Success(b) => Success(a + b)
    decreases |p|
  {
    if p != [] {
      assert (p + q)[0] == p[0] && (p + q)[1..] == p[1..] + q;
      OngoingAlertsAppend(p[1..], q);
      if FullFrameZoneName in p[0].1 && OngoingAlerts(p[1..]).Success? && OngoingAlerts(q).Success? {
        ConcatAssoc(p[0].1[FullFrameZoneName].alerts, OngoingAlerts(p[1..]).value, OngoingAlerts(q).value);
      }
    } else {
      assert p + q == q;
      if OngoingAlerts(q).Success? {
        assert [] + OngoingAlerts(q).value == OngoingAlerts(q).value;
      }
    }
  }

  /** A single stream contributes exactly the alerts of its full-frame zone, in their order. */
  lemma OngoingAlertsSingle(stream: StreamId, zones: map<string, ZoneStatus>)
    ensures OngoingAlerts([(stream, zones)])
         == if FullFrameZoneName in zones then Success(zones[FullFrameZoneName].alerts)
            else Failure(MissingFullFrameZone(stream))
  {
    var packet: Snapshot := [(stream, zones)];
    assert packet[1..] == [];
    if FullFrameZoneName in zones {
      assert zones[FullFrameZoneName].alerts + [] == zones[FullFrameZoneName].alerts;
    }
  }

  /** The condition of the `reactable_alerts` comprehension. */
  predicate CanReact(a: Alert, ledger: Ledger, catalog: map<AlarmId, string>)
  {
    && a.id !in ledger.handled
    && a.alarmId in catalog
    && a.startTime - ledger.lastReaction >= DebounceSeconds
  }

  /** `xs` is `ys` with some elements left out, the rest in their order. */
  predicate IsSubsequence(xs: seq<Alert>, ys: seq<Alert>)
    decreases |ys|
  {
    if xs == [] then true
    else if ys == [] then false
    else if xs[0] == ys[0] then IsSubsequence(xs[1..], ys[1..])
    else IsSubsequence(xs, ys[1..])
  }

  /** `reactable_alerts`: the ongoing alerts that can be reacted to, in their order. */
  function Reactable(alerts: seq<Alert>, ledger: Ledger, catalog: map<AlarmId, string>): (r: seq<Alert>)
    ensures forall a :: a in r <==> a in alerts && CanReact(a, ledger, catalog)
    ensures forall a :: multiset(r)[a] == if CanReact(a, ledger, catalog) then multiset(alerts)[a] else 0
    ensures IsSubsequence(r, alerts)
    decreases |alerts|
  {
    if alerts == [] then []
    else
      var rest := Reactable(alerts[1..], ledger, catalog);
      assert alerts == [alerts[0]] + alerts[1..];
      assert multiset(alerts) == multiset{alerts[0]} + multiset(alerts[1..]);
      if CanReact(alerts[0], ledger, catalog) then [alerts[0]] + rest
      else
        assert rest == [] || rest[0] != alerts[0];
        rest
  }

  /** The arguments of one `respond_to_person` call. */
  datatype Response = Response(sound: SoundFile, position: Position, throwPosition: Option<Position>)

  /** What one iteration decides: the new ledger, the alert chosen (if any), and the response dispatched for it. */
  datatype Outcome = Outcome(ledger: Ledger, chosen: Option<Alert>, response: Option<Response>)

  /** One iteration of the `for packet in ...` loop, `now` being what `time()` returns after the response. */
  function Step(cfg: Config, ledger: Ledger, packet: Snapshot, now: real): (r: Result<Outcome, StepError>)
  {
    match OngoingAlerts(packet)
    case Failure(e) => Failure(e)
    case Success(ongoing) =>
      var reactable := Reactable(ongoing, ledger, cfg.catalog);
      if |reactable| != 1 then Success(Outcome(ledger, None, None))
      else
        assert reactable[0] in reactable;
        React(cfg, ledger, reactable[0], now)
  }

  /** Reacting to the chosen alert: dispatch by its alarm's name, then mark it handled at time `now`. */
  function React(cfg: Config, ledger: Ledger, chosen: Alert, now: real): (r: Result<Outcome, StepError>)
    requires chosen.alarmId in cfg.catalog
  {
    var name := cfg.catalog[chosen.alarmId];
    var marked := ledger.(handled := ledger.handled + {chosen.id}, lastReaction := now);
    if name == MaskedAlarmName then
      match Draw(cfg.goodSounds, ledger.goodDrawn)
      case None => Failure(NoSoundFiles)
      case Some(sound) =>
        Success(Outcome(marked.(goodDrawn := ledger.goodDrawn + 1), Some(chosen),
                        Some(Response(sound, cfg.snackPosition, None))))
    else if name == MasklessAlarmName then
      match Draw(cfg.badSounds, ledger.badDrawn)
      case None => Failure(NoSoundFiles)
      case Some(sound) =>
        Success(Outcome(marked.(badDrawn := ledger.badDrawn + 1), Some(chosen),
                        Some(Response(sound, cfg.maskPosition, Some(ThrowPosition)))))
    else
      Success(Outcome(marked, Some(chosen), None))
  }


  // ---------------------------------------------------------------------
  // Properties of one iteration

  /** An alert is reactable exactly when it is new, belongs to a catalogued alarm and passes the debounce, the boundary included. */
  lemma ReactableIff(alerts: seq<Alert>, ledger: Ledger, catalog: map<AlarmId, string>, a: Alert)
    ensures a in Reactable(alerts, ledger, catalog)
        <==> a in alerts && a.id !in ledger.handled && a.alarmId in catalog
             && a.startTime >= ledger.lastReaction + DebounceSeconds
  {
  }

  /** When anything other than exactly one alert is reactable, the iteration changes nothing and dispatches nothing. */
  lemma {:induction false} AmbiguousStepIsNoOp(cfg: Config, ledger: Ledger, packet: Snapshot, now: real)
    requires OngoingAlerts(packet).Success?
    requires |Reactable(OngoingAlerts(packet).value, ledger, cfg.catalog)| != 1
    ensures Step(cfg, ledger, packet, now) == Success(Outcome(ledger, None, None))
  {
  }

  /**
   * When an iteration reacts, the chosen alert was the only reactable one; its
   * id joins the handled set, which grows by exactly that id, and the reaction
   * time becomes `now`, not the alert's start time.
   */
  lemma ReactionMarksHandled(cfg: Config, ledger: Ledger, packet: Snapshot, now: real)
    requires Step(cfg, ledger, packet, now).Success?
    requires Step(cfg, ledger, packet, now).value.chosen.Some?
    ensures var o := Step(cfg, ledger, packet, now).value;
      && OngoingAlerts(packet).Success?
      && Reactable(OngoingAlerts(packet).value, ledger, cfg.catalog) == [o.chosen.value]
      && o.chosen.value.id !in ledger.handled
      && o.ledger.handled == ledger.handled + {o.chosen.value.id}
      && |o.ledger.handled| == |ledger.handled| + 1
      && o.ledger.lastReaction == now
  {
    var ongoing := OngoingAlerts(packet).value;
    var r := Reactable(ongoing, ledger, cfg.catalog);
    assert |r| == 1 && r[0] in r;
  }

  /**
   * The converse of `AmbiguousStepIsNoOp`: when exactly one alert is
   * reactable, the iteration reacts to it. It fails only when the sound list
   * of its alarm is empty; otherwise the alert is chosen, its id joins the
   * handled set and the reaction time becomes `now`, and a mask alarm gets a
   * response, thrown exactly for the maskless one.
   */
  lemma SoleReactableIsChosen(cfg: Config, ledger: Ledger, packet: Snapshot, now: real)
    requires OngoingAlerts(packet).Success?
    requires |Reactable(OngoingAlerts(packet).value, ledger, cfg.catalog)| == 1
    ensures var a := Reactable(OngoingAlerts(packet).value, ledger, cfg.catalog)[0];
      && a.alarmId in cfg.catalog
      && var name := cfg.catalog[a.alarmId];
      && (Step(cfg, ledger, packet, now).Failure?
          <==> (name == MaskedAlarmName && cfg.goodSounds == [])
               || (name == MasklessAlarmName && cfg.badSounds == []))
      && (Step(cfg, ledger, packet, now).Success? ==>
            var o := Step(cfg, ledger, packet, now).value;
            && o.chosen == Some(a)
            && o.ledger.handled == ledger.handled + {a.id}
            && o.ledger.lastReaction == now
            && (o.response.Some? <==> name == MaskedAlarmName || name == MasklessAlarmName)
            && (o.response.Some? ==> (o.response.value.throwPosition.Some? <==> name == MasklessAlarmName)))
  {
    var r := Reactable(OngoingAlerts(packet).value, ledger, cfg.catalog);
    assert r[0] in r;
  }

  /** The handled set only grows, and by at most one id per iteration. */
  lemma HandledGrowsByAtMostOne(cfg: Config, ledger: Ledger, packet: Snapshot, now: real)
    requires Step(cfg, ledger, packet, now).Success?
    ensures var h := Step(cfg, ledger, packet, now).value.ledger.handled;
      ledger.handled <= h && |h - ledger.handled| <= 1
  {
    var o := Step(cfg, ledger, packet, now).value;
    if o.chosen.Some? {
      ReactionMarksHandled(cfg, ledger, packet, now);
      assert o.ledger.handled - ledger.handled == {o.chosen.value.id};
    }
  }

  /**
   * With the catalog built at startup, every chosen alert dispatches one of the
   * two responses: a masked one the next good sound and the snack pile with no
   * throw, a maskless one the next bad sound, the mask pile and a throw; only
   * the cycle that was drawn from advances.
   */
  lemma DispatchByCategory(alarms: seq<Alarm>, cfg: Config, ledger: Ledger, packet: Snapshot, now: real)
    requires cfg.catalog == AlarmCatalog(alarms)
    requires Step(cfg, ledger, packet, now).Success?
    requires Step(cfg, ledger, packet, now).value.chosen.Some?
    ensures Step(cfg, ledger, packet, now).value.chosen.value.alarmId in cfg.catalog
    ensures var o := Step(cfg, ledger, packet, now).value;
      var name := cfg.catalog[o.chosen.value.alarmId];
      && o.response.Some?
      && (name == MaskedAlarmName || name == MasklessAlarmName)
      && (name == MaskedAlarmName ==>
            && o.response.value == Response(cfg.goodSounds[ledger.goodDrawn % |cfg.goodSounds|], cfg.snackPosition, None)
            && o.ledger.goodDrawn == ledger.goodDrawn + 1
            && o.ledger.badDrawn == ledger.badDrawn)
      && (name == MasklessAlarmName ==>
            && o.response.value == Response(cfg.badSounds[ledger.badDrawn % |cfg.badSounds|], cfg.maskPosition, Some(ThrowPosition))
            && o.ledger.badDrawn == ledger.badDrawn + 1
            && o.ledger.goodDrawn == ledger.goodDrawn)
  {
    var o := Step(cfg, ledger, packet, now).value;
    ReactionMarksHandled(cfg, ledger, packet, now);
    var chosen := o.chosen.value;
    var r := Reactable(OngoingAlerts(packet).value, ledger, cfg.catalog);
    assert chosen in r;
    assert IsMaskAlarmName(cfg.catalog[chosen.alarmId]);
  }

  /**
   * One alert of the masked alarm, started at 10 with no reaction before
   * (reaction time 0): it is reacted to with the first good sound at the snack
   * pile, its id is the only one handled, and the reaction time is `now`.
   */
  lemma MaskedScenario(goodSounds: seq<SoundFile>, badSounds: seq<SoundFile>, snack: Position, mask: Position, now: real)
    requires |goodSounds| > 0
    ensures var alarms := [Alarm(1, MaskedAlarmName), Alarm(2, MasklessAlarmName)];
      var cfg := Config(AlarmCatalog(alarms), goodSounds, badSounds, snack, mask);
      var alert := Alert(7, 1, 10.0);
      var packet := [(0, map[FullFrameZoneName := ZoneStatus([alert])])];
      Step(cfg, InitialLedger, packet, now)
      == Success(Outcome(Ledger({7}, now, 1, 0), Some(alert), Some(Response(goodSounds[0], snack, None))))
  {
    var alarms := [Alarm(1, MaskedAlarmName), Alarm(2, MasklessAlarmName)];
    assert alarms[..1][..0] == [];
    assert AlarmCatalog(alarms[..1]) == map[1 := MaskedAlarmName];
    assert AlarmCatalog(alarms) == map[1 := MaskedAlarmName, 2 := MasklessAlarmName];
    var alert := Alert(7, 1, 10.0);
    var packet: Snapshot := [(0, map[FullFrameZoneName := ZoneStatus([alert])])];
    assert packet[1..] == [];
    assert OngoingAlerts(packet[1..]) == Success([]);
    assert packet[0].1[FullFrameZoneName].alerts == [alert];
    assert [alert] + [] == [alert];
    assert OngoingAlerts(packet) == Success([alert]);
    var cfg := Config(AlarmCatalog(alarms), goodSounds, badSounds, snack, mask);
    assert [alert][1..] == [];
    assert Reactable([alert], InitialLedger, cfg.catalog) == [alert];
    ModSmall(0, |goodSounds|);
    assert Draw(goodSounds, 0) == Some(goodSounds[0]);
    assert cfg.catalog[alert.alarmId] == MaskedAlarmName;
    assert InitialLedger.handled + {7} == {7};
    assert Step(cfg, InitialLedger, packet, now)
        == Success(Outcome(Ledger({7}, now, 1, 0), Some(alert), Some(Response(goodSounds[0], snack, None))));
  }

  /**
   * The first maskless alert after startup, starting ten seconds in, is
   * reacted to with the first bad sound at the mask pile and thrown to
   * (200, 0, 30); its id is the only one handled, and the reaction time is `now`.
   */
  lemma MasklessScenario(goodSounds: seq<SoundFile>, badSounds: seq<SoundFile>, snack: Position, mask: Position, now: real)
    requires |badSounds| > 0
    ensures var alarms := [Alarm(1, MaskedAlarmName), Alarm(2, MasklessAlarmName)];
      var cfg := Config(AlarmCatalog(alarms), goodSounds, badSounds, snack, mask);
      var alert := Alert(8, 2, 10.0);
      var packet := [(0, map[FullFrameZoneName := ZoneStatus([alert])])];
      Step(cfg, InitialLedger, packet, now)
      == Success(Outcome(Ledger({8}, now, 0, 1), Some(alert), Some(Response(badSounds[0], mask, Some(ThrowPosition)))))
  {
    var alarms := [Alarm(1, MaskedAlarmName), Alarm(2, MasklessAlarmName)];
    assert alarms[..1][..0] == [];
    assert AlarmCatalog(alarms[..1]) == map[1 := MaskedAlarmName];
    assert AlarmCatalog(alarms) == map[1 := MaskedAlarmName, 2 := MasklessAlarmName];
    var alert := Alert(8, 2, 10.0);
    var packet: Snapshot := [(0, map[FullFrameZoneName := ZoneStatus([alert])])];
    assert packet[1..] == [];
    assert OngoingAlerts(packet[1..]) == Success([]);
    assert packet[0].1[FullFrameZoneName].alerts == [alert];
    assert [alert] + [] == [alert];
    assert OngoingAlerts(packet) == Success([alert]);
    var cfg := Config(AlarmCatalog(alarms), goodSounds, badSounds, snack, mask);
    assert [alert][1..] == [];
    assert Reactable([alert], InitialLedger, cfg.catalog) == [alert];
    ModSmall(0, |badSounds|);
    assert Draw(badSounds, 0) == Some(badSounds[0]);
    assert cfg.catalog[alert.alarmId] == MasklessAlarmName;
    assert InitialLedger.handled + {8} == {8};
  }

  /** Two simultaneously reactable alerts are both dropped: nothing is dispatched and the ledger stays. */
  lemma TwoReactableScenario(cfg: Config, ledger: Ledger, a: Alert, b: Alert, now: real)
    requires CanReact(a, ledger, cfg.catalog) && CanReact(b, ledger, cfg.catalog)
    ensures Step(cfg, ledger, [(0, map[FullFrameZoneName := ZoneStatus([a, b])])], now)
         == Success(Outcome(ledger, None, None))
  {
    var packet: Snapshot := [(0, map[FullFrameZoneName := ZoneStatus([a, b])])];
    assert packet[1..] == [];
    assert OngoingAlerts(packet[1..]) == Success([]);
    assert packet[0].1[FullFrameZoneName].alerts == [a, b];
    assert [a, b] + [] == [a, b];
    assert OngoingAlerts(packet) == Success([a, b]);
    assert [a, b][1..] == [b] && [b][1..] == [];
    assert Reactable([a, b], ledger, cfg.catalog) == [a, b];
  }

  // ---------------------------------------------------------------------
  // Responding to a person

  /** The moves before the pickup: home at speed 100 while waiting, then the sound. */
  function Prelude(r: Response): (cmds: seq<Command>)
  {
    [MoveTo(HomePosition, 100.0, false, true), PlaySound(r.sound)]
  }

  /** The moves after the pickup: home at speed 30, the optional throw, pump off, a second's pause, home at speed 50. */
  function Finale(r: Response): (cmds: seq<Command>)
  {
    [MoveTo(HomePosition, 30.0, false, true)]
    + (if r.throwPosition.Some? then [MoveTo(r.throwPosition.value, ThrowSpeed, false, true)] else [])
    + [SetPump(false), Sleep(1.0), MoveTo(HomePosition, 50.0, false, true)]
  }

  /** `respond_to_person`, given the limit-switch readings its pickup sees. */
  function RespondScript(r: Response, readings: seq<bool>): (cmds: seq<Command>)
    requires Actions.DescentBound(Actions.DefaultMaxDownDistance, Actions.DefaultDownIncrement) <= |readings|
  {
    Prelude(r)
    + Actions.PickupScript(r.position, readings, Actions.DefaultMaxDownDistance, Actions.DefaultDownIncrement)
    + Finale(r)
  }

  /** The order of a response: home at 100, sound, the pickup, home at 30, the optional throw, pump off, a pause, home at 50. */
  lemma RespondOrder(r: Response, readings: seq<bool>)
    requires Actions.DescentBound(Actions.DefaultMaxDownDistance, Actions.DefaultDownIncrement) <= |readings|
    ensures var script := RespondScript(r, readings);
      var pickup := Actions.PickupScript(r.position, readings, Actions.DefaultMaxDownDistance, Actions.DefaultDownIncrement);
      var t := if r.throwPosition.Some? then 1 else 0;
      && |script| == |pickup| + 6 + t
      && script[0] == MoveTo(HomePosition, 100.0, false, true)
      && script[1] == PlaySound(r.sound)
      && script[2..2 + |pickup|] == pickup
      && script[2 + |pickup|] == MoveTo(HomePosition, 30.0, false, true)
      && (r.throwPosition.Some? ==> script[3 + |pickup|] == MoveTo(r.throwPosition.value, ThrowSpeed, false, true))
      && script[3 + |pickup| + t] == SetPump(false)
      && script[4 + |pickup| + t] == Sleep(1.0)
      && script[5 + |pickup| + t] == MoveTo(HomePosition, 50.0, false, true)
  {
  }

  /** The commands one iteration issues: a response, or nothing. */
  function OutcomeScript(response: Option<Response>, readings: seq<bool>): (cmds: seq<Command>)
    requires Actions.DescentBound(Actions.DefaultMaxDownDistance, Actions.DefaultDownIncrement) <= |readings|
  {
    if response.Some? then RespondScript(response.value, readings) else []
  }

  // ---------------------------------------------------------------------
  // The whole loop

  /** What the loop has done after a prefix of the stream: the ledger, the alerts reacted to, the commands, and the exception that ended it. */
  datatype Run = Run(ledger: Ledger, reacted: seq<Alert>, log: seq<Command>, failure: Option<StepError>)

  ghost predicate EnoughReadings(switchReadings: seq<seq<bool>>)
  {
    forall i :: 0 <= i < |switchReadings| ==>
      Actions.DescentBound(Actions.DefaultMaxDownDistance, Actions.DefaultDownIncrement) <= |switchReadings[i]|
  }

  /** The loop after one more iteration, reading the clock `now` and the switch readings `readings`. */
  function Extend(cfg: Config, prev: Run, packet: Snapshot, now: real, readings: seq<bool>): (run: Run)
    requires Actions.DescentBound(Actions.DefaultMaxDownDistance, Actions.DefaultDownIncrement) <= |readings|
  {
    if prev.failure.Some? then prev
    else
      match Step(cfg, prev.ledger, packet, now)
      case Failure(e) => prev.(failure := Some(e))
      case Success(o) =>
        Run(o.ledger,
            prev.reacted + (if o.chosen.Some? then [o.chosen.value] else []),
            prev.log + OutcomeScript(o.response, readings),
            None)
  }

  /**
   * The loop over `packets`, the i-th iteration reading the clock `clock[i]`
   * and its pickup seeing `switchReadings[i]`; after an exception nothing more happens.
   */
  function RunLoop(cfg: Config, start: Ledger, packets: seq<Snapshot>, clock: seq<real>, switchReadings: seq<seq<bool>>): (run: Run)
    requires |clock| == |packets| == |switchReadings|
    requires EnoughReadings(switchReadings)
    decreases |packets|
  {
    if packets == [] then Run(start, [], [], None)
    else
      var n := |packets| - 1;
      Extend(cfg, RunLoop(cfg, start, packets[..n], clock[..n], switchReadings[..n]), packets[n], clock[n], switchReadings[n])
  }

  lemma RunLoopSnoc(cfg: Config, start: Ledger, packets: seq<Snapshot>, clock: seq<real>, switchReadings: seq<seq<bool>>, i: nat)
    requires |clock| == |packets| == |switchReadings|
    requires EnoughReadings(switchReadings)
    requires i < |packets|
    ensures RunLoop(cfg, start, packets[..i + 1], clock[..i + 1], switchReadings[..i + 1])
         == Extend(cfg, RunLoop(cfg, start, packets[..i], clock[..i], switchReadings[..i]), packets[i], clock[i], switchReadings[i])
  {
    assert packets[..i + 1][..i] == packets[..i] && clock[..i + 1][..i] == clock[..i]
        && switchReadings[..i + 1][..i] == switchReadings[..i];
  }

  /**
   * The handled set contains the one the loop started with and every alert
   * reacted to; none of those was handled at the start, and no id was reacted to twice.
   */
  ghost predicate NoRepeats(start: Ledger, run: Run)
  {
    && start.handled <= run.ledger.handled
    && (forall i :: 0 <= i < |run.reacted| ==> run.reacted[i].id in run.ledger.handled)
    && (forall i :: 0 <= i < |run.reacted| ==> run.reacted[i].id !in start.handled)
    && (forall i, j :: 0 <= i < j < |run.reacted| ==> run.reacted[i].id != run.reacted[j].id)
  }

  /**
   * Appending the alert chosen in an iteration keeps `NoRepeats`, provided the
   * handled set only grew and the chosen id was new and is now handled.
   */
  lemma NoRepeatsSnoc(start: Ledger, prev: Run, next: Run, chosen: Option<Alert>)
    requires NoRepeats(start, prev)
    requires prev.ledger.handled <= next.ledger.handled
    requires next.reacted == prev.reacted + (if chosen.Some? then [chosen.value] else [])
    requires chosen.Some? ==> chosen.value.id !in prev.ledger.handled && chosen.value.id in next.ledger.handled
    ensures NoRepeats(start, next)
  {
    if chosen.None? {
      assert next.reacted == prev.reacted;
    } else {
      assert forall i :: 0 <= i < |prev.reacted| ==> next.reacted[i] == prev.reacted[i];
      assert next.reacted[|prev.reacted|] == chosen.value;
    }
  }

  /** One more iteration keeps `NoRepeats`. */
  lemma ExtendNoRepeats(cfg: Config, start: Ledger, prev: Run, packet: Snapshot, now: real, readings: seq<bool>)
    requires Actions.DescentBound(Actions.DefaultMaxDownDistance, Actions.DefaultDownIncrement) <= |readings|
    requires NoRepeats(start, prev)
    ensures NoRepeats(start, Extend(cfg, prev, packet, now, readings))
  {
    if prev.failure.None? {
      var step := Step(cfg, prev.ledger, packet, now);
      if step.Success? {
        var o := step.value;
        HandledGrowsByAtMostOne(cfg, prev.ledger, packet, now);
        if o.chosen.Some? {
          ReactionMarksHandled(cfg, prev.ledger, packet, now);
        }
        NoRepeatsSnoc(start, prev, Extend(cfg, prev, packet, now, readings), o.chosen);
      }
    }
  }

  /** Over any prefix of the stream the handled set only grows and no alert id is reacted to twice. */
  lemma {:induction false} RunNeverRepeats(cfg: Config, start: Ledger, packets: seq<Snapshot>, clock: seq<real>, switchReadings: seq<seq<bool>>)
    requires |clock| == |packets| == |switchReadings|
    requires EnoughReadings(switchReadings)
    ensures var run := RunLoop(cfg, start, packets, clock, switchReadings);
      && start.handled <= run.ledger.handled
      && (forall i :: 0 <= i < |run.reacted| ==> run.reacted[i].id in run.ledger.handled)
      && (forall i :: 0 <= i < |run.reacted| ==> run.reacted[i].id !in start.handled)
      && (forall i, j :: 0 <= i < j < |run.reacted| ==> run.reacted[i].id != run.reacted[j].id)
    decreases |packets|
  {
    if packets != [] {
      var n := |packets| - 1;
      var prev := RunLoop(cfg, start, packets[..n], clock[..n], switchReadings[..n]);
      RunNeverRepeats(cfg, start, packets[..n], clock[..n], switchReadings[..n]);
      ExtendNoRepeats(cfg, start, prev, packets[n], clock[n], switchReadings[n]);
    }
  }

  // ---------------------------------------------------------------------
  // The imperative loop

  /** `respond_to_person`. */
  method RespondToPerson(bot: Bot, r: Response, readings: seq<bool>)
    requires Actions.DescentBound(Actions.DefaultMaxDownDistance, Actions.DefaultDownIncrement) <= |readings|
    modifies bot
    ensures bot.log == old(bot.log) + RespondScript(r, readings)
  {
    ghost var pickup := Actions.PickupScript(r.position, readings, Actions.DefaultMaxDownDistance, Actions.DefaultDownIncrement);
    bot.Issue(MoveTo(HomePosition, 100.0, false, true));
    bot.Issue(PlaySound(r.sound));
    assert bot.log == old(bot.log) + Prelude(r);
    var _ := Actions.Pickup(bot, r.position, readings, Actions.DefaultMaxDownDistance, Actions.DefaultDownIncrement);
    IssueFinale(bot, r);
    ConcatAssoc(old(bot.log), Prelude(r), pickup);
    ConcatAssoc(old(bot.log), Prelude(r) + pickup, Finale(r));
  }

  /** The closing moves of `respond_to_person`. */
  method IssueFinale(bot: Bot, r: Response)
    modifies bot
    ensures bot.log == old(bot.log) + Finale(r)
  {
    bot.Issue(MoveTo(HomePosition, 30.0, false, true));
    if r.throwPosition.Some? {
      bot.Issue(MoveTo(r.throwPosition.value, ThrowSpeed, false, true));
    }
    bot.Issue(SetPump(false));
    bot.Issue(Sleep(1.0));
    bot.Issue(MoveTo(HomePosition, 50.0, false, true));
  }

  /** The body of `main` from the alarm catalog on: the ledger as fields, the arm it drives. */
  class ReactionController {
    const cfg: Config
    const bot: Bot
    var handled: set<AlertId>
    var lastReaction: real
    var goodDrawn: nat
    var badDrawn: nat

    function CurrentLedger(): (l: Ledger)
      reads this
    {
      Ledger(handled, lastReaction, goodDrawn, badDrawn)
    }

    constructor (alarms: seq<Alarm>, goodSounds: seq<SoundFile>, badSounds: seq<SoundFile>,
                 snackPosition: Position, maskPosition: Position, bot: Bot)
      ensures cfg == Config(AlarmCatalog(alarms), goodSounds, badSounds, snackPosition, maskPosition)
      ensures this.bot == bot
      ensures CurrentLedger() == InitialLedger
    {
      cfg := Config(AlarmCatalog(alarms), goodSounds, badSounds, snackPosition, maskPosition);
      this.bot := bot;
      handled := {};
      lastReaction := 0.0;
      goodDrawn := 0;
      badDrawn := 0;
    }

    /** One iteration of the loop over the stream. */
    method Iterate(packet: Snapshot, now: real, readings: seq<bool>) returns (failure: Option<StepError>)
      requires Actions.DescentBound(Actions.DefaultMaxDownDistance, Actions.DefaultDownIncrement) <= |readings|
      modifies this, bot
      ensures var step := Step(cfg, old(CurrentLedger()), packet, now);
        && (step.Failure? ==> failure == Some(step.error) && CurrentLedger() == old(CurrentLedger()) && bot.log == old(bot.log))
        && (step.Success? ==> failure == None && CurrentLedger() == step.value.ledger
                              && bot.log == old(bot.log) + OutcomeScript(step.value.response, readings))
    {
      var ongoing := OngoingAlerts(packet);
      if ongoing.Failure? {
        return Some(ongoing.error);
      }
      var reactable := Reactable(ongoing.value, CurrentLedger(), cfg.catalog);
      if |reactable| != 1 {
        return None;
      }
      assert reactable[0] in reactable;
      failure := ReactTo(reactable[0], now, readings);
    }

    /** The body of the loop once an alert is chosen: the response, then the ledger update. */
    method ReactTo(chosen: Alert, now: real, readings: seq<bool>) returns (failure: Option<StepError>)
      requires chosen.alarmId in cfg.catalog
      requires Actions.DescentBound(Actions.DefaultMaxDownDistance, Actions.DefaultDownIncrement) <= |readings|
      modifies this, bot
      ensures var react := React(cfg, old(CurrentLedger()), chosen, now);
        && (react.Failure? ==> failure == Some(react.error) && CurrentLedger() == old(CurrentLedger()) && bot.log == old(bot.log))
        && (react.Success? ==> failure == None && CurrentLedger() == react.value.ledger
                               && bot.log == old(bot.log) + OutcomeScript(react.value.response, readings))
    {
      var name := cfg.catalog[chosen.alarmId];
      if name == MaskedAlarmName {
        var sound := Draw(cfg.goodSounds, goodDrawn);
        if sound.None? {
          return Some(NoSoundFiles);
        }
        goodDrawn := goodDrawn + 1;
        RespondToPerson(bot, Response(sound.value, cfg.snackPosition, None), readings);
      } else if name == MasklessAlarmName {
        var sound := Draw(cfg.badSounds, badDrawn);
        if sound.None? {
          return Some(NoSoundFiles);
        }
        badDrawn := badDrawn + 1;
        RespondToPerson(bot, Response(sound.value, cfg.maskPosition, Some(ThrowPosition)), readings);
      }
      handled := handled + {chosen.id};
      lastReaction := now;
      failure := None;
    }

    /** The loop over a finite prefix of the stream; it ends early on the first exception. */
    method Run(packets: seq<Snapshot>, clock: seq<real>, switchReadings: seq<seq<bool>>) returns (failure: Option<StepError>)
      requires |clock| == |packets| == |switchReadings|
      requires EnoughReadings(switchReadings)
      modifies this, bot
      ensures var run := RunLoop(cfg, old(CurrentLedger()), packets, clock, switchReadings);
        && CurrentLedger() == run.ledger
        && bot.log == old(bot.log) + run.log
        && failure == run.failure
    {
      ghost var start := CurrentLedger();
      failure := None;
      var i := 0;
      while i < |packets|
        invariant 0 <= i <= |packets|
        invariant var run := RunLoop(cfg, start, packets[..i], clock[..i], switchReadings[..i]);
          && CurrentLedger() == run.ledger
          && bot.log == old(bot.log) + run.log
          && run.failure.None? && failure.None?
        decreases |packets| - i
      {
        ghost var before := RunLoop(cfg, start, packets[..i], clock[..i], switchReadings[..i]);
        ghost var issued := bot.log;
        failure := Iterate(packets[i], clock[i], switchReadings[i]);
        RunLoopSnoc(cfg, start, packets, clock, switchReadings, i);
        ghost var step := Step(cfg, before.ledger, packets[i], clock[i]);
        i := i + 1;
        if failure.Some? {
          RunLoopStopsAfterFailure(cfg, start, packets, clock, switchReadings, i);
          break;
        }
        ConcatAssoc(old(bot.log), before.log, OutcomeScript(step.value.response, switchReadings[i - 1]));
      }
      if failure.None? {
        assert packets[..i] == packets && clock[..i] == clock && switchReadings[..i] == switchReadings;
      }
    }
  }

  /** Once an iteration has raised, the loop's outcome is the one at that point. */
  lemma {:induction false} RunLoopStopsAfterFailure(cfg: Config, start: Ledger, packets: seq<Snapshot>, clock: seq<real>,
                                                    switchReadings: seq<seq<bool>>, k: nat)
    requires |clock| == |packets| == |switchReadings|
    requires EnoughReadings(switchReadings)
    requires k <= |packets|
    requires RunLoop(cfg, start, packets[..k], clock[..k], switchReadings[..k]).failure.Some?
    ensures RunLoop(cfg, start, packets, clock, switchReadings)
         == RunLoop(cfg, start, packets[..k], clock[..k], switchReadings[..k])
    decreases |packets| - k
  {
    if k < |packets| {
      var n := |packets| - 1;
      assert packets[..n][..k] == packets[..k] && clock[..n][..k] == clock[..k] && switchReadings[..n][..k] == switchReadings[..k];
      RunLoopStopsAfterFailure(cfg, start, packets[..n], clock[..n], switchReadings[..n], k);
    } else {
      assert packets[..k] == packets && clock[..k] == clock && switchReadings[..k] == switchReadings;
    }
  }
}
