/** The running monitor of afk_monitor.py: the two global state objects `session` (an `Instance`)
    and `track` (a `Tracking`), `logevent` writing to the sinks, `processevent` updating the objects
    statement by statement, and the main loop. Each method is proved against the pure transition of
    the Classifier module. */
module Monitor {
  import opened Wrappers
  import opened Text
  import opened Journal
  import opened Router
  import opened Classifier

  /** The state of one encounter, cleared by `reset()`. */
  class Instance {
    var scans: seq<string>
    var lastKill: Option<int>
    var killsTime: int
    var kills: nat

    function State(): SessionState
      reads this
    {
      SessionState(scans, lastKill, killsTime, kills)
    }

    constructor ()
      ensures State() == FreshSession
    {
      scans, lastKill, killsTime, kills := [], None, 0, 0;
    }

    /** The counters' part of the Bounty case: the scans cleared, one more kill, and the time
        since the previous kill, when there was one, added to the total and returned. */
    method RecordKill(rec: Record) returns (interval: Option<int>)
      modifies this
      ensures State() == AfterKill(rec, old(State())) && interval == Interval(rec, old(State()))
    {
      scans := [];
      kills := kills + 1;
      interval := None;
      match lastKill {
        case Some(last) =>
          var seconds := rec.instant - last;
          interval := Some(seconds);
          killsTime := killsTime + seconds;
        case None =>
      }
      lastKill := Some(rec.instant);
    }

    method Reset()
      modifies this
      ensures State() == FreshSession
    {
      scans, lastKill, killsTime, kills := [], None, 0, 0;
    }
  }

  /** The state kept for the whole run. */
  class Tracking {
    var fighterHull: real
    var logged: nat
    var missionCompletes: nat

    function State(): TrackState
      reads this
    {
      TrackState(fighterHull, logged, missionCompletes)
    }

    constructor ()
      ensures State() == FreshTrack
    {
      fighterHull, logged, missionCompletes := 0.0, 0, 0;
    }
  }

  /** The module's globals: the two state objects, the remote configuration, the journal being
      watched, and the `logevent` calls made so far, in order. */
  class Monitor {
    const session: Instance
    const track: Tracking
    const config: Config
    const journalFile: string
    var log: seq<Alert>

    constructor (config: Config, journalFile: string)
      ensures session.State() == FreshSession && track.State() == FreshTrack
      ensures fresh(session) && fresh(track)
      ensures this.config == config && this.journalFile == journalFile && log == []
    {
      session := new Instance();
      track := new Tracking();
      this.config := config;
      this.journalFile := journalFile;
      log := [];
    }

    /** What the calls so far have put on the terminal and sent to the remote channel. */
    function Output(): seq<Delivery>
      reads this
    {
      EmitAll(Notices(log), config)
    }

    /** `logevent`: one more call, counted, and its delivery added to the output. */
    method LogEvent(a: Alert)
      modifies this, track
      ensures log == old(log) + [a]
      ensures track.State() == old(track.State()).(logged := old(track.logged) + 1)
      ensures Output() == old(Output()) + [Emit(NoticeOf(a), config)]
    {
      ghost var before := Notices(log);
      log := log + [a];
      track.logged := track.logged + 1;
      assert Notices(log) == before + [NoticeOf(a)];
      EmitAllAppend(before, [NoticeOf(a)], config);
    }

    /** The objects and the call log are where the transition `st` takes them from a start with
        `logged0` calls counted and `log0` made. */
    predicate Reflects(st: Step, logged0: nat, log0: seq<Alert>, outcome: Outcome)
      reads this, session, track
    {
      session.State() == st.session &&
      track.State() == st.track.(logged := logged0 + |st.alerts|) &&
      log == log0 + st.alerts &&
      outcome == st.outcome
    }

    method OnScan(rec: Record) returns (outcome: Outcome)
      requires rec.ship.Some?
      modifies this, session, track
      ensures Reflects(ScanCase(rec, old(session.State()), old(track.State())), old(track.logged), old(log), outcome)
    {
      var ship := if rec.shipLocalised.Some? then rec.shipLocalised.value else Title(rec.ship.value);
      if ship !in session.scans && (ship in ShipsEasy || ship in ShipsHard) {
        session.scans := session.scans + [ship];
        LogEvent(ScanAlert(rec.clock, ship));
      }
      return Continue;
    }

    method OnBounty(rec: Record) returns (outcome: Outcome)
      modifies this, session, track
      ensures Reflects(BountyCase(rec, old(session.State()), old(track.State())), old(track.logged), old(log), outcome)
    {
      ghost var st := BountyCase(rec, session.State(), track.State());
      var interval := session.RecordKill(rec);
      var ship;
      if rec.targetLocalised.Some? {
        ship := rec.targetLocalised.value;
      } else if rec.target.Some? {
        ship := Title(rec.target.value);
      } else {
        return Fault("Target");
      }
      if rec.victimFaction.None? {
        return Fault("VictimFaction");
      }
      var kill := KillAlert(rec.clock, ship, rec.victimFaction.value, interval);
      assert session.State() == st.session && st.alerts[0] == kill;
      LogEvent(kill);
      if session.kills % 10 == 0 {
        var summary := SummaryAlert(rec.clock, session.kills, TruncDiv(session.killsTime, session.kills - 1));
        LogEvent(summary);
        assert st.alerts == [kill, summary];
      } else {
        assert st.alerts == [kill];
      }
      return Continue;
    }

    method OnMission(rec: Record) returns (outcome: Outcome)
      modifies this, session, track
      ensures Reflects(MissionCase(rec, old(session.State()), old(track.State())), old(track.logged), old(log), outcome)
    {
      if rec.name.None? {
        return Fault("Name");
      }
      if Contains(rec.name.value, "Mission_Massacre") {
        track.missionCompletes := track.missionCompletes + 1;
        LogEvent(MissionAlert(rec.clock, track.missionCompletes));
      }
      return Continue;
    }

    method OnFuel(rec: Record) returns (outcome: Outcome)
      modifies this, session, track
      ensures Reflects(FuelCase(rec, old(session.State()), old(track.State())), old(track.logged), old(log), outcome)
    {
      if rec.fuelMain.None? {
        return Fault("FuelMain");
      }
      if FuelLow(rec.fuelMain.value) {
        LogEvent(FuelAlert(rec.clock, rec.fuelMain.value));
      }
      return Continue;
    }

    method OnLaunch(rec: Record) returns (outcome: Outcome)
      modifies this, session, track
      ensures Reflects(LaunchCase(rec, old(session.State()), old(track.State())), old(track.logged), old(log), outcome)
    {
      if rec.playerControlled.None? {
        return Fault("PlayerControlled");
      }
      if !rec.playerControlled.value {
        LogEvent(LaunchAlert(rec.clock));
      }
      return Continue;
    }

    method OnShield(rec: Record) returns (outcome: Outcome)
      modifies this, session, track
      ensures Reflects(ShieldCase(rec, old(session.State()), old(track.State())), old(track.logged), old(log), outcome)
    {
      if rec.shieldsUp.None? {
        return Fault("ShieldsUp");
      }
      LogEvent(ShieldAlert(rec.clock, rec.shieldsUp.value));
      return Continue;
    }

    /** The fighter's guard is tried first; when it fails the player-pilot guard is tried. */
    method OnHullDamage(rec: Record) returns (outcome: Outcome)
      modifies this, session, track
      ensures Reflects(HullCase(rec, old(session.State()), old(track.State())), old(track.logged), old(log), outcome)
    {
      if rec.fighter.None? {
        return Fault("Fighter");
      }
      var fighterCase := false;
      if rec.fighter.value {
        if rec.health.None? {
          return Fault("Health");
        }
        fighterCase := track.fighterHull != rec.health.value;
      }
      if fighterCase {
        track.fighterHull := rec.health.value;
        LogEvent(FighterHullAlert(rec.clock, rec.health.value));
        return Continue;
      }
      if rec.playerPilot.None? {
        return Fault("PlayerPilot");
      }
      if rec.playerPilot.value {
        if rec.health.None? {
          return Fault("Health");
        }
        LogEvent(ShipHullAlert(rec.clock, rec.health.value));
      }
      return Continue;
    }

    method OnMusic(rec: Record) returns (outcome: Outcome)
      modifies this, session, track
      ensures Reflects(MusicCase(rec, old(session.State()), old(track.State())), old(track.logged), old(log), outcome)
    {
      if rec.musicTrack.None? {
        return Fault("MusicTrack");
      }
      if rec.musicTrack.value == "MainMenu" {
        LogEvent(MainMenuAlert(rec.clock));
      }
      return Continue;
    }

    method OnCommander(rec: Record) returns (outcome: Outcome)
      modifies this, session, track
      ensures Reflects(CommanderCase(rec, old(session.State()), old(track.State())), old(track.logged), old(log), outcome)
    {
      if rec.name.None? {
        return Fault("Name");
      }
      LogEvent(CommanderAlert(rec.clock, rec.name.value));
      session.Reset();
      return Continue;
    }

    method OnDrop(rec: Record) returns (outcome: Outcome)
      modifies this, session, track
      ensures Reflects(DropCase(rec, old(session.State()), old(track.State())), old(track.logged), old(log), outcome)
    {
      if rec.typeName.None? {
        return Fault("Type");
      }
      if Contains(rec.typeName.value, "$MULTIPLAYER") {
        if rec.typeLocalised.None? {
          return Fault("Type_Localised");
        }
        LogEvent(DropAlert(rec.clock, rec.typeLocalised.value));
        session.Reset();
      }
      return Continue;
    }

    method OnText(rec: Record) returns (outcome: Outcome)
      modifies this, session, track
      ensures Reflects(TextCase(rec, old(session.State()), old(track.State())), old(track.logged), old(log), outcome)
    {
      if rec.message.None? {
        return Fault("Message");
      }
      if IsBaitMessage(rec.message.value) {
        LogEvent(BaitAlert(rec.clock));
      }
      return Continue;
    }

    /** The localised name is read even when only the internal name is present. */
    method OnCargo(rec: Record) returns (outcome: Outcome)
      modifies this, session, track
      ensures Reflects(CargoCase(rec, old(session.State()), old(track.State())), old(track.logged), old(log), outcome)
    {
      if rec.abandoned.None? {
        return Fault("Abandoned");
      }
      if !rec.abandoned.value {
        if rec.typeLocalised.None? {
          return Fault("Type_Localised");
        }
        LogEvent(CargoAlert(rec.clock, rec.typeLocalised.value));
      }
      return Continue;
    }

    /** `processevent`: the `match` on the event tag; Shutdown ends with `sys.exit()`. */
    method ProcessEvent(rec: Record) returns (outcome: Outcome)
      modifies this, session, track
      ensures Reflects(Classify(rec, old(session.State()), old(track.State())), old(track.logged), old(log), outcome)
    {
      match KindOf(rec.event)
      case ShipTargeted =>
        if rec.ship.Some? {
          outcome := OnScan(rec);
        } else {
          outcome := Continue;
        }
      case Bounty => outcome := OnBounty(rec);
      case MissionRedirected => outcome := OnMission(rec);
      case ReservoirReplenished => outcome := OnFuel(rec);
      case FighterDestroyed =>
        LogEvent(FighterDestroyedAlert(rec.clock));
        outcome := Continue;
      case LaunchFighter => outcome := OnLaunch(rec);
      case ShieldState => outcome := OnShield(rec);
      case HullDamage => outcome := OnHullDamage(rec);
      case Died =>
        LogEvent(DiedAlert(rec.clock));
        outcome := Continue;
      case Music => outcome := OnMusic(rec);
      case Commander => outcome := OnCommander(rec);
      case SupercruiseDestinationDrop => outcome := OnDrop(rec);
      case ReceiveText => outcome := OnText(rec);
      case EjectCargo => outcome := OnCargo(rec);
      case Shutdown =>
        LogEvent(ShutdownAlert(rec.clock));
        outcome := Exit;
      case Unhandled => outcome := Continue;
    }

    /** One turn of the main loop as the loop invariant sees it: handling record `i` moves its
        alerts from the part of the trace still to come to the part already logged. */
    static lemma FeedAdvance(recs: seq<Record>, i: nat, acc: seq<Alert>, s: SessionState, t: TrackState)
      requires i < |recs|
      ensures var st := Classify(recs[i], s, t);
              var rest := Feed(recs[i..], s, t);
              var now := Trace(acc + rest.alerts, rest.session, rest.track, i + rest.consumed, rest.stop);
              if st.outcome == Continue then
                var later := Feed(recs[i + 1..], st.session, st.track);
                now == Trace(acc + st.alerts + later.alerts, later.session, later.track, i + 1 + later.consumed, later.stop)
              else
                now == Trace(acc + st.alerts, st.session, st.track, i + 1, st.outcome)
    {
      assert recs[i..][0] == recs[i] && recs[i..][1..] == recs[i + 1..];
      var st := Classify(recs[i], s, t);
      if st.outcome == Continue {
        var later := Feed(recs[i + 1..], st.session, st.track);
        assert acc + (st.alerts + later.alerts) == acc + st.alerts + later.alerts;
      }
    }

    /** The `while True` loop over the journal: each record in turn through `processevent` until
        one ends the run. Returns how many records were handled and how the last one ended. */
    method Drain(recs: seq<Record>) returns (consumed: nat, stop: Outcome)
      modifies this, session, track
      ensures var tr := Feed(recs, old(session.State()), old(track.State()));
              consumed == tr.consumed && stop == tr.stop &&
              session.State() == tr.session && track.State() == tr.track &&
              log == old(log) + tr.alerts
    {
      ghost var log0 := log;
      ghost var acc: seq<Alert> := [];
      ghost var full := Feed(recs, session.State(), track.State());
      var i := 0;
      stop := Continue;
      while i < |recs| && stop == Continue
        invariant 0 <= i <= |recs|
        invariant stop == Continue ==>
                    var rest := Feed(recs[i..], session.State(), track.State());
                    full == Trace(acc + rest.alerts, rest.session, rest.track, i + rest.consumed, rest.stop)
        invariant stop != Continue ==> full == Trace(acc, session.State(), track.State(), i, stop)
        invariant log == log0 + acc
      {
        ghost var st := Classify(recs[i], session.State(), track.State());
        FeedAdvance(recs, i, acc, session.State(), track.State());
        var outcome := ProcessEvent(recs[i]);
        assert session.State() == st.session && track.State() == st.track && outcome == st.outcome;
        AppendAssoc(log0, acc, st.alerts);
        acc := acc + st.alerts;
        stop := outcome;
        i := i + 1;
      }
      if stop == Continue {
        assert recs[i..] == [];
      }
      consumed := i;
    }

    /** `main`'s run: the start notification, then the loop over the records read from the
        journal. `interrupted` says whether Ctrl+C came after the last record; without it the loop
        is still waiting for the next line. Shutdown and Ctrl+C log the stop notification; a
        missing key ends the run without it. Returns how many records were handled and how the
        run ended. */
    method Run(recs: seq<Record>, interrupted: bool, startClock: string, stopClock: string)
      returns (consumed: nat, stop: Outcome)
      modifies this, session, track
      ensures var tr := Feed(recs, old(session.State()), old(track.State()).(logged := old(track.logged) + 1));
              var stopped := tr.stop == Exit || (tr.stop == Continue && interrupted);
              consumed == tr.consumed && stop == tr.stop &&
              session.State() == tr.session &&
              track.State() == tr.track.(logged := tr.track.logged + (if stopped then 1 else 0)) &&
              log == old(log) + [StartAlert(startClock)] + tr.alerts +
                     (if stopped then [StopAlert(stopClock, journalFile)] else [])
    {
      LogEvent(StartAlert(startClock));
      consumed, stop := Drain(recs);
      if stop == Exit || (stop == Continue && interrupted) {
        LogEvent(StopAlert(stopClock, journalFile));
      }
    }
  }
}
