/** What `processevent` promises, stated over its pure model `Classify` and the main loop `Feed`. */
module Properties {
  import opened Wrappers
  import opened Text
  import opened Journal
  import opened Durations
  import opened Router
  import opened Classifier
  import LegacyMonitor

  // ---- Target scans ----

  /** A scan of a ship notifies, at terminal level, exactly when the ship is of a recognised
      class and not yet scanned this encounter, and the scan is then recorded; nothing else changes. */
  lemma ScanNotifiesNewKnownShips(rec: Record, s: SessionState, t: TrackState)
    requires rec.event == "ShipTargeted" && rec.ship.Some?
    ensures var r := Classify(rec, s, t); var ship := ScanName(rec);
      var isNew := ship !in s.scans && IsKnownShip(ship);
      r.outcome == Continue &&
      r.track == t.(logged := t.logged + |r.alerts|) &&
      r.alerts == (if isNew then [ScanAlert(rec.clock, ship)] else []) &&
      r.session == (if isNew then s.(scans := s.scans + [ship]) else s)
  {
  }

  /** A targeted record without a `Ship` key is not a scan. */
  lemma TargetWithoutShipIsSilent(rec: Record, s: SessionState, t: TrackState)
    requires rec.event == "ShipTargeted" && rec.ship.None?
    ensures Classify(rec, s, t) == Step([], s, t, Continue)
  {
  }

  /** Scanning the same ship again within an encounter says nothing and changes nothing. */
  lemma RescanIsSilent(rec1: Record, rec2: Record, s: SessionState, t: TrackState)
    requires rec1.event == "ShipTargeted" && rec1.ship.Some?
    requires rec2.event == "ShipTargeted" && rec2.ship.Some?
    requires ScanName(rec2) == ScanName(rec1)
    ensures var r1 := Classify(rec1, s, t);
      var r2 := Classify(rec2, r1.session, r1.track);
      r2.alerts == [] && r2.session == r1.session && r2.track == r1.track
  {
    ScanNotifiesNewKnownShips(rec1, s, t);
    var r1 := Classify(rec1, s, t);
    ScanNotifiesNewKnownShips(rec2, r1.session, r1.track);
  }

  predicate AllScansOf(recs: seq<Record>, ship: string) {
    forall i :: 0 <= i < |recs| ==> recs[i].event == "ShipTargeted" && recs[i].ship.Some? && ScanName(recs[i]) == ship
  }

  /** Any number of scans of one ship produce at most one notification: one exactly when the
      ship is recognised and new to the encounter. */
  lemma {:induction false} RepeatedScansNotifyOnce(recs: seq<Record>, ship: string, s: SessionState, t: TrackState)
    requires AllScansOf(recs, ship)
    ensures |Feed(recs, s, t).alerts| == (if recs != [] && ship !in s.scans && IsKnownShip(ship) then 1 else 0)
    ensures Feed(recs, s, t).stop == Continue
    decreases |recs|
  {
    if recs != [] {
      ScanNotifiesNewKnownShips(recs[0], s, t);
      var st := Classify(recs[0], s, t);
      assert AllScansOf(recs[1..], ship);
      RepeatedScansNotifyOnce(recs[1..], ship, st.session, st.track);
      if recs[1..] != [] && ship !in s.scans && IsKnownShip(ship) {
        assert ship in st.session.scans;
      }
    }
  }

  /** A ship on neither list: `processevent` ignores its scan and would colour its kill EASY,
      while the older script prints the scan in HARD. */
  lemma UnlistedShipScans(rec: Record, s: SessionState, t: TrackState)
    requires rec.event == "ShipTargeted" && rec.ship.Some? && !IsKnownShip(ScanName(rec))
    ensures Classify(rec, s, t) == Step([], s, t, Continue)
    ensures LegacyMonitor.ProcessLine(rec) ==
              LegacyMonitor.Line(LegacyMonitor.Stamp(rec) + LegacyMonitor.ScanLabel + LegacyMonitor.ColHard +
                                 ScanName(rec) + LegacyMonitor.ColEnd)
  {
    ScanNotifiesNewKnownShips(rec, s, t);
  }

  // ---- The encounter invariant ----

  /** What holds of `Instance` between records: the scans are distinct recognised ships, a
      previous kill is on record exactly when the count is non-zero, and no interval has been
      added before the second kill. */
  predicate SessionWellFormed(s: SessionState) {
    (forall i, j :: 0 <= i < j < |s.scans| ==> s.scans[i] != s.scans[j]) &&
    (forall i :: 0 <= i < |s.scans| ==> IsKnownShip(s.scans[i])) &&
    (s.kills == 0 <==> s.lastKill.None?) &&
    (s.kills <= 1 ==> s.killsTime == 0)
  }

  lemma FreshSessionWellFormed()
    ensures SessionWellFormed(FreshSession)
  {
  }

  /** Every record keeps the encounter state well formed. */
  lemma ClassifyKeepsSessionWellFormed(rec: Record, s: SessionState, t: TrackState)
    requires SessionWellFormed(s)
    ensures SessionWellFormed(Classify(rec, s, t).session)
  {
    DispatchKeepsSessionWellFormed(KindOf(rec.event), rec, s, t);
  }

  lemma DispatchKeepsSessionWellFormed(kind: EventKind, rec: Record, s: SessionState, t: TrackState)
    requires SessionWellFormed(s)
    ensures SessionWellFormed(Dispatch(kind, rec, s, t).session)
  {
    match kind
    case ShipTargeted =>
      if rec.ship.Some? {
        var r := ScanCase(rec, s, t);
        var ship := ScanName(rec);
        if ship !in s.scans && IsKnownShip(ship) {
          assert r.session.scans == s.scans + [ship];
          forall i, j | 0 <= i < j < |r.session.scans| ensures r.session.scans[i] != r.session.scans[j] {
            if j == |s.scans| {
              assert r.session.scans[i] == s.scans[i];
            }
          }
        }
      }
    case Bounty =>
    case MissionRedirected =>
    case ReservoirReplenished =>
    case FighterDestroyed =>
    case LaunchFighter =>
    case ShieldState =>
    case HullDamage =>
    case Died =>
    case Music =>
    case Commander =>
    case SupercruiseDestinationDrop =>
    case ReceiveText =>
    case EjectCargo =>
    case Shutdown =>
    case Unhandled =>
  }

  // ---- Kills ----

  /** A bounty always starts a new encounter and counts one kill: the scans are cleared, the
      interval since the previous kill (if any) is added, and the kill's instant is recorded;
      a missing `Target` or `VictimFaction` ends the monitor after these updates. */
  lemma BountyUpdatesCounters(rec: Record, s: SessionState, t: TrackState)
    requires rec.event == "Bounty"
    ensures var r := Classify(rec, s, t);
      r.session.scans == [] &&
      r.session.kills == s.kills + 1 &&
      r.session.lastKill == Some(rec.instant) &&
      r.session.killsTime == (if s.lastKill.Some? then s.killsTime + (rec.instant - s.lastKill.value) else s.killsTime) &&
      r.track == t.(logged := t.logged + |r.alerts|) &&
      r.outcome == (if rec.targetLocalised.None? && rec.target.None? then Fault("Target")
                    else if rec.victimFaction.None? then Fault("VictimFaction") else Continue)
  {
  }

  predicate GoodBounty(rec: Record) {
    rec.event == "Bounty" && (rec.targetLocalised.Some? || rec.target.Some?) && rec.victimFaction.Some?
  }

  /** The calls a complete bounty record makes: the kill, then on every tenth kill the summary
      with the mean interval `int(killstime / (kills - 1))`. */
  lemma BountyAlerts(rec: Record, s: SessionState, t: TrackState)
    requires GoodBounty(rec)
    ensures var r := Classify(rec, s, t); var s' := AfterKill(rec, s);
      r.alerts == [KillAlert(rec.clock, BountyShip(rec), rec.victimFaction.value, Interval(rec, s))] +
                  (if s'.kills % 10 == 0 then [SummaryAlert(rec.clock, s'.kills, TruncDiv(s'.killsTime, s'.kills - 1))] else [])
  {
  }

  /** The kill names the victim and its faction, and carries the time since the previous kill
      exactly when the encounter had one; the first kill after a reset has no interval. */
  lemma KillShowsInterval(rec: Record, s: SessionState, t: TrackState)
    requires GoodBounty(rec)
    ensures var r := Classify(rec, s, t);
      |r.alerts| >= 1 && r.alerts[0].KillAlert? && r.alerts[0].clock == rec.clock &&
      r.alerts[0].ship == BountyShip(rec) && r.alerts[0].faction == rec.victimFaction.value &&
      (r.alerts[0].interval.Some? <==> s.lastKill.Some?) &&
      (s.lastKill.Some? ==> r.alerts[0].interval.value == rec.instant - s.lastKill.value)
  {
    BountyAlerts(rec, s, t);
  }

  /** The kill line ends with the faction in parentheses and, after an earlier kill, the interval. */
  lemma KillNoticeEnds(clock: string, ship: string, faction: string, interval: Option<int>)
    ensures EndsWith(KillNotice(clock, ship, faction, interval).text, " (" + faction + ")" + IntervalSuffix(interval))
    ensures interval.None? ==> EndsWith(KillNotice(clock, ship, faction, interval).text, " (" + faction + ")")
  {
    var col := if ship in ShipsHard then ColHard else ColEasy;
    var head, tail := KillWord + ColEnd + ": " + ship + HardMark(ship), " (" + faction + ")" + IntervalSuffix(interval);
    EndsWithAppend(head, tail);
    EndsWithExtends(col, head + tail, tail);
    assert interval.None? ==> tail == " (" + faction + ")";
  }

  /** The kill's colour is HARD exactly for a ship of the hard list and EASY for every other
      name, including names on neither list. */
  lemma KillNoticeColour(clock: string, ship: string, faction: string, interval: Option<int>)
    ensures StartsWith(KillNotice(clock, ship, faction, interval).text, ColHard) <==> ship in ShipsHard
    ensures StartsWith(KillNotice(clock, ship, faction, interval).text, ColEasy) <==> ship !in ShipsHard
  {
    KillNoticeOpens(clock, ship, faction, interval);
    ColourPrefix(ColHard, ColEasy, if ship in ShipsHard then ColHard else ColEasy,
                 KillWord + ColEnd + ": " + ship + HardMark(ship) + (" (" + faction + ")" + IntervalSuffix(interval)));
  }

  lemma KillNoticeOpens(clock: string, ship: string, faction: string, interval: Option<int>)
    ensures KillNotice(clock, ship, faction, interval).text ==
              (if ship in ShipsHard then ColHard else ColEasy) +
              (KillWord + ColEnd + ": " + ship + HardMark(ship) + (" (" + faction + ")" + IntervalSuffix(interval)))
  {
  }

  /** Two colours that differ in their eighth character tell apart the texts they open. */
  lemma ColourPrefix(a: string, b: string, col: string, rest: string)
    requires 8 <= |a| && 8 <= |b| && a[7] != b[7] && (col == a || col == b)
    ensures StartsWith(col + rest, a) <==> col == a
    ensures StartsWith(col + rest, b) <==> col == b
  {
    assert (col + rest)[..|col|] == col;
    assert (col + rest)[7] == col[7];
  }

  /** A second, summary call follows exactly every tenth kill of the encounter; it reports the
      kill count and the truncated mean of the intervals, over kills - 1 >= 9 intervals. */
  lemma SummaryEveryTenthKill(rec: Record, s: SessionState, t: TrackState)
    requires GoodBounty(rec)
    ensures var r := Classify(rec, s, t); var k := r.session.kills;
      (|r.alerts| == 2 <==> k % 10 == 0) &&
      (|r.alerts| == 2 ==> k >= 10 && r.alerts[1] == SummaryAlert(rec.clock, k, TruncDiv(r.session.killsTime, k - 1)))
  {
    BountyAlerts(rec, s, t);
    BountyUpdatesCounters(rec, s, t);
  }

  /** After a run of kills the count has risen by the run's length and the interval total by the
      time from the previous kill, or the run's first kill when there was none, to the run's last
      kill: the sum of the intervals telescopes. */
  lemma {:induction false} KillRunCounters(recs: seq<Record>, s: SessionState, t: TrackState)
    requires recs != [] && forall i :: 0 <= i < |recs| ==> GoodBounty(recs[i])
    ensures var r := Feed(recs, s, t); var first := if s.lastKill.Some? then s.lastKill.value else recs[0].instant;
      r.stop == Continue &&
      r.session.kills == s.kills + |recs| &&
      r.session.scans == [] &&
      r.session.lastKill == Some(recs[|recs| - 1].instant) &&
      r.session.killsTime == s.killsTime + (recs[|recs| - 1].instant - first)
    decreases |recs|
  {
    BountyUpdatesCounters(recs[0], s, t);
    var st := Classify(recs[0], s, t);
    if |recs| > 1 {
      KillRunCounters(recs[1..], st.session, st.track);
    }
  }

  /** The tenth kill of an encounter whose first kill was at `first` reports the mean time
      between the ten kills. */
  lemma TenthKillSummary(rec: Record, s: SessionState, t: TrackState, first: int)
    requires GoodBounty(rec) && s.kills == 9 && s.lastKill.Some? && s.killsTime == s.lastKill.value - first
    ensures var r := Classify(rec, s, t);
      r.alerts == [KillAlert(rec.clock, BountyShip(rec), rec.victimFaction.value, Some(rec.instant - s.lastKill.value)),
                   SummaryAlert(rec.clock, 10, TruncDiv(rec.instant - first, 9))]
  {
    BountyAlerts(rec, s, t);
  }

  /** Nine kills from a fresh encounter leave nine kills and the time from the first to the last. */
  lemma NineKillsFromFresh(pre: seq<Record>, t: TrackState)
    requires |pre| == 9 && forall i :: 0 <= i < |pre| ==> GoodBounty(pre[i])
    ensures Feed(pre, FreshSession, t).session == SessionState([], Some(pre[8].instant), pre[8].instant - pre[0].instant, 9)
  {
    KillRunCounters(pre, FreshSession, t);
  }

  /** From the start of an encounter, ten kills in a row end with the summary of the mean time
      between them: (last - first) / 9, truncated. */
  lemma TenthKillAverage(recs: seq<Record>, t: TrackState)
    requires |recs| == 10 && forall i :: 0 <= i < |recs| ==> GoodBounty(recs[i])
    ensures var r := Feed(recs[..9], FreshSession, t);
      |Classify(recs[9], r.session, r.track).alerts| == 2 &&
      Classify(recs[9], r.session, r.track).alerts[1] == SummaryAlert(recs[9].clock, 10, TruncDiv(recs[9].instant - recs[0].instant, 9))
  {
    var pre := recs[..9];
    assert forall i :: 0 <= i < |pre| ==> GoodBounty(pre[i]);
    NineKillsFromFresh(pre, t);
    var r := Feed(pre, FreshSession, t);
    TenthKillSummary(recs[9], r.session, r.track, recs[0].instant);
  }

  // ---- Resets and the process-lifetime counters ----

  /** A Commander record announces the new session and resets the encounter; the process-lifetime
      state is untouched apart from the one logged call. */
  lemma CommanderResetsSession(rec: Record, s: SessionState, t: TrackState)
    requires rec.event == "Commander" && rec.name.Some?
    ensures Classify(rec, s, t) == Step([CommanderAlert(rec.clock, rec.name.value)], FreshSession, t.(logged := t.logged + 1), Continue)
  {
  }

  /** A drop at a multiplayer destination signal resets the encounter in the same way, and then
      needs `Type_Localised`; any other drop does nothing and does not read it. */
  lemma DropResetsSession(rec: Record, s: SessionState, t: TrackState)
    requires rec.event == "SupercruiseDestinationDrop" && rec.typeName.Some?
    ensures Classify(rec, s, t) ==
      if !Contains(rec.typeName.value, "$MULTIPLAYER") then Step([], s, t, Continue)
      else if rec.typeLocalised.None? then Step([], s, t, Fault("Type_Localised"))
      else Step([DropAlert(rec.clock, rec.typeLocalised.value)], FreshSession, t.(logged := t.logged + 1), Continue)
  {
  }

  /** Only a reset record (or an encounter-ending bounty) ever shrinks the scans, and no
      record other than a Bounty, Commander or multiplayer drop changes the kill counters. */
  lemma KillCountersChangeOnlyOnKillsAndResets(rec: Record, s: SessionState, t: TrackState)
    requires rec.event != "Bounty" && rec.event != "Commander" && rec.event != "SupercruiseDestinationDrop"
    ensures var r := Classify(rec, s, t);
      r.session.kills == s.kills && r.session.lastKill == s.lastKill && r.session.killsTime == s.killsTime &&
      s.scans <= r.session.scans
  {
    DispatchFrame(KindOf(rec.event), rec, s, t);
  }

  /** The count of completed massacre missions rises by one exactly on a MissionRedirected record
      whose name contains `Mission_Massacre`, and is otherwise never changed. */
  lemma MissionCountRisesOnlyOnMassacre(rec: Record, s: SessionState, t: TrackState)
    ensures var r := Classify(rec, s, t);
      r.track.missionCompletes ==
        t.missionCompletes + (if rec.event == "MissionRedirected" && rec.name.Some? && Contains(rec.name.value, "Mission_Massacre") then 1 else 0)
  {
    DispatchFrame(KindOf(rec.event), rec, s, t);
  }

  /** The stored fighter hull changes only on a fighter's HullDamage record, to its `Health`. */
  lemma FighterHullChangesOnlyOnFighterDamage(rec: Record, s: SessionState, t: TrackState)
    ensures var r := Classify(rec, s, t);
      r.track.fighterHull != t.fighterHull ==>
        rec.event == "HullDamage" && rec.fighter == Some(true) && rec.health == Some(r.track.fighterHull)
  {
    DispatchFrame(KindOf(rec.event), rec, s, t);
  }

  /** What each case of the `match` leaves alone: the kill counters and the scans outside the
      Bounty and reset cases, the mission count outside a massacre mission, the fighter hull
      outside a fighter's damage. */
  lemma DispatchFrame(kind: EventKind, rec: Record, s: SessionState, t: TrackState)
    ensures var r := Dispatch(kind, rec, s, t);
      (kind != Bounty && kind != Commander && kind != SupercruiseDestinationDrop ==>
        r.session.kills == s.kills && r.session.lastKill == s.lastKill && r.session.killsTime == s.killsTime &&
        s.scans <= r.session.scans) &&
      r.track.missionCompletes ==
        t.missionCompletes + (if kind == MissionRedirected && rec.name.Some? && Contains(rec.name.value, "Mission_Massacre") then 1 else 0) &&
      (r.track.fighterHull != t.fighterHull ==>
        kind == HullDamage && rec.fighter == Some(true) && rec.health == Some(r.track.fighterHull))
  {
    match kind
    case ShipTargeted =>
    case Bounty =>
    case MissionRedirected =>
    case ReservoirReplenished =>
    case FighterDestroyed =>
    case LaunchFighter =>
    case ShieldState =>
    case HullDamage =>
    case Died =>
    case Music =>
    case Commander =>
    case SupercruiseDestinationDrop =>
    case ReceiveText =>
    case EjectCargo =>
    case Shutdown =>
    case Unhandled =>
  }

  /** `logged` grows by one per `logevent` call over any stretch of the main loop. */
  lemma {:induction false} LoggedCountsEveryCall(recs: seq<Record>, s: SessionState, t: TrackState)
    ensures Feed(recs, s, t).track.logged == t.logged + |Feed(recs, s, t).alerts|
    ensures Feed(recs, s, t).track.missionCompletes >= t.missionCompletes
    decreases |recs|
  {
    if recs != [] {
      MissionCountRisesOnlyOnMassacre(recs[0], s, t);
      var st := Classify(recs[0], s, t);
      LoggedCountsEveryCall(recs[1..], st.session, st.track);
    }
  }

  // ---- Fuel ----

  /** The colour that opens the fuel notification: BAD when critical, WARN otherwise. */
  lemma FuelNoticeColour(clock: string, fuel: real)
    ensures StartsWith(FuelNotice(clock, fuel).text, ColBad) <==> FuelCritical(fuel)
    ensures StartsWith(FuelNotice(clock, fuel).text, ColWarn) <==> !FuelCritical(fuel)
  {
    FuelNoticeOpens(clock, fuel);
    ColourPrefix(ColBad, ColWarn, if FuelCritical(fuel) then ColBad else ColWarn,
                 FuelText + ColEnd + RemainingText + IntToString(Round(fuel / FuelTank * 100.0)) + "%)");
  }

  lemma FuelNoticeOpens(clock: string, fuel: real)
    ensures FuelNotice(clock, fuel).text ==
              (if FuelCritical(fuel) then ColBad else ColWarn) +
              (FuelText + ColEnd + RemainingText + IntToString(Round(fuel / FuelTank * 100.0)) + "%)")
  {
  }

  /** Fuel is reported when the main tank is below 20% (strictly), at level LOG_BOTH, in the BAD
      colour below 10% and in the WARN colour otherwise. */
  lemma FuelThresholds(rec: Record, s: SessionState, t: TrackState)
    requires rec.event == "ReservoirReplenished" && rec.fuelMain.Some?
    ensures var r := Classify(rec, s, t); var fuel := rec.fuelMain.value;
      r.session == s && r.outcome == Continue &&
      (|r.alerts| == 1 <==> fuel * 5.0 < FuelTank) &&
      |r.alerts| <= 1 &&
      (|r.alerts| == 1 ==>
        r.alerts[0] == FuelAlert(rec.clock, fuel) &&
        NoticeOf(r.alerts[0]).level == LogBoth &&
        (StartsWith(NoticeOf(r.alerts[0]).text, ColBad) <==> fuel * 10.0 < FuelTank) &&
        (StartsWith(NoticeOf(r.alerts[0]).text, ColWarn) <==> fuel * 10.0 >= FuelTank))
  {
    var fuel := rec.fuelMain.value;
    FuelNoticeColour(rec.clock, fuel);
    var r := Classify(rec, s, t);
    if |r.alerts| == 1 {
      assert NoticeOf(r.alerts[0]) == FuelNotice(rec.clock, fuel);
    }
  }

  /** A refuelling record without `FuelMain` is a KeyError. */
  lemma FuelWithoutReading(rec: Record, s: SessionState, t: TrackState)
    requires rec.event == "ReservoirReplenished" && rec.fuelMain.None?
    ensures Classify(rec, s, t) == Step([], s, t, Fault("FuelMain"))
  {
  }

  // ---- Hull damage ----

  /** A fighter's hull damage is reported only when its health differs from the last one stored,
      which it then replaces; when that guard fails the record is a ship-hull report exactly when
      the player pilots, and otherwise nothing. At most one report either way. */
  lemma HullDamageCases(rec: Record, s: SessionState, t: TrackState)
    requires rec.event == "HullDamage" && rec.fighter.Some? && (rec.fighter.value ==> rec.health.Some?)
    ensures var r := Classify(rec, s, t);
      var fighterReport := rec.fighter.value && rec.health.value != t.fighterHull;
      (fighterReport ==> r.session == s && r.outcome == Continue && r.track.missionCompletes == t.missionCompletes &&
                         r.alerts == [FighterHullAlert(rec.clock, rec.health.value)] &&
                         r.track.fighterHull == rec.health.value) &&
      (!fighterReport && rec.playerPilot.Some? && (rec.playerPilot.value ==> rec.health.Some?) ==>
         r.session == s && r.outcome == Continue && r.track.missionCompletes == t.missionCompletes &&
         r.track.fighterHull == t.fighterHull &&
         r.alerts == (if rec.playerPilot.value then [ShipHullAlert(rec.clock, rec.health.value)] else []))
  {
  }

  /** The keys each hull guard reads: `Fighter` always, `Health` when the fighter guard or the
      player-pilot case needs it, `PlayerPilot` when the fighter guard fails. */
  lemma HullDamageMissingKeys(rec: Record, s: SessionState, t: TrackState)
    requires rec.event == "HullDamage"
    ensures var r := Classify(rec, s, t);
      (rec.fighter.None? ==> r.outcome == Fault("Fighter")) &&
      (rec.fighter == Some(true) && rec.health.None? ==> r.outcome == Fault("Health")) &&
      (rec.fighter == Some(false) && rec.playerPilot.None? ==> r.outcome == Fault("PlayerPilot")) &&
      (rec.fighter == Some(true) && rec.health == Some(t.fighterHull) && rec.playerPilot.None? ==>
         r.outcome == Fault("PlayerPilot")) &&
      (rec.fighter == Some(false) && rec.playerPilot == Some(true) && rec.health.None? ==> r.outcome == Fault("Health"))
  {
  }

  // ---- Cargo ----

  /** The cargo name is always `Type_Localised`: a record that has only `Type` is a KeyError. */
  lemma CargoNameIsAlwaysLocalised(rec: Record, s: SessionState, t: TrackState)
    requires rec.event == "EjectCargo" && rec.abandoned == Some(false)
    ensures Classify(rec, s, t) ==
      if rec.typeLocalised.Some? then Step([CargoAlert(rec.clock, rec.typeLocalised.value)], s, t.(logged := t.logged + 1), Continue)
      else Step([], s, t, Fault("Type_Localised"))
  {
  }

  // ---- Shutdown and the main loop ----

  /** A Shutdown record logs one notice and ends the run. */
  lemma ShutdownLogsOnceAndExits(rec: Record, s: SessionState, t: TrackState)
    requires rec.event == "Shutdown"
    ensures Classify(rec, s, t) == Step([ShutdownAlert(rec.clock)], s, t.(logged := t.logged + 1), Exit)
  {
  }

  /** Nothing after a Shutdown record is ever handled: the loop gives the same result on the
      records up to it. */
  lemma {:induction false} NothingAfterShutdown(recs: seq<Record>, k: nat, s: SessionState, t: TrackState)
    requires k < |recs| && recs[k].event == "Shutdown"
    ensures Feed(recs, s, t) == Feed(recs[..k + 1], s, t)
    ensures Feed(recs, s, t).stop != Continue && Feed(recs, s, t).consumed <= k + 1
    decreases k
  {
    assert recs[..k + 1][0] == recs[0];
    var st := Classify(recs[0], s, t);
    if k == 0 {
      ShutdownLogsOnceAndExits(recs[0], s, t);
    } else if st.outcome == Continue {
      assert recs[1..][k - 1] == recs[k];
      assert recs[..k + 1][1..] == recs[1..][..k];
      NothingAfterShutdown(recs[1..], k - 1, st.session, st.track);
    }
  }

  /** Exactly the tags of the source's cases select a case. */
  lemma HandledTagsSelectCases(tag: string)
    ensures KindOf(tag) == Unhandled <==> tag !in HandledEvents
  {
  }

  /** An event tag without a case leaves everything as it was. */
  lemma UnhandledEventsIgnored(rec: Record, s: SessionState, t: TrackState)
    requires rec.event !in HandledEvents
    ensures Classify(rec, s, t) == Step([], s, t, Continue)
  {
    HandledTagsSelectCases(rec.event);
  }

  predicate WellShaped(r: Step, rec: Record) {
    |r.alerts| <= 2 &&
    (forall i :: 0 <= i < |r.alerts| ==> r.alerts[i].clock == rec.clock) &&
    (r.outcome.Fault? ==> r.alerts == [])
  }

  /** The notification of an alert carries the alert's time and one of the three output levels. */
  lemma AlertLevel(a: Alert)
    ensures NoticeOf(a).clock == a.clock && LogTerm <= NoticeOf(a).level <= LogPing
  {
  }

  /** Every record makes at most two `logevent` calls, stamped with its own time and at one of
      the three output levels; a KeyError happens before any call. */
  lemma NoticeShape(rec: Record, s: SessionState, t: TrackState)
    ensures WellShaped(Classify(rec, s, t), rec)
  {
    DispatchShape(KindOf(rec.event), rec, s, t);
  }

  lemma DispatchShape(kind: EventKind, rec: Record, s: SessionState, t: TrackState)
    ensures WellShaped(Dispatch(kind, rec, s, t), rec)
  {
    match kind
    case ShipTargeted => ScanShape(rec, s, t);
    case Bounty => BountyShape(rec, s, t);
    case MissionRedirected => MissionShape(rec, s, t);
    case ReservoirReplenished => FuelShape(rec, s, t);
    case FighterDestroyed =>
    case LaunchFighter => LaunchShape(rec, s, t);
    case ShieldState => ShieldShape(rec, s, t);
    case HullDamage => HullShape(rec, s, t);
    case Died =>
    case Music => MusicShape(rec, s, t);
    case Commander => CommanderShape(rec, s, t);
    case SupercruiseDestinationDrop => DropShape(rec, s, t);
    case ReceiveText => TextShape(rec, s, t);
    case EjectCargo => CargoShape(rec, s, t);
    case Shutdown =>
    case Unhandled =>
  }

  lemma ScanShape(rec: Record, s: SessionState, t: TrackState)
    ensures WellShaped(if rec.ship.Some? then ScanCase(rec, s, t) else Quiet(s, t), rec)
  {
  }

  lemma BountyShape(rec: Record, s: SessionState, t: TrackState)
    ensures WellShaped(BountyCase(rec, s, t), rec)
  {
  }

  lemma MissionShape(rec: Record, s: SessionState, t: TrackState)
    ensures WellShaped(MissionCase(rec, s, t), rec)
  {
  }

  lemma FuelShape(rec: Record, s: SessionState, t: TrackState)
    ensures WellShaped(FuelCase(rec, s, t), rec)
  {
  }

  lemma LaunchShape(rec: Record, s: SessionState, t: TrackState)
    ensures WellShaped(LaunchCase(rec, s, t), rec)
  {
  }

  lemma ShieldShape(rec: Record, s: SessionState, t: TrackState)
    ensures WellShaped(ShieldCase(rec, s, t), rec)
  {
  }

  lemma HullShape(rec: Record, s: SessionState, t: TrackState)
    ensures WellShaped(HullCase(rec, s, t), rec)
  {
  }

  lemma MusicShape(rec: Record, s: SessionState, t: TrackState)
    ensures WellShaped(MusicCase(rec, s, t), rec)
  {
  }

  lemma CommanderShape(rec: Record, s: SessionState, t: TrackState)
    ensures WellShaped(CommanderCase(rec, s, t), rec)
  {
  }

  lemma DropShape(rec: Record, s: SessionState, t: TrackState)
    ensures WellShaped(DropCase(rec, s, t), rec)
  {
  }

  lemma TextShape(rec: Record, s: SessionState, t: TrackState)
    ensures WellShaped(TextCase(rec, s, t), rec)
  {
  }

  lemma CargoShape(rec: Record, s: SessionState, t: TrackState)
    ensures WellShaped(CargoCase(rec, s, t), rec)
  {
  }
}
