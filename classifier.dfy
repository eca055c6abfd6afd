/** `processevent` of afk_monitor.py as a pure transition: one journal record and the two state
    objects before it, to the `logevent` calls it makes, the two state objects after it, and
    whether the monitor goes on, exits (`sys.exit()` on Shutdown) or dies on a missing key. */
module Classifier {
  import opened Wrappers
  import opened Text
  import opened Journal
  import opened Durations
  import opened Router

  const ShipsEasy: seq<string> := ["Adder", "Asp Explorer", "Asp Scout", "Cobra Mk III", "Cobra Mk IV",
    "Diamondback Explorer", "Diamondback Scout", "Eagle", "Imperial Courier", "Imperial Eagle",
    "Krait Phantom", "Sidewinder", "Viper Mk III", "Viper Mk IV"]
  const ShipsHard: seq<string> := ["Alliance Crusader", "Alliance Challenger", "Alliance Chieftain",
    "Anaconda", "Federal Assault Ship", "Federal Dropship", "Federal Gunship", "Fer-De-Lance",
    "Imperial Clipper", "Krait MK II", "Python", "Vulture"]
  const BaitMessages: seq<string> := ["$Pirate_ThreatTooHigh", "$Pirate_NotEnoughCargo", "$Pirate_OnNoCargoFound"]

  /** Main tank capacity in tons (the configured value). */
  const FuelTank: real := 64.0

  // Terminal colours (ANSI escape sequences).
  const ColEasy := "\U{1B}[38;5;157m"
  const ColHard := "\U{1B}[38;5;217m"
  const ColWarn := "\U{1B}[38;5;215m"
  const ColBad := "\U{1B}[38;5;15m\U{1B}[48;5;1m"
  const ColGood := "\U{1B}[38;5;15m\U{1B}[48;5;2m"
  const ColEnd := "\U{1B}[0m"

  // The fixed wording of the messages.
  const ScanWord := "Scan"
  const KillWord := "Kill"
  const SummaryText := "Session kills: "
  const AverageText := " (Avg time: "
  const MissionText := "Completed kills for a mission ("
  const FuelText := "Fuel reserves low!"
  const RemainingText := " (Remaining: "
  const FighterLostText := "Fighter destroyed!"
  const LaunchText := "Fighter launched"
  const ShieldText := "Ship shields "
  const ShieldUpText := "back up"
  const ShieldDownText := "down!"
  const FighterHullText := "Fighter hull damaged!"
  const HealthText := " (Health: "
  const ShipHullText := "Ship hull damaged!"
  const DiedText := "Ship destroyed!"
  const MainMenuText := "Exited to main menu"
  const CommanderText := "Started new session for CMDR "
  const DropText := "Dropped at "
  const BaitText := "Pirate didn't engage due to insufficient cargo value"
  const CargoText := "Cargo ejected!"
  const ShutdownText := "Quit to desktop"

  const MonitorName := "ED AFK Monitor"
  const Version := "250129"
  const EmojiStart := "\U{1F4D6}"
  const EmojiStopped := "\U{1F4D5}"
  const EmojiScan := "\U{1F50E}"
  const EmojiKill := "\U{1F4A5}"
  const EmojiSummary := "\U{1F4DD}"
  const EmojiMission := "\U{2705}"
  const EmojiFuel := "\U{26FD}"
  const EmojiFighter := "\U{1F579}\U{FE0F}"
  const EmojiShield := "\U{1F6E1}\U{FE0F}"
  const EmojiRepair := "\U{1F6E0}\U{FE0F}"
  const EmojiDied := "\U{1F480}"
  const EmojiDoor := "\U{1F6AA}"
  const EmojiNewSession := "\U{1F504}"
  const EmojiDrop := "\U{1F680}"
  const EmojiBait := "\U{1F3A3}"
  const EmojiCargo := "\U{1F4E6}"
  const EmojiStop := "\U{1F6D1}"

  /** `Instance`: the state of one encounter. `lastKill` is None where the source holds its
      integer placeholder 0, which is falsy, and Some(instant) once a kill has been seen. */
  datatype SessionState = SessionState(scans: seq<string>, lastKill: Option<int>, killsTime: int, kills: nat)

  /** `Tracking`: the state kept for the whole run. */
  datatype TrackState = TrackState(fighterHull: real, logged: nat, missionCompletes: nat)

  /** What `Instance()` and `reset()` produce. */
  const FreshSession := SessionState([], None, 0, 0)
  const FreshTrack := TrackState(0.0, 0, 0)

  /** How handling a record ends: normally, by `sys.exit()`, or by a KeyError for a missing key. */
  datatype Outcome = Continue | Exit | Fault(key: string)

  datatype Step = Step(alerts: seq<Alert>, session: SessionState, track: TrackState, outcome: Outcome)

  predicate IsKnownShip(name: string) {
    name in ShipsEasy || name in ShipsHard
  }

  /** Python's `any(x in message for x in bait_messages)`. */
  predicate IsBaitMessage(message: string) {
    exists i | 0 <= i < |BaitMessages| :: Contains(message, BaitMessages[i])
  }

  /** The `(!)` marker the source puts after a ship of the hard list. */
  function HardMark(ship: string): string {
    if ship in ShipsHard then "(!)" else ""
  }

  /** The name a scan reports: the localised name, else the internal name title-cased. */
  function ScanName(rec: Record): string
    requires rec.ship.Some?
  {
    rec.shipLocalised.GetOr(Title(rec.ship.value))
  }

  /** Integer division truncating toward zero, as `int(a / b)` does for b > 0. */
  function TruncDiv(a: int, b: int): (q: int)
    requires b > 0
    ensures a >= 0 ==> 0 <= q && q * b <= a < q * b + b
    ensures a < 0 ==> q <= 0 && q * b - b < a <= q * b
  {
    if a >= 0 then
      DivBounds(a, b);
      a / b
    else
      DivBounds(-a, b);
      -((-a) / b)
  }

  /** Euclidean division of a non-negative number brackets it between two multiples. */
  lemma DivBounds(n: int, b: int)
    requires n >= 0 && b > 0
    ensures 0 <= n / b && (n / b) * b <= n < (n / b) * b + b
  {
    var q, r := n / b, n % b;
    assert n == q * b + r;
  }

  /** What one `logevent` call reports, before it is worded: the clock and the values the
      message shows. All but the last two are raised by `processevent`; the main loop logs the
      start and the stop of a run. */
  datatype Alert =
    | ScanAlert(clock: string, ship: string)
    | KillAlert(clock: string, ship: string, faction: string, interval: Option<int>)
    | SummaryAlert(clock: string, kills: nat, average: int)
    | MissionAlert(clock: string, completes: nat)
    | FuelAlert(clock: string, fuel: real)
    | FighterDestroyedAlert(clock: string)
    | LaunchAlert(clock: string)
    | ShieldAlert(clock: string, up: bool)
    | FighterHullAlert(clock: string, health: real)
    | ShipHullAlert(clock: string, health: real)
    | DiedAlert(clock: string)
    | MainMenuAlert(clock: string)
    | CommanderAlert(clock: string, name: string)
    | DropAlert(clock: string, place: string)
    | BaitAlert(clock: string)
    | CargoAlert(clock: string, cargo: string)
    | ShutdownAlert(clock: string)
    | StartAlert(clock: string)
    | StopAlert(clock: string, journalFile: string)

  // The wording of each alert: the arguments of its `logevent` call.

  function ScanNotice(clock: string, ship: string): Notice {
    var col := if ship in ShipsEasy then ColEasy else ColHard;
    Notice(col + ScanWord + ColEnd + ": " + ship + HardMark(ship), Some("**" + ship + "**" + HardMark(ship)),
           EmojiScan, clock, LogTerm)
  }

  /** The suffix shown on the terminal after a kill: the interval since the previous kill, or
      nothing for the first kill of an encounter. */
  function IntervalSuffix(interval: Option<int>): string {
    if interval.Some? then " [+" + Shown(TimeFormat(interval.value)) + "]" else ""
  }

  /** The kill's colour: hard-list ships are HARD and every other name is EASY. */
  function KillNotice(clock: string, ship: string, faction: string, interval: Option<int>): Notice {
    var col := if ship in ShipsHard then ColHard else ColEasy;
    var suffix := IntervalSuffix(interval);
    var remoteSuffix := if interval.Some? then " **" + suffix + "**" else "";
    var tail := " (" + faction + ")" + suffix;
    Notice(col + (KillWord + ColEnd + ": " + ship + HardMark(ship) + tail),
           Some("**" + ship + HardMark(ship) + "** (" + faction + ")" + remoteSuffix),
           EmojiKill, clock, LogBoth)
  }

  /** The session summary, with the mean time between kills. */
  function SummaryNotice(clock: string, kills: nat, average: int): Notice {
    Notice(SummaryText + NatToString(kills) + AverageText + Shown(TimeFormat(average)) + ")",
           None, EmojiSummary, clock, LogBoth)
  }

  function MissionNotice(clock: string, completes: nat): Notice {
    Notice(MissionText + NatToString(completes) + ")", None, EmojiMission, clock, LogBoth)
  }

  predicate FuelLow(fuel: real) { fuel < FuelTank * 0.2 }
  predicate FuelCritical(fuel: real) { fuel < FuelTank * 0.1 }

  function FuelNotice(clock: string, fuel: real): Notice {
    var col := if FuelCritical(fuel) then ColBad else ColWarn;
    var remaining := IntToString(Round(fuel / FuelTank * 100.0));
    Notice(col + (FuelText + ColEnd + RemainingText + remaining + "%)"),
           Some("**" + FuelText + "**" + RemainingText + remaining + "%)"), EmojiFuel, clock, LogBoth)
  }

  function FighterDestroyedNotice(clock: string): Notice {
    Notice(ColBad + FighterLostText + ColEnd, Some("**" + FighterLostText + "**"), EmojiFighter, clock, LogPing)
  }

  function LaunchNotice(clock: string): Notice {
    Notice(LaunchText, None, EmojiFighter, clock, LogBoth)
  }

  function ShieldNotice(clock: string, up: bool): Notice {
    var shields := if up then ShieldUpText else ShieldDownText;
    var col := if up then ColGood else ColBad;
    Notice(col + ShieldText + shields + ColEnd, Some("**" + ShieldText + shields + "**"), EmojiShield, clock, LogPing)
  }

  function FighterHullNotice(clock: string, health: real): Notice {
    var pct := IntToString(Round(health * 100.0));
    Notice(ColWarn + FighterHullText + ColEnd + HealthText + pct + "%)",
           Some("**" + FighterHullText + "**" + HealthText + pct + "%)"), EmojiFighter, clock, LogBoth)
  }

  function ShipHullNotice(clock: string, health: real): Notice {
    var pct := IntToString(Round(health * 100.0));
    Notice(ColBad + ShipHullText + ColEnd + HealthText + pct + "%)",
           Some("**" + ShipHullText + "**" + HealthText + pct + "%)"), EmojiRepair, clock, LogPing)
  }

  function DiedNotice(clock: string): Notice {
    Notice(ColBad + DiedText + ColEnd, Some("**" + DiedText + "**"), EmojiDied, clock, LogPing)
  }

  function MainMenuNotice(clock: string): Notice {
    Notice(MainMenuText, None, EmojiDoor, clock, LogBoth)
  }

  function CommanderNotice(clock: string, name: string): Notice {
    Notice(CommanderText + name, None, EmojiNewSession, clock, LogBoth)
  }

  function DropNotice(clock: string, place: string): Notice {
    Notice(DropText + place, None, EmojiDrop, clock, LogBoth)
  }

  function BaitNotice(clock: string): Notice {
    Notice(ColWarn + BaitText + ColEnd, Some("**" + BaitText + "**"), EmojiBait, clock, LogBoth)
  }

  function CargoNotice(clock: string, cargo: string): Notice {
    Notice(ColBad + CargoText + ColEnd + " (" + cargo + ")", Some("**" + CargoText + "** (" + cargo + ")"),
           EmojiCargo, clock, LogPing)
  }

  function ShutdownNotice(clock: string): Notice {
    Notice(ShutdownText, None, EmojiStop, clock, LogBoth)
  }

  /** The wall-clock notification that opens a run. */
  function StartNotice(clock: string): Notice {
    Notice(MonitorName + " v" + Version + " started", None, EmojiStart, clock, LogBoth)
  }

  /** The wall-clock notification logged when the run ends by Shutdown or by Ctrl+C. */
  function StopNotice(clock: string, journalFile: string): Notice {
    Notice(MonitorName + " stopped (" + journalFile + ")", Some("**" + MonitorName + " stopped** (" + journalFile + ")"),
           EmojiStopped, clock, LogBoth)
  }

  function NoticeOf(a: Alert): Notice {
    match a
    case ScanAlert(clock, ship) => ScanNotice(clock, ship)
    case KillAlert(clock, ship, faction, interval) => KillNotice(clock, ship, faction, interval)
    case SummaryAlert(clock, kills, average) => SummaryNotice(clock, kills, average)
    case MissionAlert(clock, completes) => MissionNotice(clock, completes)
    case FuelAlert(clock, fuel) => FuelNotice(clock, fuel)
    case FighterDestroyedAlert(clock) => FighterDestroyedNotice(clock)
    case LaunchAlert(clock) => LaunchNotice(clock)
    case ShieldAlert(clock, up) => ShieldNotice(clock, up)
    case FighterHullAlert(clock, health) => FighterHullNotice(clock, health)
    case ShipHullAlert(clock, health) => ShipHullNotice(clock, health)
    case DiedAlert(clock) => DiedNotice(clock)
    case MainMenuAlert(clock) => MainMenuNotice(clock)
    case CommanderAlert(clock, name) => CommanderNotice(clock, name)
    case DropAlert(clock, place) => DropNotice(clock, place)
    case BaitAlert(clock) => BaitNotice(clock)
    case CargoAlert(clock, cargo) => CargoNotice(clock, cargo)
    case ShutdownAlert(clock) => ShutdownNotice(clock)
    case StartAlert(clock) => StartNotice(clock)
    case StopAlert(clock, journalFile) => StopNotice(clock, journalFile)
  }

  /** The `logevent` calls of a run of alerts, in order. */
  function Notices(alerts: seq<Alert>): (ns: seq<Notice>)
    ensures |ns| == |alerts|
    ensures forall i :: 0 <= i < |alerts| ==> ns[i] == NoticeOf(alerts[i])
  {
    if alerts == [] then [] else [NoticeOf(alerts[0])] + Notices(alerts[1..])
  }

  // The cases of the `match`, in their order in the source. None of them touches `logged`,
  // which only `logevent` counts (see Classify).

  function Quiet(s: SessionState, t: TrackState): Step {
    Step([], s, t, Continue)
  }

  function Say(a: Alert, s: SessionState, t: TrackState): Step {
    Step([a], s, t, Continue)
  }

  function ScanCase(rec: Record, s: SessionState, t: TrackState): Step
    requires rec.ship.Some?
  {
    var ship := ScanName(rec);
    if ship !in s.scans && IsKnownShip(ship) then Say(ScanAlert(rec.clock, ship), s.(scans := s.scans + [ship]), t)
    else Quiet(s, t)
  }

  /** The state after the first four statements of the Bounty case, which run before any key
      beyond the timestamp is read. */
  function AfterKill(rec: Record, s: SessionState): SessionState {
    var killsTime := match s.lastKill
      case None => s.killsTime
      case Some(last) => s.killsTime + (rec.instant - last);
    SessionState([], Some(rec.instant), killsTime, s.kills + 1)
  }

  /** The seconds since the previous kill, when there was one. */
  function Interval(rec: Record, s: SessionState): Option<int> {
    match s.lastKill
    case None => None
    case Some(last) => Some(rec.instant - last)
  }

  /** The victim's name: the localised name, else the internal name title-cased. */
  function BountyShip(rec: Record): string
    requires rec.targetLocalised.Some? || rec.target.Some?
  {
    if rec.targetLocalised.Some? then rec.targetLocalised.value else Title(rec.target.value)
  }

  /** On every tenth kill the mean interval, `int(killstime / (kills - 1))`, is reported too. */
  function BountyCase(rec: Record, s: SessionState, t: TrackState): Step {
    var s' := AfterKill(rec, s);
    if rec.targetLocalised.None? && rec.target.None? then Step([], s', t, Fault("Target"))
    else if rec.victimFaction.None? then Step([], s', t, Fault("VictimFaction"))
    else
      var kill := KillAlert(rec.clock, BountyShip(rec), rec.victimFaction.value, Interval(rec, s));
      var summary := if s'.kills % 10 == 0 then [SummaryAlert(rec.clock, s'.kills, TruncDiv(s'.killsTime, s'.kills - 1))] else [];
      Step([kill] + summary, s', t, Continue)
  }

  function MissionCase(rec: Record, s: SessionState, t: TrackState): Step {
    match rec.name
    case None => Step([], s, t, Fault("Name"))
    case Some(name) =>
      if Contains(name, "Mission_Massacre") then
        var t' := t.(missionCompletes := t.missionCompletes + 1);
        Say(MissionAlert(rec.clock, t'.missionCompletes), s, t')
      else Quiet(s, t)
  }

  function FuelCase(rec: Record, s: SessionState, t: TrackState): Step {
    match rec.fuelMain
    case None => Step([], s, t, Fault("FuelMain"))
    case Some(fuel) => if FuelLow(fuel) then Say(FuelAlert(rec.clock, fuel), s, t) else Quiet(s, t)
  }

  function LaunchCase(rec: Record, s: SessionState, t: TrackState): Step {
    match rec.playerControlled
    case None => Step([], s, t, Fault("PlayerControlled"))
    case Some(pc) => if !pc then Say(LaunchAlert(rec.clock), s, t) else Quiet(s, t)
  }

  function ShieldCase(rec: Record, s: SessionState, t: TrackState): Step {
    match rec.shieldsUp
    case None => Step([], s, t, Fault("ShieldsUp"))
    case Some(up) => Say(ShieldAlert(rec.clock, up), s, t)
  }

  /** The two HullDamage cases: the fighter's guard first, then on its failure the player-pilot guard. */
  function HullCase(rec: Record, s: SessionState, t: TrackState): Step {
    if rec.fighter.None? then Step([], s, t, Fault("Fighter"))
    else if rec.fighter.value && rec.health.None? then Step([], s, t, Fault("Health"))
    else if rec.fighter.value && t.fighterHull != rec.health.value then
      Say(FighterHullAlert(rec.clock, rec.health.value), s, t.(fighterHull := rec.health.value))
    else if rec.playerPilot.None? then Step([], s, t, Fault("PlayerPilot"))
    else if !rec.playerPilot.value then Quiet(s, t)
    else if rec.health.None? then Step([], s, t, Fault("Health"))
    else Say(ShipHullAlert(rec.clock, rec.health.value), s, t)
  }

  function MusicCase(rec: Record, s: SessionState, t: TrackState): Step {
    match rec.musicTrack
    case None => Step([], s, t, Fault("MusicTrack"))
    case Some(track) => if track == "MainMenu" then Say(MainMenuAlert(rec.clock), s, t) else Quiet(s, t)
  }

  function CommanderCase(rec: Record, s: SessionState, t: TrackState): Step {
    match rec.name
    case None => Step([], s, t, Fault("Name"))
    case Some(name) => Say(CommanderAlert(rec.clock, name), FreshSession, t)
  }

  function DropCase(rec: Record, s: SessionState, t: TrackState): Step {
    if rec.typeName.None? then Step([], s, t, Fault("Type"))
    else if !Contains(rec.typeName.value, "$MULTIPLAYER") then Quiet(s, t)
    else if rec.typeLocalised.None? then Step([], s, t, Fault("Type_Localised"))
    else Say(DropAlert(rec.clock, rec.typeLocalised.value), FreshSession, t)
  }

  function TextCase(rec: Record, s: SessionState, t: TrackState): Step {
    match rec.message
    case None => Step([], s, t, Fault("Message"))
    case Some(message) => if IsBaitMessage(message) then Say(BaitAlert(rec.clock), s, t) else Quiet(s, t)
  }

  /** The condition `if 'Type_Localised'` tests a non-empty string literal and always holds, so
      the localised name is read even when only `Type` is present. */
  function CargoCase(rec: Record, s: SessionState, t: TrackState): Step {
    if rec.abandoned.None? then Step([], s, t, Fault("Abandoned"))
    else if rec.abandoned.value then Quiet(s, t)
    else if rec.typeLocalised.None? then Step([], s, t, Fault("Type_Localised"))
    else Say(CargoAlert(rec.clock, rec.typeLocalised.value), s, t)
  }

  /** The event tags `processevent` has a case for, and one more for every other tag. */
  datatype EventKind =
    | ShipTargeted | Bounty | MissionRedirected | ReservoirReplenished | FighterDestroyed
    | LaunchFighter | ShieldState | HullDamage | Died | Music | Commander
    | SupercruiseDestinationDrop | ReceiveText | EjectCargo | Shutdown | Unhandled

  const HandledEvents: seq<string> := ["ShipTargeted", "Bounty", "MissionRedirected", "ReservoirReplenished",
    "FighterDestroyed", "LaunchFighter", "ShieldState", "HullDamage", "Died", "Music", "Commander",
    "SupercruiseDestinationDrop", "ReceiveText", "EjectCargo", "Shutdown"]

  /** Which case of the `match` an event tag selects. The length tests only make proofs cheaper. */
  function KindOf(tag: string): EventKind {
    if |tag| == 12 && tag == "ShipTargeted" then ShipTargeted
    else if |tag| == 6 && tag == "Bounty" then Bounty
    else if |tag| == 17 && tag == "MissionRedirected" then MissionRedirected
    else if |tag| == 20 && tag == "ReservoirReplenished" then ReservoirReplenished
    else if |tag| == 16 && tag == "FighterDestroyed" then FighterDestroyed
    else if |tag| == 13 && tag == "LaunchFighter" then LaunchFighter
    else if |tag| == 11 && tag == "ShieldState" then ShieldState
    else if |tag| == 10 && tag == "HullDamage" then HullDamage
    else if |tag| == 4 && tag == "Died" then Died
    else if |tag| == 5 && tag == "Music" then Music
    else if |tag| == 9 && tag == "Commander" then Commander
    else if |tag| == 26 && tag == "SupercruiseDestinationDrop" then SupercruiseDestinationDrop
    else if |tag| == 11 && tag == "ReceiveText" then ReceiveText
    else if |tag| == 10 && tag == "EjectCargo" then EjectCargo
    else if |tag| == 8 && tag == "Shutdown" then Shutdown
    else Unhandled
  }

  /** The `match` on the event tag. A guard that fails falls through to the end: nothing happens. */
  function Dispatch(kind: EventKind, rec: Record, s: SessionState, t: TrackState): Step {
    match kind
    case ShipTargeted => if rec.ship.Some? then ScanCase(rec, s, t) else Quiet(s, t)
    case Bounty => BountyCase(rec, s, t)
    case MissionRedirected => MissionCase(rec, s, t)
    case ReservoirReplenished => FuelCase(rec, s, t)
    case FighterDestroyed => Say(FighterDestroyedAlert(rec.clock), s, t)
    case LaunchFighter => LaunchCase(rec, s, t)
    case ShieldState => ShieldCase(rec, s, t)
    case HullDamage => HullCase(rec, s, t)
    case Died => Say(DiedAlert(rec.clock), s, t)
    case Music => MusicCase(rec, s, t)
    case Commander => CommanderCase(rec, s, t)
    case SupercruiseDestinationDrop => DropCase(rec, s, t)
    case ReceiveText => TextCase(rec, s, t)
    case EjectCargo => CargoCase(rec, s, t)
    case Shutdown => Step([ShutdownAlert(rec.clock)], s, t, Exit)
    case Unhandled => Quiet(s, t)
  }

  /** One call of `processevent`, with every `logevent` call it makes counted in `logged`. */
  function Classify(rec: Record, s: SessionState, t: TrackState): (r: Step)
    ensures r.track.logged == t.logged + |r.alerts|
  {
    var st := Dispatch(KindOf(rec.event), rec, s, t);
    st.(track := st.track.(logged := t.logged + |st.alerts|))
  }

  /** Only a Shutdown record makes `processevent` exit, and it always does. */
  lemma ExitIffShutdown(rec: Record, s: SessionState, t: TrackState)
    ensures Classify(rec, s, t).outcome == Exit <==> rec.event == "Shutdown"
  {
    DispatchExit(KindOf(rec.event), rec, s, t);
  }

  lemma DispatchExit(kind: EventKind, rec: Record, s: SessionState, t: TrackState)
    ensures Dispatch(kind, rec, s, t).outcome == Exit <==> kind == Shutdown
  {
    match kind
    case ShipTargeted =>
    case Bounty =>
    case MissionRedirected =>
    case ReservoirReplenished =>
    case FighterDestroyed =>
    case LaunchFighter =>
    case ShieldState =>
    case HullDamage =>
    case Died =>
    case Music =>
    case Commander =>
    case SupercruiseDestinationDrop =>
    case ReceiveText =>
    case EjectCargo =>
    case Shutdown =>
    case Unhandled =>
  }

  /** The main loop over the records read so far: each is handled in turn until one ends the
      run (Shutdown or a missing key); `consumed` counts the records handled, that one included. */
  datatype Trace = Trace(alerts: seq<Alert>, session: SessionState, track: TrackState, consumed: nat, stop: Outcome)

  function Feed(recs: seq<Record>, s: SessionState, t: TrackState): (r: Trace)
    ensures r.consumed <= |recs|
    ensures r.stop == Continue ==> r.consumed == |recs|
    ensures r.stop != Continue ==> 1 <= r.consumed && (r.stop == Exit <==> recs[r.consumed - 1].event == "Shutdown")
    decreases |recs|
  {
    if recs == [] then Trace([], s, t, 0, Continue)
    else
      var st := Classify(recs[0], s, t);
      ExitIffShutdown(recs[0], s, t);
      if st.outcome != Continue then Trace(st.alerts, st.session, st.track, 1, st.outcome)
      else
        var rest := Feed(recs[1..], st.session, st.track);
        Trace(st.alerts + rest.alerts, rest.session, rest.track, 1 + rest.consumed, rest.stop)
  }

  /** The loop over a single record is one call of `processevent`. */
  lemma FeedSingle(rec: Record, s: SessionState, t: TrackState)
    ensures var st := Classify(rec, s, t);
      Feed([rec], s, t) == Trace(st.alerts, st.session, st.track, 1, st.outcome)
  {
    assert [rec][1..] == [];
  }

  /** The records are handled in order: the loop over `xs + ys` is the loop over `xs`, and, unless
      a record of `xs` ended the run, the loop over `ys` from the states it left. */
  lemma {:induction false} FeedAppend(xs: seq<Record>, ys: seq<Record>, s: SessionState, t: TrackState)
    ensures var a := Feed(xs, s, t);
      Feed(xs + ys, s, t) ==
        if a.stop != Continue then a
        else
          var b := Feed(ys, a.session, a.track);
          Trace(a.alerts + b.alerts, b.session, b.track, a.consumed + b.consumed, b.stop)
    decreases |xs|
  {
    if xs == [] {
      assert xs + ys == ys;
    } else {
      var rec, tail := xs[0], xs[1..];
      assert (xs + ys)[0] == rec && (xs + ys)[1..] == tail + ys;
      var st := Classify(rec, s, t);
      if st.outcome == Continue {
        FeedAppend(tail, ys, st.session, st.track);
        var a := Feed(tail, st.session, st.track);
        if a.stop == Continue {
          AppendAssoc(st.alerts, a.alerts, Feed(ys, a.session, a.track).alerts);
        }
      }
    }
  }

  lemma AppendAssoc<T>(a: seq<T>, b: seq<T>, c: seq<T>)
    ensures a + b + c == a + (b + c)
  {
  }
}
