# ED AFK Monitor, modelled in Dafny

ED AFK Monitor watches the journal that Elite Dangerous writes while a ship sits unattended in a
combat zone. It turns selected journal events into notifications: a coloured line on the
terminal, a message to a Discord webhook, and a mention of the user for the serious ones. It keeps
two pieces of state. The *session* (`Instance`) is the current encounter: which ships have been
scanned, the number of kills, the time of the last kill and the total of the intervals between
kills. The *track* (`Tracking`) lasts for the whole run: the last fighter hull reading, the number
of `logevent` calls, and completed massacre missions.

This project models both scripts:

- `afk_monitor.py`. Its per-event handling `processevent` is a pure transition,
  `Classifier.Classify`, from a record and the two states to the `logevent` calls it makes (each
  an `Alert`: the clock and the values the message shows), the two new states and the outcome.
  `Classifier.NoticeOf` words an alert as the arguments of its call. The imperative form,
  `Monitor.Monitor.ProcessEvent`, updates the `Instance` and `Tracking` objects field by field and
  is proved against `Classify`. It also covers:
  - `logevent`, as `Router.Emit` and `Monitor.Monitor.LogEvent`;
  - the main loop, as `Classifier.Feed` and `Monitor.Monitor.Drain` and `Monitor.Monitor.Run`;
  - `time_format`, as `Durations.TimeFormat`, with a parser for its output.
- `afk-monitor.py`, the older single-function script: `LegacyMonitor.ProcessLine`.

Modules:

| file | module | contents |
|---|---|---|
| wrappers.dfy | Wrappers | `Option` |
| text.dfy | Text | decimal rendering, Python `in` on strings, `str.title` on ASCII, clamped slicing, `round` |
| journal.dfy | Journal | one decoded journal record; an absent key is `None` |
| durations.dfy | Durations | `time_format`, and a parser that reads what it writes |
| router.dfy | Router | `logevent`'s routing by level |
| classifier.dfy | Classifier | the alerts and their wording, the cases of `processevent`, `Classify`, the main loop `Feed` |
| properties.dfy | Properties | what the cases and the loop promise |
| monitor.dfy | Monitor | the classes `Instance`, `Tracking` and `Monitor` with the imperative methods |
| legacy.dfy | LegacyMonitor | `processline` of the older script |

Modelling decisions:

- **KeyError.** A record without a key that the source reads with `[...]` gives the outcome
  `Fault(key)`. The state changes made before the failing read are kept: a Bounty clears the
  scans and counts the kill before it reads `Target`. In `afk_monitor.py` the bare `except:`
  ends the loop without the "stopped" notification.
- **The last kill.** `lastkill` is `Option<int>`. `None` stands for the integer 0 that the source
  starts with, which is falsy. Timestamps become whole seconds (`instant`) plus the local
  `HH:MM:SS` text (`clock`).
- **The output.** The monitor object keeps the `logevent` calls made so far, in order, as alerts.
  What the terminal and the remote channel have received is `Monitor.Output()`, the deliveries of
  those calls under the remote configuration.
- **Integer arithmetic.** `//` and `%` in `time_format` only see non-negative divisors, where
  Python floors and Dafny's Euclidean operators agree. `int(killstime / (kills - 1))` is
  `TruncDiv`, which truncates toward zero.

## Model

| member | source | states |
|---|---|---|
| Durations.TimeFormatNoneIff | afk_monitor.py:209-222 | `time_format` returns nothing exactly for a non-zero multiple of 86400 seconds: the hours wrap mod 24 and every component is then 0 |
| Durations.ComponentBounds | afk_monitor.py:211-214 | the hours, minutes and seconds shown are below 24, 60 and 60 |
| Durations.Decompose | afk_monitor.py:211-214 | the three components rebuild the time of day: seconds mod 86400 = 3600h + 60m + s |
| Durations.TimeFormatRoundTrip | afk_monitor.py:215-222 | reading back any text `time_format` returns gives the seconds modulo one day, for each of the shapes XhYmZs, YmZs, Zs and 0s |
| Durations.TimeFormatExactUnderADay | afk_monitor.py:209-222 | under a day, `time_format` always returns a text, and that text reads back to exactly the input |
| Durations.ParsesHms | afk_monitor.py:215-216 | the hours shape reads back to 3600h + 60m + s |
| Durations.ParsesMs | afk_monitor.py:217-218 | the minutes shape reads back to 60m + s |
| Durations.ParsesS | afk_monitor.py:219-220 | the seconds shape reads back to s |
| Text.DigitsValueOfNatToString | afk_monitor.py:215-220 | the decimal text of a count reads back to the count |
| Text.Title | afk_monitor.py:109 | title-casing keeps the length of the name |
| Text.TitleFrom | afk_monitor.py:109 | title-casing keeps every non-letter in place and maps letters to letters |
| Text.ContainsIff | afk_monitor.py:141 | Python's substring test `sub in s` holds exactly when `sub` occurs at some position of `s` |
| Text.Slice | afk-monitor.py:51 | a Python slice clamps its bounds: its length, and each character taken from position lo + k |
| Text.Round | afk_monitor.py:147 | the rounded percentage lies within one half of the exact value |
| Router.Emit | afk_monitor.py:89-100 | the terminal line is printed iff the level is above 0; a remote message is sent iff the webhook is available and the level is above 1; the message ends with the user mention iff the level is above 2 |
| Router.EmitMatchesLevelScale | afk_monitor.py:26-29 | with the webhook available, the sinks are exactly those of LOG_NONE/TERM/BOTH/PING, and the remote message opens with the emoji and the remote text, or the bold terminal text when there is none |
| Router.TerminalOnlyWithoutRemote | afk_monitor.py:8-13 | without the Discord library nothing is sent, whatever the level |
| Router.EmitMonotone | afk_monitor.py:94-97 | raising a level never removes a sink |
| Router.TerminalLineParts | afk_monitor.py:95 | the terminal line is `[clock]emoji text`, and the clock and the text can be read back out of it |
| Router.EmitAll | afk_monitor.py:89-100 | a run of calls delivers, one for one and in order, what each call delivers |
| Router.EmitAllAppend | afk_monitor.py:89-100 | the deliveries of two consecutive runs of calls are those of the joined run |
| Classifier.TruncDiv | afk_monitor.py:138 | `int()` of the mean truncates toward zero: for a non-negative total the quotient is the largest multiple not above it, for a negative total the smallest multiple not below it |
| Classifier.ExitIffShutdown | afk_monitor.py:204-207 | a record makes the monitor exit iff its event is Shutdown |
| Classifier.Feed | afk_monitor.py:238-253 | the loop handles at most the records it is given, all of them when none ends the run, and when one does, the run exits iff that last record handled is a Shutdown |
| Classifier.FeedSingle | afk_monitor.py:238-246 | one turn of the loop is one call of `processevent` |
| Classifier.FeedAppend | afk_monitor.py:238-246 | the records are handled in order: the loop over two stretches of records is the loop over the first, followed, unless a record of the first ended the run, by the loop over the second from the states the first left |
| Properties.ScanNotifiesNewKnownShips | afk_monitor.py:108-116 | a scan with `Ship` notifies at terminal level iff the name (localised, else title-cased) is on one of the two lists and not yet scanned, and then records it; nothing else changes |
| Properties.TargetWithoutShipIsSilent | afk_monitor.py:108 | a ShipTargeted record without `Ship` changes nothing |
| Properties.RescanIsSilent | afk_monitor.py:110 | scanning the same name a second time says and changes nothing |
| Properties.RepeatedScansNotifyOnce | afk_monitor.py:108-116 | any run of scans of one ship notifies at most once: exactly once when the ship is recognised and new |
| Properties.UnlistedShipScans | afk_monitor.py:110 | a scanned ship on neither list is ignored by `processevent`, whereas the older script prints it in HARD |
| Properties.FreshSessionWellFormed | afk_monitor.py:31-42 | a new or reset encounter satisfies the encounter invariant |
| Properties.ClassifyKeepsSessionWellFormed | afk_monitor.py:103-207 | every record keeps the invariant: distinct recognised scans, a last kill iff the kill count is non-zero, no interval before the second kill |
| Properties.BountyUpdatesCounters | afk_monitor.py:117-128 | a Bounty clears the scans, counts the kill, adds the interval since the previous kill, records its instant, and fails on a missing `Target` or `VictimFaction` after these updates |
| Properties.BountyAlerts | afk_monitor.py:130-140 | a complete Bounty logs the kill of the named victim and faction and, on every tenth kill, the summary with the truncated mean interval |
| Properties.KillShowsInterval | afk_monitor.py:122-135 | the kill names the victim and its faction and carries the time since the previous kill iff the encounter had one |
| Properties.KillNoticeEnds | afk_monitor.py:133 | the kill line ends with the faction in parentheses and then the interval suffix, which is empty for a first kill |
| Properties.KillNoticeColour | afk_monitor.py:131 | a kill is coloured HARD iff the ship is on the hard list and EASY for every other name |
| Properties.SummaryEveryTenthKill | afk_monitor.py:137-140 | a second notice follows iff the kill count is a multiple of 10; it shows the count and the truncated mean interval over kills - 1 intervals |
| Properties.KillRunCounters | afk_monitor.py:117-128 | after a run of kills, the kill count has risen by the run's length and the interval total by the time from the previous kill, or the run's first kill when there was none, to the run's last kill |
| Properties.TenthKillSummary | afk_monitor.py:133-140 | the tenth kill logs its kill line and then a summary of 10 kills over the time since the first kill |
| Properties.TenthKillAverage | afk_monitor.py:117-140 | ten kills from a fresh encounter end with the summary of (last - first) over 9 intervals |
| Properties.CommanderResetsSession | afk_monitor.py:186-189 | a Commander record announces the commander, resets the encounter and leaves the run's state alone |
| Properties.DropResetsSession | afk_monitor.py:190-193 | a drop whose type contains `$MULTIPLAYER` needs `Type_Localised` and then logs and resets the encounter; any other drop does nothing, whether or not `Type_Localised` is present |
| Properties.KillCountersChangeOnlyOnKillsAndResets | afk_monitor.py:117-193 | apart from Bounty, Commander and drops, no record changes the kill counters or drops a scan |
| Properties.MissionCountRisesOnlyOnMassacre | afk_monitor.py:141-144 | completed missions rise by one exactly on a MissionRedirected record whose name contains `Mission_Massacre` |
| Properties.FighterHullChangesOnlyOnFighterDamage | afk_monitor.py:168-170 | the stored fighter hull changes only on a fighter's HullDamage record, and then to its health |
| Properties.LoggedCountsEveryCall | afk_monitor.py:96 | over any stretch of the loop, `logged` grows by exactly the number of `logevent` calls and the mission count never falls |
| Properties.FuelNoticeColour | afk_monitor.py:146 | the fuel notice opens in BAD iff the fuel is below 10% and in WARN otherwise |
| Properties.FuelThresholds | afk_monitor.py:145-150 | fuel is reported at LOG_BOTH iff it is below 20% of the tank, in BAD below 10% and in WARN from 10% up |
| Properties.FuelWithoutReading | afk_monitor.py:145 | a refuelling record without `FuelMain` fails on that key |
| Properties.HullDamageCases | afk_monitor.py:168-178 | a fighter's hull damage is reported, and stored, iff it differs from the stored value, without reading `PlayerPilot`; otherwise the ship-hull case applies iff the player pilots, and `Health` is needed only by the fighter guard and the ship-hull report |
| Properties.HullDamageMissingKeys | afk_monitor.py:168-176 | which missing key (`Fighter`, `Health`, `PlayerPilot`) each branch of the two guards fails on, including `PlayerPilot` for a fighter whose health equals the stored one |
| Properties.CargoNameIsAlwaysLocalised | afk_monitor.py:199-203 | ejected cargo is named by `Type_Localised` only; with only `Type` present the record fails on `Type_Localised` |
| Properties.ShutdownLogsOnceAndExits | afk_monitor.py:204-207 | Shutdown logs one notice and exits |
| Properties.NothingAfterShutdown | afk_monitor.py:204-207 | the loop's result is decided by the records up to the first Shutdown |
| Properties.HandledTagsSelectCases | afk_monitor.py:107-207 | exactly the tags with a case select one |
| Properties.UnhandledEventsIgnored | afk_monitor.py:107 | a record whose tag has no case changes nothing |
| Properties.NoticeShape | afk_monitor.py:103-207 | every record makes at most two calls, each stamped with the record's time, and a failing record makes none |
| Properties.AlertLevel | afk_monitor.py:103-207 | every call's message carries its alert's time and a level from LOG_TERM to LOG_PING |
| Properties.DispatchFrame | afk_monitor.py:107-207 | each case leaves alone what it does not own: the kill counters and scans outside Bounty and the resets, the mission count outside a massacre mission, the fighter hull outside a fighter's damage |
| Properties.DispatchKeepsSessionWellFormed | afk_monitor.py:107-207 | each case keeps the encounter invariant |
| Classifier.DispatchExit | afk_monitor.py:204-207 | only the Shutdown case exits |
| Classifier.Notices | afk_monitor.py:89-100 | a run of alerts gives one `logevent` call each, in order, worded by `NoticeOf` |
| Monitor.Instance.constructor | afk_monitor.py:32-36 | a new encounter is empty |
| Monitor.Instance.Reset | afk_monitor.py:38-42 | `reset()` empties the encounter |
| Monitor.Instance.RecordKill | afk_monitor.py:118-128 | a kill clears the scans, counts itself, adds the interval since the previous kill to the total and returns it, and records its instant, as `AfterKill` and `Interval` say |
| Monitor.Tracking.constructor | afk_monitor.py:45-48 | the run's state starts at zero |
| Monitor.Monitor.constructor | afk_monitor.py:50-52 | the module-level `session` and `track` start fresh, with the remote configuration and journal file given and no call logged yet |
| Monitor.Monitor.LogEvent | afk_monitor.py:89-100 | one call is appended to the call log and counted in `logged` (line 96), and its delivery is appended to the output, changing nothing else |
| Monitor.Monitor.ProcessEvent | afk_monitor.py:103-207 | updating the objects in the source's order leaves the session, the tracking state and the call log as `Classify` says, with `logged` up by the number of calls the record made, and returns the outcome |
| Monitor.Monitor.OnScan | afk_monitor.py:108-116 | the scan case agrees with `ScanCase` |
| Monitor.Monitor.OnBounty | afk_monitor.py:117-140 | the Bounty case, statement by statement, agrees with `BountyCase`, including the updates made before a missing key |
| Monitor.Monitor.OnMission | afk_monitor.py:141-144 | the mission case agrees with `MissionCase`, failing on a missing `Name` |
| Monitor.Monitor.OnFuel | afk_monitor.py:145-150 | the fuel case agrees with `FuelCase`, failing on a missing `FuelMain` |
| Monitor.Monitor.OnLaunch | afk_monitor.py:155-157 | the launch case agrees with `LaunchCase`, failing on a missing `PlayerControlled` |
| Monitor.Monitor.OnShield | afk_monitor.py:158-167 | the shield case agrees with `ShieldCase`, failing on a missing `ShieldsUp` |
| Monitor.Monitor.OnHullDamage | afk_monitor.py:168-178 | the two guards, tried in order, agree with `HullCase` |
| Monitor.Monitor.OnMusic | afk_monitor.py:183-185 | the music case agrees with `MusicCase`, failing on a missing `MusicTrack` |
| Monitor.Monitor.OnCommander | afk_monitor.py:186-189 | the Commander case logs and then resets the encounter, as `CommanderCase` says |
| Monitor.Monitor.OnDrop | afk_monitor.py:190-193 | the drop case agrees with `DropCase`, failing on a missing `Type` or `Type_Localised` |
| Monitor.Monitor.OnText | afk_monitor.py:194-198 | the text case agrees with `TextCase`, failing on a missing `Message` |
| Monitor.Monitor.OnCargo | afk_monitor.py:199-203 | the cargo case agrees with `CargoCase`, failing on a missing `Abandoned` or `Type_Localised` |
| Monitor.Monitor.FeedAdvance | afk_monitor.py:238-246 | handling one record moves its calls from the rest of the run to the calls already made |
| Monitor.Monitor.Drain | afk_monitor.py:238-246 | the loop leaves the objects and the call log as `Feed` over the records says and returns how many it handled and how the last one ended |
| Monitor.Monitor.Run | afk_monitor.py:231-253 | the main loop logs the start, then the calls of `Feed` over the records; it logs the stop after Shutdown, or after Ctrl+C when no record stopped it, and none after a missing key |
| LegacyMonitor.ScanPrintsIffShip | afk-monitor.py:53-56 | a scan prints a line iff `Ship` is present, whatever list holds the name: the stamp, the label and the painted name |
| LegacyMonitor.ScanNameSelection | afk-monitor.py:54 | the localised name wins, else the title-cased internal name |
| LegacyMonitor.KillNameSelection | afk-monitor.py:58 | for a kill, the localised target name wins, else the title-cased internal name |
| LegacyMonitor.PaintedColourIff | afk-monitor.py:55 | the name is painted EASY iff it is on the easy list and HARD otherwise, followed by the colour reset |
| LegacyMonitor.StampShowsClock | afk-monitor.py:51 | with a full timestamp the stamp is `[`, characters 11-18, `]` |
| LegacyMonitor.ShortStampIsEmpty | afk-monitor.py:51 | a timestamp too short for the slice gives `[]` |
| LegacyMonitor.BountyLine | afk-monitor.py:57-60 | a kill prints the stamp, the label, the painted victim and the faction, iff both keys are present; otherwise it fails on `Target` or `VictimFaction` |
| LegacyMonitor.OtherEventsSilent | afk-monitor.py:52-60 | every other event prints nothing |

## Left out

- Reading the journal: finding the latest `Journal*` file, `argparse`, seeking to the end,
  `readline` and the one-second sleep. The model's input is the sequence of records appended to
  the journal, already decoded from JSON.
- JSON decoding and typing. The model assumes every record has `event` and `timestamp`. A key with
  a value of an unexpected type is not modelled; an absent key is.
- Time zones and `strftime`. Each record carries its local `HH:MM:SS` text as given. The
  start and stop notices take the wall clock as a parameter. The `use_utc` branch is not modelled:
  in the source it reads `logtime` before assigning it.
- Floating point. Kill intervals are whole seconds, so `total_seconds()` and the float sum
  are exact integers. `round` works on exact reals; for values that are not exact binary floats it
  may round differently from Python.
- Text.Round: its contract states only that the result is within one half of the input. It does
  not state the half-even tie rule, which is in its body.
- Text.Title: `str.title` is modelled on ASCII letters only. Other letters are kept unchanged.
- The Discord library: the import attempt (the library's availability is `Config.remoteAvailable`),
  `SyncWebhook.from_url` and the network send. A send is a `Delivery` in `Monitor.Output()`.
- The header that the main block prints and the "press ENTER" prompts. They are plain terminal
  output outside `logevent`.
- Ctrl+C is a flag that the interrupt came after the last record read. An interrupt in the middle
  of a record is not modelled.
- For the older script, the terminal print is the returned `Line` of one call of `processline`.
  Its endless loop over the journal is not modelled.
- Features that neither script has are not modelled: a verbosity table, duplicate suppression,
  and a record of the last event kind.
- Source quirks that the model keeps as written:
  - The cargo name always comes from `Type_Localised` (afk_monitor.py:200). The test
    `if 'Type_Localised'` checks a non-empty literal, so it always holds.
  - A kill of a ship on neither list is coloured EASY, although such a ship is never announced
    by a scan.
  - A HullDamage record that fails the fighter guard falls through to the player-pilot case.
  - `time_format` wraps the hours mod 24 and returns nothing for a non-zero whole number of days.
