/** `processline` of the older script afk-monitor.py: a single line printed for a scan or a kill,
    nothing else, no state. The line is returned instead of printed. */
module LegacyMonitor {
  import opened Wrappers
  import opened Text
  import opened Journal

  // The script's two switches, both on.
  const ConfigScans := true
  const ConfigBounties := true

  const ShipsEasy: seq<string> := ["Adder", "Asp Explorer", "Asp Scout", "Cobra Mk III", "Cobra Mk IV",
    "Diamondback Explorer", "Diamondback Scout", "Eagle", "Imperial Courier", "Imperial Eagle",
    "Krait Phantom", "Sidewinder", "Viper Mk III", "Viper Mk IV"]

  const ColEasy := "\U{1B}[38;5;157m"
  const ColHard := "\U{1B}[38;5;217m"
  const ColEnd := "\U{1B}[0m"

  const ScanLabel := "\U{1F50E} Scan: "
  const KillLabel := "\U{1F4A5} Kill: "

  /** What handling one line does: print nothing, print one line, or stop on a missing key. */
  datatype LineResult = Silent | Line(text: string) | Fault(key: string)

  /** Characters 11 to 18 of the timestamp (its HH:MM:SS part) in brackets. */
  function Stamp(rec: Record): string {
    "[" + Slice(rec.timestamp, 11, 19) + "]"
  }

  /** A ship name in the colour of its list: EASY for the easy list, HARD for every other name. */
  function Painted(ship: string): string {
    (if ship in ShipsEasy then ColEasy else ColHard) + ship + ColEnd
  }

  function ProcessLine(rec: Record): LineResult {
    if rec.event == "ShipTargeted" && ConfigScans && rec.ship.Some? then
      Line(Stamp(rec) + ScanLabel + Painted(LegacyScanName(rec)))
    else if rec.event == "Bounty" && ConfigBounties then
      if rec.targetLocalised.None? && rec.target.None? then Fault("Target")
      else
        if rec.victimFaction.None? then Fault("VictimFaction")
        else Line(Stamp(rec) + KillLabel + Painted(LegacyKillName(rec)) + " (" + rec.victimFaction.value + ")")
    else Silent
  }

  /** The name a scan reports: the localised name, else the internal name title-cased. */
  function LegacyScanName(rec: Record): string
    requires rec.ship.Some?
  {
    rec.shipLocalised.GetOr(Title(rec.ship.value))
  }

  /** The name a kill reports: the localised target name, else the internal one title-cased. */
  function LegacyKillName(rec: Record): string
    requires rec.targetLocalised.Some? || rec.target.Some?
  {
    if rec.targetLocalised.Some? then rec.targetLocalised.value else Title(rec.target.value)
  }

  /** A scan prints a line exactly when the record names the ship, whichever list (if any) holds
      it, and the line is the stamp, the label and the painted name. */
  lemma ScanPrintsIffShip(rec: Record)
    requires rec.event == "ShipTargeted"
    ensures ProcessLine(rec).Line? <==> rec.ship.Some?
    ensures ProcessLine(rec).Silent? <==> rec.ship.None?
    ensures rec.ship.Some? ==> ProcessLine(rec).text == Stamp(rec) + ScanLabel + Painted(LegacyScanName(rec))
  {
  }

  /** The localised name wins; otherwise the internal name is title-cased. */
  lemma ScanNameSelection(rec: Record)
    requires rec.ship.Some?
    ensures rec.shipLocalised.Some? ==> LegacyScanName(rec) == rec.shipLocalised.value
    ensures rec.shipLocalised.None? ==> LegacyScanName(rec) == Title(rec.ship.value) &&
                                        |LegacyScanName(rec)| == |rec.ship.value|
  {
  }

  /** For a kill, too, the localised name wins; otherwise the internal name is title-cased. */
  lemma KillNameSelection(rec: Record)
    requires rec.targetLocalised.Some? || rec.target.Some?
    ensures rec.targetLocalised.Some? ==> LegacyKillName(rec) == rec.targetLocalised.value
    ensures rec.targetLocalised.None? ==> LegacyKillName(rec) == Title(rec.target.value) &&
                                          |LegacyKillName(rec)| == |rec.target.value|
  {
  }

  /** The painted name starts with EASY exactly when the name is on the easy list, and with
      HARD otherwise; the name follows and the colour is reset after it. */
  lemma PaintedColourIff(ship: string)
    ensures StartsWith(Painted(ship), ColEasy) <==> ship in ShipsEasy
    ensures StartsWith(Painted(ship), ColHard) <==> ship !in ShipsEasy
    ensures Painted(ship)[|ColEasy|..|ColEasy| + |ship|] == ship
    ensures EndsWith(Painted(ship), ColEnd)
  {
    var p := Painted(ship);
    assert ColEasy[7] != ColHard[7];
    if ship in ShipsEasy {
      assert p == ColEasy + (ship + ColEnd);
      assert p[7] == ColEasy[7];
    } else {
      assert p == ColHard + (ship + ColEnd);
      assert p[7] == ColHard[7];
    }
  }

  /** With a full-length timestamp the stamp is `[`, characters 11 to 18, and `]`. */
  lemma StampShowsClock(rec: Record)
    requires |rec.timestamp| >= 19
    ensures |Stamp(rec)| == 10
    ensures Stamp(rec)[0] == '[' && Stamp(rec)[9] == ']'
    ensures Stamp(rec)[1..9] == rec.timestamp[11..19]
  {
  }

  /** A short timestamp is cut, not refused: below 12 characters the brackets are empty. */
  lemma ShortStampIsEmpty(rec: Record)
    requires |rec.timestamp| <= 11
    ensures Stamp(rec) == "[]"
  {
  }

  /** A kill prints the stamp, the label, the painted victim and the faction in parentheses; a
      record without a victim or without a faction stops the script on that key. */
  lemma BountyLine(rec: Record)
    requires rec.event == "Bounty"
    ensures rec.targetLocalised.None? && rec.target.None? <==> ProcessLine(rec) == Fault("Target")
    ensures (rec.targetLocalised.Some? || rec.target.Some?) && rec.victimFaction.None? <==>
              ProcessLine(rec) == Fault("VictimFaction")
    ensures ProcessLine(rec).Line? <==> (rec.targetLocalised.Some? || rec.target.Some?) && rec.victimFaction.Some?
    ensures ProcessLine(rec).Line? ==>
              ProcessLine(rec).text == Stamp(rec) + KillLabel + Painted(LegacyKillName(rec)) + " (" + rec.victimFaction.value + ")" &&
              EndsWith(ProcessLine(rec).text, " (" + rec.victimFaction.value + ")")
  {
  }

  /** Every other event prints nothing. */
  lemma OtherEventsSilent(rec: Record)
    requires rec.event != "ShipTargeted" && rec.event != "Bounty"
    ensures ProcessLine(rec) == Silent
  {
  }
}
