/** A journal line after JSON decoding: the `event` tag, the instant of `timestamp`, and the
    fields the monitors read. A key absent from the JSON object is `None`. */
module Journal {
  import opened Wrappers

  datatype Record = Record(
    event: string,
    timestamp: string,                 // the raw ISO-8601 text of "timestamp"
    instant: int,                      // the same instant in whole seconds
    clock: string,                     // the same instant as HH:MM:SS in the local zone
    ship: Option<string>,              // "Ship"
    shipLocalised: Option<string>,     // "Ship_Localised"
    target: Option<string>,            // "Target"
    targetLocalised: Option<string>,   // "Target_Localised"
    victimFaction: Option<string>,     // "VictimFaction"
    name: Option<string>,              // "Name"
    fuelMain: Option<real>,            // "FuelMain"
    playerControlled: Option<bool>,    // "PlayerControlled"
    shieldsUp: Option<bool>,           // "ShieldsUp"
    fighter: Option<bool>,             // "Fighter"
    health: Option<real>,              // "Health"
    playerPilot: Option<bool>,         // "PlayerPilot"
    musicTrack: Option<string>,        // "MusicTrack"
    typeName: Option<string>,          // "Type"
    typeLocalised: Option<string>,     // "Type_Localised"
    message: Option<string>,           // "Message"
    abandoned: Option<bool>)           // "Abandoned"
}
