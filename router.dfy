/** `logevent`: from the integer level of one notification to what is printed on the terminal,
    what is sent to the remote channel, and whether the user is mentioned. */
module Router {
  import opened Wrappers
  import opened Text

  const LogNone := 0
  const LogTerm := 1
  const LogBoth := 2
  const LogPing := 3

  /** The arguments of one `logevent` call; `clock` is its time as HH:MM:SS (from the record's
      timestamp, or the wall clock when the call has none). */
  datatype Notice = Notice(text: string, remote: Option<string>, emoji: string, clock: string, level: int)

  /** Remote delivery as fixed at startup: whether the webhook library loaded, and the user id
      used for mentions. */
  datatype Config = Config(remoteAvailable: bool, userId: string)

  /** What one `logevent` call writes to each sink. */
  datatype Delivery = Delivery(terminal: Option<string>, remote: Option<string>)

  /** `[<clock>]<emoji> <text>` */
  function TerminalLine(n: Notice): string {
    "[" + n.clock + "]" + n.emoji + " " + n.text
  }

  /** The remote text, or the terminal text in bold when the call gave none. */
  function RemoteBody(n: Notice): string {
    n.remote.GetOr("**" + n.text + "**")
  }

  function MentionToken(userId: string): string {
    " <@" + userId + ">"
  }

  /** `<emoji> <body> {<clock>}` followed by the mention at the highest level. */
  function RemoteLine(n: Notice, cfg: Config): string {
    n.emoji + " " + RemoteBody(n) + " {" + n.clock + "}" + (if n.level > 2 then MentionToken(cfg.userId) else "")
  }

  /** The effect of one `logevent` call on the two sinks. */
  function Emit(n: Notice, cfg: Config): (d: Delivery)
    ensures d.terminal.Some? <==> n.level > 0
    ensures d.remote.Some? <==> cfg.remoteAvailable && n.level > 1
    ensures d.remote.Some? ==> (EndsWith(d.remote.value, MentionToken(cfg.userId)) <==> n.level > 2)
  {
    var remote := if cfg.remoteAvailable && n.level > 1 then Some(RemoteLine(n, cfg)) else None;
    NoMentionAfterClock(n.emoji + " " + RemoteBody(n) + " {" + n.clock, cfg.userId);
    Delivery(if n.level > 0 then Some(TerminalLine(n)) else None, remote)
  }

  /** A message that ends with the closing brace of the clock does not end with a mention. */
  lemma NoMentionAfterClock(head: string, userId: string)
    ensures !EndsWith(head + "}", MentionToken(userId))
  {
    var s, m := head + "}", MentionToken(userId);
    assert s[|s| - 1] == '}' && m[|m| - 1] == '>';
  }

  /** The sinks of the levels, as the configuration's level scale names them:
      0 suppressed, 1 terminal only, 2 terminal and remote, 3 terminal, remote and mention. */
  datatype Sinks = Sinks(terminal: bool, remote: bool, mention: bool)

  function LevelSinks(level: int): Sinks {
    if level <= LogNone then Sinks(false, false, false)
    else if level == LogTerm then Sinks(true, false, false)
    else if level == LogBoth then Sinks(true, true, false)
    else Sinks(true, true, true)
  }

  /** With the remote channel available, `logevent` delivers to exactly the sinks of the level scale,
      and the remote message carries the call's remote text (or the bold terminal text). */
  lemma EmitMatchesLevelScale(n: Notice, cfg: Config)
    requires cfg.remoteAvailable
    ensures Emit(n, cfg).terminal.Some? == LevelSinks(n.level).terminal
    ensures Emit(n, cfg).remote.Some? == LevelSinks(n.level).remote
    ensures Emit(n, cfg).remote.Some? ==>
              (EndsWith(Emit(n, cfg).remote.value, MentionToken(cfg.userId)) == LevelSinks(n.level).mention)
    ensures Emit(n, cfg).remote.Some? ==>
              Emit(n, cfg).remote.value[..|n.emoji| + 1 + |RemoteBody(n)|] == n.emoji + " " + RemoteBody(n)
  {
    var d := Emit(n, cfg);
    if d.remote.Some? {
      var prefix := n.emoji + " " + RemoteBody(n);
      assert d.remote.value == prefix + (" {" + n.clock + "}" + (if n.level > 2 then MentionToken(cfg.userId) else ""));
    }
  }

  /** Without the remote channel nothing is ever sent, whatever the level. */
  lemma TerminalOnlyWithoutRemote(n: Notice, cfg: Config)
    requires !cfg.remoteAvailable
    ensures Emit(n, cfg).remote.None?
    ensures Emit(n, cfg).terminal.Some? <==> n.level > 0
  {
  }

  /** Raising the level never removes a sink. */
  lemma EmitMonotone(n: Notice, level': int, cfg: Config)
    requires n.level <= level'
    ensures Emit(n, cfg).terminal.Some? ==> Emit(n.(level := level'), cfg).terminal.Some?
    ensures Emit(n, cfg).remote.Some? ==> Emit(n.(level := level'), cfg).remote.Some?
  {
  }

  /** The terminal line gives back the clock, the emoji and the text it was made from. */
  lemma TerminalLineParts(n: Notice)
    ensures var line := TerminalLine(n);
      |line| == |n.clock| + |n.emoji| + |n.text| + 3 &&
      line[1..1 + |n.clock|] == n.clock &&
      line[|n.clock| + 3 + |n.emoji|..] == n.text
  {
    var line := TerminalLine(n);
    assert line == "[" + n.clock + "]" + n.emoji + " " + n.text;
  }

  /** The effect of a whole sequence of calls, in order. */
  function EmitAll(ns: seq<Notice>, cfg: Config): (ds: seq<Delivery>)
    ensures |ds| == |ns|
    ensures forall i :: 0 <= i < |ns| ==> ds[i] == Emit(ns[i], cfg)
  {
    if ns == [] then [] else [Emit(ns[0], cfg)] + EmitAll(ns[1..], cfg)
  }

  /** The deliveries of two runs of calls, one after the other, are those of the joined run. */
  lemma {:induction false} EmitAllAppend(xs: seq<Notice>, ys: seq<Notice>, cfg: Config)
    ensures EmitAll(xs + ys, cfg) == EmitAll(xs, cfg) + EmitAll(ys, cfg)
  {
    if xs != [] {
      assert (xs + ys)[1..] == xs[1..] + ys;
      EmitAllAppend(xs[1..], ys, cfg);
    }
  }
}
