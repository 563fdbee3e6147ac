/** The console transport of src/console/console-logger.ts: one rendered line per record, on the level's channel. */
module ConsoleTransport {
  import opened Wrappers
  import opened LogLevels
  import opened LogRecords
  import opened Logger

  /** The console method a line is written with. */
  datatype Channel = ErrorChannel | WarnChannel | InfoChannel | DebugChannel | TraceChannel

  /** A line written to the console. */
  datatype ConsoleLine = ConsoleLine(channel: Channel, text: string)

  /** The console logger's own template: the default one with the caller's file and line after the time. */
  const ConsoleFormatter := "[" + Placeholder("levelName") + "] " + Placeholder("timestampLocalIso") + " "
                            + Placeholder("filePathWithLine") + " " + Placeholder("scope") + " : "
                            + Placeholder("rawMessage")

  /** The `switch` on the record's level: Critical and Error share `console.error`. */
  function ChannelOf(l: Level): (c: Channel)
    ensures c == ErrorChannel <==> Rank(l) <= 1
    ensures l == Warn <==> c == WarnChannel
    ensures l == Info <==> c == InfoChannel
    ensures l == Trace <==> c == TraceChannel
    ensures l == Debug <==> c == DebugChannel
  {
    match l
    case Debug => DebugChannel
    case Critical => ErrorChannel
    case Error => ErrorChannel
    case Info => InfoChannel
    case Warn => WarnChannel
    case Trace => TraceChannel
  }

  /** Apart from the two error levels, every level has a channel of its own. */
  lemma ChannelsOfDistinctLevels(a: Level, b: Level)
    ensures ChannelOf(a) == ChannelOf(b) <==> a == b || (Rank(a) <= 1 && Rank(b) <= 1)
  {
  }

  /** What the console template renders: the default layout with `filePathWithLine` after the time. */
  lemma ConsoleTemplateRenders(m: Placeholders)
    ensures Render(ConsoleFormatter, m)
      == "[" + Lookup(m, "levelName") + "] " + Lookup(m, "timestampLocalIso") + " "
         + Lookup(m, "filePathWithLine") + " " + Lookup(m, "scope") + " : " + Lookup(m, "rawMessage")
  {
    assert SimpleName("levelName") && SimpleName("timestampLocalIso") && SimpleName("filePathWithLine");
    assert SimpleName("scope") && SimpleName("rawMessage");
    RenderFiveSlots("[", "levelName", "] ", "timestampLocalIso", " ", "filePathWithLine", " ", "scope", " : ",
                    "rawMessage", m);
  }

  class ConsoleLogger {
    const base: BaseLogger
    /** Everything written to the console so far, oldest first. */
    var output: seq<ConsoleLine>

    /** A console logger always has a template of its own. */
    predicate Valid()
      reads this, base
    {
      base.formatter.Some?
    }

    constructor()
      ensures fresh(base) && Valid()
      ensures base.level == Some(Debug) && base.formatter == Some(ConsoleFormatter)
      ensures output == []
    {
      var b := new BaseLogger();
      b.formatter := Some(ConsoleFormatter);
      base := b;
      output := [];
    }

    /**
     * `log`: renders the record with its own template or the console one, and writes
     * exactly one line on the channel of the record's level.
     */
    method Log(rec: LogRecord, r: Renderers)
      requires Valid()
      modifies this, rec
      ensures Valid() && base.level == old(base.level) && base.formatter == old(base.formatter)
      ensures output == old(output) + [ConsoleLine(ChannelOf(old(rec.level)),
        Render(ChooseTemplate(old(rec.formatter), base.formatter).value, old(rec.CurrentPlaceholders(r))))]
      ensures rec.Data() == old(rec.Data()) && rec.formatPlaceholders == Some(old(rec.CurrentPlaceholders(r)))
    {
      var formattedLog := base.FormatLog(rec, r);
      output := output + [ConsoleLine(ChannelOf(rec.level), formattedLog.value)];
    }
  }
}
