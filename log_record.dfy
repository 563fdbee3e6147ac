/**
 * The log record of src/logs/log-record.ts: built once per log call from the message,
 * the static parameters and the enum message, with a lazily computed placeholder map.
 */
module LogRecords {
  import opened Wrappers
  import opened Strings
  import opened Values
  import opened LogLevels
  import opened StackFrames

  /** `metaData`: absent, the frame list of an Error, or the single caller frame. */
  datatype MetaData = NoMeta | Frames(frames: seq<StackFrame>) | Single(frame: StackFrame)

  /** The fields of a record other than its placeholder cache. */
  datatype RecordData = RecordData(
    level: Level,
    timestamp: int,
    scope: string,
    log: Payload,
    formatter: Option<string>,
    rawMessage: Message,
    metaData: MetaData)

  /**
   * Date arithmetic and serialisation, left abstract: `toISOString` of an epoch time,
   * `getTimezoneOffset` in minutes, `String(date)`, and `jsonStringifyRecursive`
   * (which may give `undefined`).
   */
  datatype Renderers = Renderers(
    toIso: int -> string,
    tzOffsetMinutes: int -> int,
    dateText: int -> string,
    stringify: Value -> Option<string>)

  /** The placeholder map; `None` stands for a `null` or `undefined` value. */
  type Placeholders = map<string, Option<string>>

  const PlaceholderNames: set<string> := {
    "levelName", "levelRank", "timestampEpoch", "timestampISO", "scope", "message",
    "rawMessage", "timestampLocalIso", "fileNameWithLine", "filePathWithLine", "fullFilePath", "method"
  }

  /** The key under which the static parameters are nested in the payload. */
  const StaticParamsKey := "staticParams"

  /** The error object without its `stack`, as the object rest of the constructor leaves it. */
  function ErrorFields(obj: ErrorObject): Payload {
    map["nativeError" := ErrorVal(obj.nativeError), "name" := Str(obj.name), "message" := Str(obj.message)]
  }

  /** The metadata an error's trace becomes. */
  function TraceMeta(trace: Option<seq<StackFrame>>): MetaData {
    match trace
    case None => NoMeta
    case Some(fs) => Frames(fs)
  }

  /** The normalised message fields, and the metadata the message brings. */
  function NormalizeMessage(m: Message, site: Site): (Payload, MetaData) {
    match m
    case Plain(v) => (map["message" := v], NoMeta)
    case Err(e) =>
      var obj := ToErrorObject(e, site);
      (ErrorFields(obj), TraceMeta(obj.stack))
  }

  /**
   * `{ ...message, staticParams, ...enumMessage }`: later keys win, and the
   * static parameters stay nested under one key.
   */
  function BuildPayload(fields: Payload, params: Payload, enumMessage: Option<Payload>): (p: Payload)
    ensures p.Keys == fields.Keys + {StaticParamsKey} + (if enumMessage.Some? then enumMessage.value.Keys else {})
    ensures forall k :: k in p && enumMessage.Some? && k in enumMessage.value ==> p[k] == enumMessage.value[k]
    ensures enumMessage.None? || StaticParamsKey !in enumMessage.value ==> p[StaticParamsKey] == Obj(params)
    ensures forall k ::
      (k in fields && k != StaticParamsKey && (enumMessage.None? || k !in enumMessage.value)) ==> p[k] == fields[k]
  {
    fields[StaticParamsKey := Obj(params)] + enumMessage.GetOr(map[])
  }

  /** The record the constructor builds, before any call-stack capture. */
  function BuildRecord(level: Level, scope: string, message: Message, formatter: Option<string>,
                       params: Payload, enumMessage: Option<Payload>, now: int, site: Site): RecordData
  {
    var (fields, meta) := NormalizeMessage(message, site);
    RecordData(level, now, scope, BuildPayload(fields, params, enumMessage), formatter, message, meta)
  }

  /** A plain message is kept under `message`, the parameters nested, the enum fields applied last. */
  lemma PlainPayload(v: Value, level: Level, scope: string, formatter: Option<string>,
                     params: Payload, enumMessage: Option<Payload>, now: int, site: Site)
    ensures var d := BuildRecord(level, scope, Plain(v), formatter, params, enumMessage, now, site);
      && d.log.Keys == {"message", StaticParamsKey} + (if enumMessage.Some? then enumMessage.value.Keys else {})
      && (enumMessage.None? || "message" !in enumMessage.value ==> d.log["message"] == v)
      && (enumMessage.None? || StaticParamsKey !in enumMessage.value ==> d.log[StaticParamsKey] == Obj(params))
      && (forall k :: enumMessage.Some? && k in enumMessage.value ==> d.log[k] == enumMessage.value[k])
      && d.metaData == NoMeta
      && d.rawMessage == Plain(v) && d.level == level && d.scope == scope && d.formatter == formatter
      && d.timestamp == now
  {
  }

  /** An Error message contributes name, message and the native error but never its stack text. */
  lemma ErrorPayloadKeys(e: JsError, level: Level, scope: string, formatter: Option<string>,
                         params: Payload, enumMessage: Option<Payload>, now: int, site: Site)
    ensures var d := BuildRecord(level, scope, Err(e), formatter, params, enumMessage, now, site);
      && d.log.Keys == {"nativeError", "name", "message", StaticParamsKey}
                       + (if enumMessage.Some? then enumMessage.value.Keys else {})
      && (enumMessage.None? || "stack" !in enumMessage.value ==> "stack" !in d.log)
  {
    var fields := ErrorFields(ToErrorObject(e, site));
    assert fields.Keys == {"nativeError", "name", "message"};
    assert NormalizeMessage(Err(e), site).0 == fields;
  }

  /** The error's fields keep their values unless an enum message overrides them; the name defaults to "Error". */
  lemma ErrorPayload(e: JsError, level: Level, scope: string, formatter: Option<string>,
                     params: Payload, enumMessage: Option<Payload>, now: int, site: Site)
    ensures var d := BuildRecord(level, scope, Err(e), formatter, params, enumMessage, now, site);
      && (enumMessage.None? || "name" !in enumMessage.value ==> d.log["name"] == Str(e.name.GetOr("Error")))
      && (enumMessage.None? || "nativeError" !in enumMessage.value ==> d.log["nativeError"] == ErrorVal(e))
      && (enumMessage.None? || "message" !in enumMessage.value ==> d.log["message"] == Str(e.message))
      && d.rawMessage == Err(e)
  {
    var fields := ErrorFields(ToErrorObject(e, site));
    assert NormalizeMessage(Err(e), site).0 == fields;
    assert fields["name"] == Str(e.name.GetOr("Error")) && fields["message"] == Str(e.message);
  }

  /** The metadata of an Error record is the frame list parsed from its stack text, if it has one. */
  lemma ErrorMetaData(e: JsError, level: Level, scope: string, formatter: Option<string>,
                      params: Payload, enumMessage: Option<Payload>, now: int, site: Site)
    ensures BuildRecord(level, scope, Err(e), formatter, params, enumMessage, now, site).metaData
      == (if e.stack.None? then NoMeta else Frames(ParseFrames(StackLines(e.stack.value), site)))
  {
    assert NormalizeMessage(Err(e), site).1 == TraceMeta(ToErrorObject(e, site).stack);
  }

  /** The frame the file placeholders read: the first of a list, or the single frame. */
  function SelectedFrame(meta: MetaData): Option<StackFrame> {
    match meta
    case NoMeta => None
    case Frames(fs) => if fs == [] then None else Some(fs[0])
    case Single(f) => Some(f)
  }

  /** `frame?.field ?? ""`. */
  function FrameText(frame: Option<StackFrame>, field: StackFrame -> Option<string>): string {
    match frame
    case None => ""
    case Some(f) => field(f).GetOr("")
  }

  /** `generateFormatPlaceholders`: the value of every placeholder name. */
  function PlaceholdersOf(d: RecordData, r: Renderers): Placeholders {
    var frame := SelectedFrame(d.metaData);
    map[
      "levelName" := Some(Name(d.level)),
      "levelRank" := Some(NatToString(Rank(d.level))),
      "timestampEpoch" := Some(r.dateText(d.timestamp)),
      "timestampISO" := Some(r.toIso(d.timestamp)),
      "scope" := Some(d.scope),
      "message" := r.stringify(Obj(d.log)),
      "rawMessage" := r.stringify(MessageValue(d.rawMessage)),
      "timestampLocalIso" := Some(r.toIso(d.timestamp - r.tzOffsetMinutes(d.timestamp) * 60000)),
      "fileNameWithLine" := Some(FrameText(frame, (f: StackFrame) => f.fileNameWithLine)),
      "filePathWithLine" := Some(FrameText(frame, (f: StackFrame) => f.filePathWithLine)),
      "fullFilePath" := Some(FrameText(frame, (f: StackFrame) => f.fullFilePath)),
      "method" := Some(FrameText(frame, (f: StackFrame) => f.methodName))
    ]
  }

  /** The map has exactly the twelve placeholder names as keys. */
  lemma PlaceholderKeys(d: RecordData, r: Renderers)
    ensures PlaceholdersOf(d, r).Keys == PlaceholderNames
  {
  }

  /** The level and scope placeholders are taken from the severity table and the record. */
  lemma PlaceholderValues(d: RecordData, r: Renderers)
    ensures PlaceholdersOf(d, r)["levelName"] == Some(Name(d.level))
    ensures PlaceholdersOf(d, r)["levelRank"] == Some(NatToString(Rank(d.level)))
    ensures DigitsValue(PlaceholdersOf(d, r)["levelRank"].value) == Rank(d.level)
    ensures d.level == Critical ==> PlaceholdersOf(d, r)["levelRank"] == Some("0")
    ensures PlaceholdersOf(d, r)["scope"] == Some(d.scope)
  {
    NatToStringRoundTrip(Rank(d.level));
  }

  /** The file placeholders are the fields of the selected frame, or "" where it has none. */
  lemma FilePlaceholders(d: RecordData, r: Renderers)
    ensures var p, frame := PlaceholdersOf(d, r), SelectedFrame(d.metaData);
      && p["fullFilePath"] == Some(if frame.None? then "" else frame.value.fullFilePath.GetOr(""))
      && p["fileNameWithLine"] == Some(if frame.None? then "" else frame.value.fileNameWithLine.GetOr(""))
      && p["filePathWithLine"] == Some(if frame.None? then "" else frame.value.filePathWithLine.GetOr(""))
      && p["method"] == Some(if frame.None? then "" else frame.value.methodName.GetOr(""))
  {
  }

  /** The frame read is the first of a list, the single caller frame, or none. */
  lemma SelectedFrameCases(meta: MetaData)
    ensures meta.Frames? && meta.frames != [] ==> SelectedFrame(meta) == Some(meta.frames[0])
    ensures meta.Single? ==> SelectedFrame(meta) == Some(meta.frame)
    ensures meta == NoMeta || meta == Frames([]) <==> SelectedFrame(meta).None?
  {
  }

  class LogRecord {
    var level: Level
    var timestamp: int
    var scope: string
    var log: Payload
    var formatter: Option<string>
    var rawMessage: Message
    var metaData: MetaData
    var formatPlaceholders: Option<Placeholders>
    /** Declared by the record but never assigned, so it is always `undefined` when read. */
    var timestampGenerator: Option<() -> int>

    function Data(): RecordData
      reads this
    {
      RecordData(level, timestamp, scope, log, formatter, rawMessage, metaData)
    }

    /** What `getFormatPlaceholders` returns when called now. */
    function CurrentPlaceholders(r: Renderers): Placeholders
      reads this
    {
      formatPlaceholders.GetOr(PlaceholdersOf(Data(), r))
    }

    /**
     * The constructor. The generator argument is never consulted: the field tested
     * is the record's own, still unset, so the timestamp is always the current clock `now`.
     */
    constructor(level: Level, scope: string, message: Message, formatter: Option<string>,
                staticParams: Payload, enumMessage: Option<Payload>,
                timestampGenerator: Option<() -> int>, now: int, site: Site)
      ensures Data() == BuildRecord(level, scope, message, formatter, staticParams, enumMessage, now, site)
      ensures formatPlaceholders.None? && this.timestampGenerator.None?
    {
      this.level := level;
      this.scope := scope;
      this.formatPlaceholders := None;
      this.timestampGenerator := None;
      var currentMessage: Payload;
      var meta := NoMeta;
      if message.Err? {
        var errorObj := ToErrorObject(message.error, site);
        meta := TraceMeta(errorObj.stack);
        currentMessage := ErrorFields(errorObj);
      } else {
        currentMessage := map["message" := message.value];
      }
      assert (currentMessage, meta) == NormalizeMessage(message, site);
      this.metaData := meta;
      this.log := BuildPayload(currentMessage, staticParams, enumMessage);
      this.rawMessage := message;
      this.formatter := formatter;
      this.timestamp := now;
      new;
      this.timestamp := match this.timestampGenerator
        case Some(g) => g()
        case None => now;
    }

    /** `fetchCallStack`: the metadata becomes the caller frame; nothing else changes. */
    method FetchCallStack(stackDepth: int, callStack: Option<string>, site: Site)
      modifies this
      ensures Data() == old(Data()).(metaData := Single(CallerStackFrame(stackDepth, callStack, site)))
      ensures formatPlaceholders == old(formatPlaceholders)
      ensures timestampGenerator == old(timestampGenerator)
    {
      metaData := Single(CallerStackFrame(stackDepth, callStack, site));
    }

    /** `generateFormatPlaceholders`: fills the cache from the current fields. */
    method GenerateFormatPlaceholders(r: Renderers)
      modifies this
      ensures Data() == old(Data()) && timestampGenerator == old(timestampGenerator)
      ensures formatPlaceholders == Some(PlaceholdersOf(Data(), r))
    {
      var frame := SelectedFrame(metaData);
      var p: Placeholders := map[];
      p := p["levelName" := Some(Name(level))];
      p := p["levelRank" := Some(NatToString(Rank(level)))];
      p := p["timestampEpoch" := Some(r.dateText(timestamp))];
      p := p["timestampISO" := Some(r.toIso(timestamp))];
      p := p["scope" := Some(scope)];
      p := p["message" := r.stringify(Obj(log))];
      p := p["rawMessage" := r.stringify(MessageValue(rawMessage))];
      p := p["timestampLocalIso" := Some(r.toIso(timestamp - r.tzOffsetMinutes(timestamp) * 60000))];
      p := p["fileNameWithLine" := Some(FrameText(frame, (f: StackFrame) => f.fileNameWithLine))];
      p := p["filePathWithLine" := Some(FrameText(frame, (f: StackFrame) => f.filePathWithLine))];
      p := p["fullFilePath" := Some(FrameText(frame, (f: StackFrame) => f.fullFilePath))];
      p := p["method" := Some(FrameText(frame, (f: StackFrame) => f.methodName))];
      formatPlaceholders := Some(p);
    }

    /** `getFormatPlaceholders`: computes the map on the first call only and returns the cache after. */
    method GetFormatPlaceholders(r: Renderers) returns (p: Placeholders)
      modifies this
      ensures Data() == old(Data()) && timestampGenerator == old(timestampGenerator)
      ensures p == old(CurrentPlaceholders(r)) && formatPlaceholders == Some(p)
      ensures old(formatPlaceholders).Some? ==> p == old(formatPlaceholders).value
    {
      if formatPlaceholders.None? {
        GenerateFormatPlaceholders(r);
      }
      p := formatPlaceholders.value;
    }
  }
}
