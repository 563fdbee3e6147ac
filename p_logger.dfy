/**
 * The entry point of src/p-logger/p-logger.ts: a named logger with static parameters and
 * standard messages that builds one record per call, captures the caller's position when
 * asked to, and hands the record to every registered handler whose threshold admits it.
 */
module Dispatcher {
  import opened Wrappers
  import opened Values
  import opened LogLevels
  import opened StackFrames
  import opened LogRecords
  import opened Logger

  /** `Config` of src/ILogger.ts: every field may be left out. */
  datatype Config = Config(
    name: Option<string>,
    hideLogPositionForPerformance: Option<bool>,
    stackDepth: Option<int>,
    minLevel: Option<Level>,
    formatter: Option<string>,
    staticParams: Option<Payload>)

  const DefaultName := "Root"

  /** `verify_log_level`: no threshold admits everything, otherwise the level may not rank below it. */
  predicate Admits(threshold: Option<Level>, l: Level) {
    threshold.None? || Rank(l) <= Rank(threshold.value)
  }

  /** A threshold admits exactly the levels at least as severe as itself, and Critical always passes. */
  lemma AdmitsBySeverity(threshold: Level, l: Level)
    ensures Admits(Some(threshold), l) <==> AtLeastAsSevere(l, threshold)
    ensures Admits(Some(threshold), Critical) && Admits(Some(Debug), l)
    ensures Admits(Some(Critical), l) <==> l == Critical
  {
    RankInjective(l, Critical);
  }

  /** Admission is monotone: a more severe level, or a laxer threshold, is admitted too. */
  lemma AdmitsIsMonotone(t1: Level, t2: Level, l1: Level, l2: Level)
    requires Admits(Some(t1), l1)
    ensures AtLeastAsSevere(l2, l1) ==> Admits(Some(t1), l2)
    ensures AtLeastAsSevere(t1, t2) ==> Admits(Some(t2), l1)
  {
  }

  /** A record captures the caller's frame when positions are on with a positive depth, or when it is an error. */
  predicate CapturesStack(hidden: bool, stackDepth: int, l: Level) {
    (!hidden && stackDepth > 0) || Rank(l) <= Rank(Error)
  }

  /** Critical and Error records always carry the caller's frame; with positions hidden, only they do. */
  lemma ErrorsAlwaysCapture(hidden: bool, stackDepth: int, l: Level)
    ensures Rank(l) <= 1 ==> CapturesStack(hidden, stackDepth, l)
    ensures hidden ==> (CapturesStack(hidden, stackDepth, l) <==> l == Critical || l == Error)
    ensures Rank(l) > 1 && stackDepth <= 0 ==> !CapturesStack(hidden, stackDepth, l)
  {
  }

  /** `Array.prototype.indexOf`: the first position of `x`, or -1. */
  function IndexOf<T(==)>(xs: seq<T>, x: T): (i: int)
    ensures -1 <= i < |xs|
    ensures i == -1 <==> x !in xs
    ensures 0 <= i ==> xs[i] == x && x !in xs[..i]
  {
    if xs == [] then -1
    else if xs[0] == x then 0
    else
      var j := IndexOf(xs[1..], x);
      if j == -1 then -1 else j + 1
  }

  predicate NoDuplicates<T(==)>(xs: seq<T>) {
    forall i, j :: 0 <= i < j < |xs| ==> xs[i] != xs[j]
  }

  /** `addHandler`: appends the handler unless it is already registered. */
  function WithHandler<T(==)>(hs: seq<T>, h: T): seq<T> {
    if IndexOf(hs, h) == -1 then hs + [h] else hs
  }

  /** `removeHandler`: removes the first registration of the handler, if any. */
  function WithoutHandler<T(==)>(hs: seq<T>, h: T): seq<T> {
    var i := IndexOf(hs, h);
    if i > -1 then hs[..i] + hs[i + 1..] else hs
  }

  /**
   * Adding registers the handler once, at the end: the set grows by it alone, and adding
   * again changes nothing.
   */
  lemma AddHandlerSpec<T>(hs: seq<T>, h: T)
    ensures h !in hs ==> WithHandler(hs, h) == hs + [h]
    ensures (set x | x in WithHandler(hs, h)) == (set x | x in hs) + {h}
    ensures NoDuplicates(hs) ==> NoDuplicates(WithHandler(hs, h))
    ensures WithHandler(WithHandler(hs, h), h) == WithHandler(hs, h)
    ensures h in hs ==> WithHandler(hs, h) == hs
  {
  }

  /** Taking one position out of a list without duplicates leaves the others, once each. */
  lemma RemoveAtKeepsDistinct<T>(hs: seq<T>, i: nat)
    requires i < |hs| && NoDuplicates(hs)
    ensures var r := hs[..i] + hs[i + 1..];
      && NoDuplicates(r) && hs[i] !in r && (set x | x in r) == (set x | x in hs) - {hs[i]}
  {
    var r := hs[..i] + hs[i + 1..];
    forall a, b | 0 <= a < b < |r| ensures r[a] != r[b] {
      var a' := if a < i then a else a + 1;
      var b' := if b < i then b else b + 1;
      assert r[a] == hs[a'] && r[b] == hs[b'];
    }
    forall k | 0 <= k < |r| ensures r[k] != hs[i] {
      var k' := if k < i then k else k + 1;
      assert r[k] == hs[k'];
    }
    forall x | x in hs && x != hs[i] ensures x in r {
      var k :| 0 <= k < |hs| && hs[k] == x;
      assert k != i;
      assert r[if k < i then k else k - 1] == x;
    }
  }

  /** Removing takes exactly one registration away and keeps the others in their order. */
  lemma RemoveHandlerSpec<T>(hs: seq<T>, h: T)
    ensures h !in hs ==> WithoutHandler(hs, h) == hs
    ensures h in hs ==> exists i :: 0 <= i < |hs| && hs[i] == h && h !in hs[..i]
                                   && WithoutHandler(hs, h) == hs[..i] + hs[i + 1..]
    ensures h in hs ==>
      |WithoutHandler(hs, h)| == |hs| - 1 && multiset(WithoutHandler(hs, h)) == multiset(hs) - multiset{h}
    ensures NoDuplicates(hs) ==>
      && NoDuplicates(WithoutHandler(hs, h)) && h !in WithoutHandler(hs, h)
      && (set x | x in WithoutHandler(hs, h)) == (set x | x in hs) - {h}
  {
    var i := IndexOf(hs, h);
    if i > -1 {
      var front, back := hs[..i], hs[i + 1..];
      assert hs == front + [h] + back;
      assert multiset(hs) == multiset(front) + multiset{h} + multiset(back);
      assert WithoutHandler(hs, h) == front + back;
      assert hs[i] == h && h !in hs[..i];
      if NoDuplicates(hs) {
        RemoveAtKeepsDistinct(hs, i);
      }
    }
  }

  /** Registering a new handler and removing it again restores the list. */
  lemma AddThenRemove<T>(hs: seq<T>, h: T)
    requires h !in hs
    ensures WithoutHandler(WithHandler(hs, h), h) == hs
  {
    assert IndexOf(hs + [h], h) == |hs| by {
      assert (hs + [h])[|hs|] == h;
      assert (hs + [h])[..|hs|] == hs;
    }
    assert (hs + [h])[..|hs|] == hs;
  }

  /** `{ ...base, ...top }`: every key of either, the later object winning. */
  function Overlay(base: Payload, top: Payload): (p: Payload)
    ensures p.Keys == base.Keys + top.Keys
    ensures forall k :: k in top ==> p[k] == top[k]
    ensures forall k :: k in base && k !in top ==> p[k] == base[k]
  {
    base + top
  }

  /** Overlaying nothing changes nothing, and overlaying the same object twice is the same as once. */
  lemma OverlayLaws(a: Payload, b: Payload)
    ensures Overlay(a, map[]) == a && Overlay(map[], b) == b
    ensures Overlay(Overlay(a, b), b) == Overlay(a, b)
  {
  }

  /** The parameters a record is built with: the call's own override the logger's. */
  function EffectiveParams(own: Payload, call: Option<Payload>): (p: Payload)
    ensures call.None? ==> p == own
    ensures call.Some? ==> p == Overlay(own, call.value)
  {
    if call.Some? then Overlay(own, call.value) else own
  }

  /**
   * `enumMessages[message]`: the standard message stored under the message's property key.
   * Only primitive messages are looked up.
   */
  function EnumLookup(enumMessages: map<string, Payload>, message: Message): (r: Option<Payload>)
    ensures message.Plain? && message.value.Str? ==>
      (r.Some? <==> message.value.s in enumMessages) && (r.Some? ==> r.value == enumMessages[message.value.s])
    ensures message.Err? ==> r.None?
  {
    match message
    case Err(_) => None
    case Plain(v) =>
      match PropertyKey(v)
      case None => None
      case Some(k) => if k in enumMessages then Some(enumMessages[k]) else None
  }

  /** The record `_log` prepares before handing it on. */
  function Prepared(l: Level, name: string, message: Message, formatter: Option<string>, own: Payload,
                    call: Option<Payload>, enumMessages: map<string, Payload>, hidden: bool, stackDepth: int,
                    now: int, callStack: Option<string>, site: Site): RecordData
  {
    var d := BuildRecord(l, name, message, formatter, EffectiveParams(own, call), EnumLookup(enumMessages, message), now, site);
    if CapturesStack(hidden, stackDepth, l) then d.(metaData := Single(CallerStackFrame(stackDepth, callStack, site))) else d
  }

  /**
   * A string message naming a standard message gets that message's fields, over the message
   * itself, and the call's parameters override the logger's under `staticParams`.
   */
  lemma EnumMessageApplies(l: Level, name: string, key: string, formatter: Option<string>, own: Payload,
                           call: Option<Payload>, enumMessages: map<string, Payload>, hidden: bool,
                           stackDepth: int, now: int, callStack: Option<string>, site: Site)
    requires key in enumMessages
    ensures var d := Prepared(l, name, Plain(Str(key)), formatter, own, call, enumMessages, hidden, stackDepth,
                              now, callStack, site);
      && (forall k :: k in enumMessages[key] ==> k in d.log && d.log[k] == enumMessages[key][k])
      && ("message" !in enumMessages[key] ==> d.log["message"] == Str(key))
      && (StaticParamsKey !in enumMessages[key] ==> d.log[StaticParamsKey] == Obj(EffectiveParams(own, call)))
      && d.scope == name && d.level == l
  {
    var message := Plain(Str(key));
    var params := EffectiveParams(own, call);
    assert EnumLookup(enumMessages, message) == Some(enumMessages[key]);
    var b := BuildRecord(l, name, message, formatter, params, Some(enumMessages[key]), now, site);
    assert NormalizeMessage(message, site) == (map["message" := Str(key)], NoMeta);
    assert b.log == BuildPayload(map["message" := Str(key)], params, Some(enumMessages[key]));
    var d := Prepared(l, name, message, formatter, own, call, enumMessages, hidden, stackDepth, now, callStack, site);
    assert d.log == b.log && d.scope == b.scope && d.level == b.level;
  }

  /** The stack is read only for error levels or when positions are shown; otherwise the metadata is the message's. */
  lemma PreparedMetaData(l: Level, name: string, message: Message, formatter: Option<string>, own: Payload,
                         call: Option<Payload>, enumMessages: map<string, Payload>, hidden: bool,
                         stackDepth: int, now: int, callStack: Option<string>, site: Site)
    ensures var d := Prepared(l, name, message, formatter, own, call, enumMessages, hidden, stackDepth,
                              now, callStack, site);
      && (CapturesStack(hidden, stackDepth, l) <==> d.metaData == Single(CallerStackFrame(stackDepth, callStack, site)))
      && (message.Plain? && !CapturesStack(hidden, stackDepth, l) ==> d.metaData == NoMeta)
  {
    var d := Prepared(l, name, message, formatter, own, call, enumMessages, hidden, stackDepth, now, callStack, site);
    var b := BuildRecord(l, name, message, formatter, EffectiveParams(own, call), EnumLookup(enumMessages, message), now, site);
    assert b.metaData == NoMeta || b.metaData.Frames?;
  }

  /** The handlers that receive a record of level `l`, in registration order. */
  function Admitting(hs: seq<BaseLogger>, l: Level): seq<BaseLogger>
    reads hs
  {
    if hs == [] then []
    else
      var last := hs[|hs| - 1];
      Admitting(hs[..|hs| - 1], l) + (if Admits(last.level, l) then [last] else [])
  }

  /** A handler receives the record exactly when it is registered and its threshold admits the level. */
  lemma {:induction false} AdmittingMembers(hs: seq<BaseLogger>, l: Level, h: BaseLogger)
    ensures h in Admitting(hs, l) <==> h in hs && Admits(h.level, l)
    decreases |hs|
  {
    if hs != [] {
      AdmittingMembers(hs[..|hs| - 1], l, h);
      assert hs == hs[..|hs| - 1] + [hs[|hs| - 1]];
    }
  }

  /** Each registered handler receives a record at most once. */
  lemma {:induction false} AdmittingOnce(hs: seq<BaseLogger>, l: Level)
    requires NoDuplicates(hs)
    ensures NoDuplicates(Admitting(hs, l))
    decreases |hs|
  {
    if hs != [] {
      var init := hs[..|hs| - 1];
      var last := hs[|hs| - 1];
      AdmittingOnce(init, l);
      if Admits(last.level, l) {
        AdmittingMembers(init, l, last);
        assert last !in init;
        var a := Admitting(init, l);
        assert last !in a;
        assert Admitting(hs, l) == a + [last];
      }
    }
  }

  /** The fields of a logger other than its own threshold and template. */
  datatype LoggerState = LoggerState(
    handlers: seq<BaseLogger>,
    hideLogPositionForPerformance: bool,
    stackDepth: int,
    name: string,
    staticParams: Payload,
    logEnums: map<string, string>,
    enumMessages: map<string, Payload>,
    timestampGenerator: Option<() -> int>)

  class PLogger {
    const base: BaseLogger
    var handlers: seq<BaseLogger>
    var hideLogPositionForPerformance: bool
    var stackDepth: int
    var name: string
    var staticParams: Payload
    var logEnums: map<string, string>
    var enumMessages: map<string, Payload>
    var timestampGenerator: Option<() -> int>

    function State(): LoggerState
      reads this
    {
      LoggerState(handlers, hideLogPositionForPerformance, stackDepth, name, staticParams, logEnums, enumMessages,
                  timestampGenerator)
    }

    /** The handler list is only changed through `addHandler` and `removeHandler`, so no handler is in it twice. */
    predicate Valid()
      reads this
    {
      NoDuplicates(handlers)
    }

    constructor(config: Config)
      ensures fresh(base) && base.level == config.minLevel && base.formatter == config.formatter
      ensures name == config.name.GetOr(DefaultName) && staticParams == config.staticParams.GetOr(map[])
      ensures hideLogPositionForPerformance == config.hideLogPositionForPerformance.GetOr(true)
      ensures stackDepth == config.stackDepth.GetOr(0)
      ensures handlers == [] && logEnums == map[] && enumMessages == map[] && timestampGenerator.None?
      ensures Valid()
    {
      var b := new BaseLogger();
      b.level := config.minLevel;
      b.formatter := config.formatter;
      base := b;
      name := config.name.GetOr(DefaultName);
      hideLogPositionForPerformance := config.hideLogPositionForPerformance.GetOr(true);
      stackDepth := config.stackDepth.GetOr(0);
      staticParams := config.staticParams.GetOr(map[]);
      handlers := [];
      logEnums := map[];
      enumMessages := map[];
      timestampGenerator := None;
    }

    method AddHandler(h: BaseLogger)
      modifies this
      ensures State() == old(State()).(handlers := WithHandler(old(handlers), h))
      ensures old(Valid()) ==> Valid()
    {
      AddHandlerSpec(handlers, h);
      var index := IndexOf(handlers, h);
      if index == -1 {
        handlers := handlers + [h];
      }
    }

    method RemoveHandler(h: BaseLogger)
      modifies this
      ensures State() == old(State()).(handlers := WithoutHandler(old(handlers), h))
      ensures old(Valid()) ==> Valid()
    {
      RemoveHandlerSpec(handlers, h);
      var index := IndexOf(handlers, h);
      if index > -1 {
        handlers := handlers[..index] + handlers[index + 1..];
      }
    }

    method SetTimestampGenerator(g: () -> int)
      modifies this
      ensures State() == old(State()).(timestampGenerator := Some(g))
    {
      timestampGenerator := Some(g);
    }

    method SetLogEnums(e: map<string, string>)
      modifies this
      ensures State() == old(State()).(logEnums := e)
    {
      logEnums := e;
    }

    method SetEnumMessages(e: map<string, Payload>)
      modifies this
      ensures State() == old(State()).(enumMessages := e)
    {
      enumMessages := e;
    }

    /** `updateParams`: replaces the static parameters. */
    method UpdateParams(p: Payload)
      modifies this
      ensures State() == old(State()).(staticParams := p)
    {
      staticParams := p;
    }

    /** `appendParams`: adds to the static parameters, the new values winning. */
    method AppendParams(p: Payload)
      modifies this
      ensures State() == old(State()).(staticParams := Overlay(old(staticParams), p))
    {
      var buffer := staticParams + p;
      staticParams := buffer;
    }

    /** The `forEach` over the handlers: those whose own threshold admits the level, in order. */
    method Dispatch(l: Level) returns (delivered: seq<BaseLogger>)
      ensures delivered == Admitting(handlers, l)
    {
      delivered := [];
      var i := 0;
      while i < |handlers|
        invariant 0 <= i <= |handlers|
        invariant delivered == Admitting(handlers[..i], l)
      {
        var handler := handlers[i];
        assert handlers[..i + 1][..i] == handlers[..i];
        assert Admitting(handlers[..i + 1], l)
            == Admitting(handlers[..i], l) + (if Admits(handler.level, l) then [handler] else []);
        var level := handler.GetLevel();
        if Admits(level, l) {
          delivered := delivered + [handler];
        }
        i := i + 1;
      }
      assert handlers[..i] == handlers;
    }

    /** The first half of `_log`: the record, with the caller's frame when the capture rule asks for it. */
    method PrepareRecord(message: Message, l: Level, params: Option<Payload>, now: int, callStack: Option<string>,
                         site: Site) returns (rec: LogRecord)
      ensures fresh(rec) && rec.formatPlaceholders.None?
      ensures rec.Data() == Prepared(l, name, message, base.formatter, staticParams, params, enumMessages,
                                     hideLogPositionForPerformance, stackDepth, now, callStack, site)
    {
      var enumMessage := EnumLookup(enumMessages, message);
      var currentParams := EffectiveParams(staticParams, params);
      rec := new LogRecord(l, name, message, base.formatter, currentParams, enumMessage, timestampGenerator, now, site);
      if CapturesStack(hideLogPositionForPerformance, stackDepth, l) {
        rec.FetchCallStack(stackDepth, callStack, site);
      }
    }

    /**
     * `_log`: builds the record, captures the caller's frame when required, and, when the
     * logger's own threshold admits the level, hands it to the admitting handlers in order.
     */
    method Log(message: Message, l: Level, params: Option<Payload>, now: int, callStack: Option<string>, site: Site)
      returns (rec: LogRecord, delivered: seq<BaseLogger>)
      ensures fresh(rec) && rec.formatPlaceholders.None?
      ensures rec.Data() == Prepared(l, name, message, base.formatter, staticParams, params, enumMessages,
                                     hideLogPositionForPerformance, stackDepth, now, callStack, site)
      ensures delivered == (if Admits(base.level, l) then Admitting(handlers, l) else [])
      ensures Valid() ==> NoDuplicates(delivered)
    {
      rec := PrepareRecord(message, l, params, now, callStack, site);
      if !Admits(base.level, l) {
        delivered := [];
        return;
      }
      delivered := Dispatch(l);
      if Valid() {
        AdmittingOnce(handlers, l);
      }
    }
  }
}
