/**
 * Stack-trace extraction of src/logs/errorObj.ts: a captured stack text is split into lines,
 * header lines are dropped, each line is matched against two path patterns in order, and
 * the named groups of the first match become a stack frame.
 */
module StackFrames {
  import opened Wrappers
  import opened Strings
  import opened Values

  datatype StackFrame = StackFrame(
    fullFilePath: Option<string>,
    fileName: Option<string>,
    fileNameWithLine: Option<string>,
    filePath: Option<string>,
    fileLine: Option<string>,
    fileColumn: Option<string>,
    filePathWithLine: Option<string>,
    methodName: Option<string>)

  /** The frame whose every field is `undefined`. */
  const BlankFrame := StackFrame(None, None, None, None, None, None, None, None)

  /** The named groups of a successful match; `fileName` is mandatory in both patterns. */
  datatype Groups = Groups(
    fileName: string,
    lineNumber: Option<string>,
    colNumber: Option<string>,
    methodName: Option<string>)

  /** `line.match(pathRegexes[i])`: the regular-expression engine, left abstract. */
  type Matcher = (nat, string) -> Option<Groups>

  /** The number of path patterns tried per line. */
  const PatternCount: nat := 2

  /** The browser environment stack extraction reads. */
  datatype Site = Site(origin: string, userAgent: string, matcher: Matcher)

  /** A stack line containing this text is an error header and is never parsed. */
  const ErrorHeader := "Error: "

  /** The normalised error of `toErrorObject`. */
  datatype ErrorObject = ErrorObject(
    nativeError: JsError,
    name: string,
    message: string,
    stack: Option<seq<StackFrame>>)

  /** A template-literal interpolation `${x}` of an optional string. */
  function Show(x: Option<string>): string {
    match x
    case Some(s) => s
    case None => "undefined"
  }

  /**
   * `s.replace(/\?.*$/, "")`: everything from the first `?` that is followed
   * by no line terminator up to the end of the string is removed.
   */
  function StripQuery(s: string): (t: string)
    ensures |t| <= |s| && t == s[..|t|]
    ensures '?' !in s ==> t == s
    ensures FreeOfLineTerminators(s) ==> '?' !in t
    ensures |t| < |s| ==> s[|t|] == '?' && FreeOfLineTerminators(s[|t| + 1..])
  {
    if s == [] then []
    else if s[0] == '?' && FreeOfLineTerminators(s[1..]) then []
    else
      var r := StripQuery(s[1..]);
      assert FreeOfLineTerminators(s) ==> FreeOfLineTerminators(s[1..]) by {
        if FreeOfLineTerminators(s) {
          forall i | 0 <= i < |s[1..]| ensures !IsLineTerminator(s[1..][i]) {
            assert s[1..][i] == s[i + 1];
          }
        }
      }
      assert |r| < |s| - 1 ==> s[1..][|r| + 1..] == s[|r| + 2..];
      [s[0]] + r
  }

  /** The last `/`-separated segment of a path: the text after its last `/`, or all of it. */
  function FileNameOf(path: string): (name: string)
    ensures '/' !in name
    ensures '/' !in path ==> name == path
    ensures '/' in path ==> |name| < |path| && path[|path| - |name| - 1..] == "/" + name
  {
    var parts := Split(path, '/');
    SplitLastIsTail(path, '/');
    SplitPiecesAreSeparatorFree(path, '/');
    var name := Last(parts);
    assert name in parts;
    if name == path then name
    else
      assert path[|path| - |name| - 1..] == [path[|path| - |name| - 1]] + path[|path| - |name|..];
      name
  }

  /** The frame built from the groups of a match (errorObj.ts lines 81-90). */
  function FrameOf(g: Groups, origin: string): StackFrame {
    var filePath := StripQuery(g.fileName);
    var fileName := FileNameOf(filePath);
    StackFrame(
      fullFilePath := Some(origin + filePath),
      fileName := Some(fileName),
      fileNameWithLine := Some(fileName + ":" + Show(g.lineNumber)),
      filePath := Some(filePath),
      fileLine := g.lineNumber,
      fileColumn := g.colNumber,
      filePathWithLine := Some(filePath + ":" + Show(g.lineNumber)),
      methodName := g.methodName)
  }

  /** The first of the patterns `i`, `i + 1`, ... that matches `line`, with its groups. */
  function FirstMatch(line: string, matcher: Matcher, i: nat): (r: Option<(nat, Groups)>)
    ensures r.Some? ==> i <= r.value.0 < PatternCount && matcher(r.value.0, line) == Some(r.value.1)
    ensures r.Some? ==> forall j :: i <= j < r.value.0 ==> matcher(j, line).None?
    ensures r.None? ==> forall j :: i <= j < PatternCount ==> matcher(j, line).None?
    decreases PatternCount - i
  {
    if i >= PatternCount then None
    else match matcher(i, line)
      case Some(g) => Some((i, g))
      case None => FirstMatch(line, matcher, i + 1)
  }

  /** The frame `stackLineToStackFrame` returns for a line that may be `undefined`. */
  function LineFrame(line: Option<string>, site: Site): StackFrame {
    match line
    case None => BlankFrame
    case Some(l) =>
      match FirstMatch(Trim(l), site.matcher, 0)
      case None => BlankFrame
      case Some((_, g)) => FrameOf(g, site.origin)
  }

  /** `stackLineToStackFrame`: the loop over the patterns that stops at the first match. */
  method StackLineToStackFrame(line: Option<string>, site: Site) returns (frame: StackFrame)
    ensures frame == LineFrame(line, site)
  {
    frame := BlankFrame;
    if line.Some? {
      var trimmed := Trim(line.value);
      var i := 0;
      while i < PatternCount
        invariant 0 <= i <= PatternCount
        invariant FirstMatch(trimmed, site.matcher, 0) == FirstMatch(trimmed, site.matcher, i)
        invariant frame == BlankFrame
      {
        var m := site.matcher(i, trimmed);
        if m.Some? {
          var g := m.value;
          frame := frame.(filePath := Some(StripQuery(g.fileName)));
          frame := frame.(fullFilePath := Some(site.origin + frame.filePath.value));
          var pathParts := Split(frame.filePath.value, '/');
          frame := frame.(fileName := Some(Last(pathParts)));
          frame := frame.(fileLine := g.lineNumber, fileColumn := g.colNumber, methodName := g.methodName);
          frame := frame.(filePathWithLine := Some(frame.filePath.value + ":" + Show(frame.fileLine)));
          frame := frame.(fileNameWithLine := Some(frame.fileName.value + ":" + Show(frame.fileLine)));
          break;
        }
        i := i + 1;
      }
    }
  }

  /** A line yields a frame other than the blank one exactly when one of the patterns matches it. */
  lemma LineFrameKeptIff(l: string, site: Site)
    ensures LineFrame(Some(l), site) != BlankFrame
        <==> exists i :: 0 <= i < PatternCount && site.matcher(i, Trim(l)).Some?
    ensures LineFrame(Some(l), site) != BlankFrame ==> LineFrame(Some(l), site).filePath.Some?
  {
    var r := FirstMatch(Trim(l), site.matcher, 0);
    if r.Some? {
      assert site.matcher(r.value.0, Trim(l)).Some?;
    }
  }

  /** A missing line yields the blank frame. */
  lemma MissingLineIsBlank(site: Site)
    ensures LineFrame(None, site) == BlankFrame
  {
  }

  /** The second pattern decides the frame only when the first does not match. */
  lemma PatternsTriedInOrder(l: string, site: Site)
    ensures site.matcher(0, Trim(l)).Some? ==>
      LineFrame(Some(l), site) == FrameOf(site.matcher(0, Trim(l)).value, site.origin)
    ensures site.matcher(0, Trim(l)).None? && site.matcher(1, Trim(l)).Some? ==>
      LineFrame(Some(l), site) == FrameOf(site.matcher(1, Trim(l)).value, site.origin)
  {
  }

  /** What a match puts in the path fields, with the literal text "undefined" for a missing line number. */
  lemma MatchedFrameFields(g: Groups, origin: string)
    ensures var f := FrameOf(g, origin);
      && f.filePath == Some(StripQuery(g.fileName))
      && f.fullFilePath == Some(origin + f.filePath.value)
      && f.fileName == Some(Last(Split(f.filePath.value, '/')))
      && '/' !in f.fileName.value
      && f.filePathWithLine == Some(f.filePath.value + ":" + Show(g.lineNumber))
      && f.fileNameWithLine == Some(f.fileName.value + ":" + Show(g.lineNumber))
      && (g.lineNumber.None? ==> f.filePathWithLine == Some(f.filePath.value + ":undefined"))
      && (g.lineNumber.None? ==> f.fileNameWithLine == Some(f.fileName.value + ":undefined"))
  {
    var f := FrameOf(g, origin);
    var path := StripQuery(g.fileName);
    assert f.filePath == Some(path) && f.fileName == Some(FileNameOf(path));
    assert ":" + "undefined" == ":undefined";
    assert f.filePath.value + ":" + "undefined" == f.filePath.value + (":" + "undefined");
    assert f.fileName.value + ":" + "undefined" == f.fileName.value + (":" + "undefined");
  }

  /** The lines that do not contain the error header, in their original order. */
  function DropHeaders(lines: seq<string>): (kept: seq<string>)
    ensures |kept| <= |lines|
    ensures forall l :: multiset(kept)[l] == if Contains(l, ErrorHeader) then 0 else multiset(lines)[l]
    decreases |lines|
  {
    if lines == [] then []
    else
      var head: seq<string> := if Contains(lines[0], ErrorHeader) then [] else [lines[0]];
      var rest := DropHeaders(lines[1..]);
      assert lines == [lines[0]] + lines[1..];
      assert multiset(lines) == multiset{lines[0]} + multiset(lines[1..]);
      head + rest
  }

  /** Dropping headers works line by line: the kept lines of two stretches are kept in sequence. */
  lemma {:induction false} DropHeadersAppend(a: seq<string>, b: seq<string>)
    ensures DropHeaders(a + b) == DropHeaders(a) + DropHeaders(b)
    decreases |a|
  {
    if a == [] {
      assert a + b == b;
    } else {
      ConcatHeadTail(a, b);
      DropHeadersAppend(a[1..], b);
      var head: seq<string> := if Contains(a[0], ErrorHeader) then [] else [a[0]];
      assert DropHeaders(a + b) == head + DropHeaders(a[1..] + b);
      ConcatAssoc(head, DropHeaders(a[1..]), DropHeaders(b));
    }
  }

  /** The non-blank frames `frameOf` gives the lines, in line order (the `reduce` of `_getErrorTrace`). */
  function KeepFrames(lines: seq<string>, frameOf: string -> StackFrame): (frames: seq<StackFrame>)
    ensures |frames| <= |lines|
    ensures forall f :: f in frames ==> f != BlankFrame
  {
    if lines == [] then []
    else
      var f := frameOf(lines[0]);
      (if f == BlankFrame then [] else [f]) + KeepFrames(lines[1..], frameOf)
  }

  /** The reduction works line by line: the frames of two stretches are kept in sequence. */
  lemma {:induction false} KeepFramesAppend(a: seq<string>, b: seq<string>, frameOf: string -> StackFrame)
    ensures KeepFrames(a + b, frameOf) == KeepFrames(a, frameOf) + KeepFrames(b, frameOf)
    decreases |a|
  {
    if a == [] {
      assert a + b == b;
    } else {
      ConcatHeadTail(a, b);
      KeepFramesAppend(a[1..], b, frameOf);
      var f := frameOf(a[0]);
      var head: seq<StackFrame> := if f == BlankFrame then [] else [f];
      assert KeepFrames(a + b, frameOf) == head + KeepFrames(a[1..] + b, frameOf);
      ConcatAssoc(head, KeepFrames(a[1..], frameOf), KeepFrames(b, frameOf));
    }
  }

  lemma {:induction false} KeepFramesAllKept(lines: seq<string>, frameOf: string -> StackFrame)
    requires forall k :: 0 <= k < |lines| ==> frameOf(lines[k]) != BlankFrame
    ensures |KeepFrames(lines, frameOf)| == |lines|
    ensures forall k :: 0 <= k < |lines| ==> KeepFrames(lines, frameOf)[k] == frameOf(lines[k])
  {
    if lines != [] {
      var tail := lines[1..];
      assert forall k :: 0 <= k < |tail| ==> tail[k] == lines[k + 1];
      KeepFramesAllKept(tail, frameOf);
      var r := KeepFrames(lines, frameOf);
      assert r == [frameOf(lines[0])] + KeepFrames(tail, frameOf);
      forall k | 0 <= k < |lines| ensures r[k] == frameOf(lines[k]) {
        if k > 0 {
          assert r[k] == KeepFrames(tail, frameOf)[k - 1];
        }
      }
    }
  }

  lemma {:induction false} KeepFramesNoneKept(lines: seq<string>, frameOf: string -> StackFrame)
    requires forall k :: 0 <= k < |lines| ==> frameOf(lines[k]) == BlankFrame
    ensures KeepFrames(lines, frameOf) == []
  {
    if lines != [] {
      var tail := lines[1..];
      assert forall k :: 0 <= k < |tail| ==> tail[k] == lines[k + 1];
      KeepFramesNoneKept(tail, frameOf);
    }
  }

  /** The frames of the parsed lines. */
  function ParseFrames(lines: seq<string>, site: Site): seq<StackFrame> {
    KeepFrames(lines, l => LineFrame(Some(l), site))
  }

  /** When every line matches a pattern, each line contributes its own frame, in order. */
  lemma ParseFramesAllMatched(lines: seq<string>, site: Site)
    requires forall k :: 0 <= k < |lines| ==> LineFrame(Some(lines[k]), site) != BlankFrame
    ensures |ParseFrames(lines, site)| == |lines|
    ensures forall k :: 0 <= k < |lines| ==> ParseFrames(lines, site)[k] == LineFrame(Some(lines[k]), site)
  {
    KeepFramesAllKept(lines, l => LineFrame(Some(l), site));
  }

  /** Lines that every pattern rejects contribute no frame at all. */
  lemma ParseFramesNoneMatched(lines: seq<string>, site: Site)
    requires forall k :: 0 <= k < |lines| ==> LineFrame(Some(lines[k]), site) == BlankFrame
    ensures ParseFrames(lines, site) == []
  {
    KeepFramesNoneKept(lines, l => LineFrame(Some(l), site));
  }

  /** Some path pattern matches the trimmed line. */
  predicate Matches(l: string, site: Site) {
    exists i :: 0 <= i < PatternCount && site.matcher(i, Trim(l)).Some?
  }

  /** The lines some pattern matches, in their order. */
  function MatchingLines(lines: seq<string>, site: Site): seq<string> {
    if lines == [] then []
    else (if Matches(lines[0], site) then [lines[0]] else []) + MatchingLines(lines[1..], site)
  }

  /** The frame of each line, in order. */
  function LineFrames(lines: seq<string>, site: Site): seq<StackFrame> {
    if lines == [] then [] else [LineFrame(Some(lines[0]), site)] + LineFrames(lines[1..], site)
  }

  /** The trace of a stack is the frame of every line some pattern matches, in line order, and nothing else. */
  lemma {:induction false} ParseFramesAreMatchedLines(lines: seq<string>, site: Site)
    ensures ParseFrames(lines, site) == LineFrames(MatchingLines(lines, site), site)
    decreases |lines|
  {
    if lines != [] {
      var l := lines[0];
      ParseFramesAreMatchedLines(lines[1..], site);
      LineFrameKeptIff(l, site);
      var rest := MatchingLines(lines[1..], site);
      if Matches(l, site) {
        ConcatHeadTail([l], rest);
        assert LineFrames([l] + rest, site) == [LineFrame(Some(l), site)] + LineFrames(rest, site);
      } else {
        assert [] + rest == rest;
      }
    }
  }

  /** The filtered lines of a stack text. */
  function StackLines(stack: string): seq<string> {
    DropHeaders(Split(stack, '\n'))
  }

  /** `_getErrorTrace`: `undefined` when the error has no stack text. */
  function ErrorTrace(stack: Option<string>, site: Site): (trace: Option<seq<StackFrame>>)
    ensures trace.Some? <==> stack.Some?
  {
    match stack
    case None => None
    case Some(s) => Some(ParseFrames(StackLines(s), site))
  }

  /** A header line at the top of a stack is removed before it can be parsed or indexed. */
  lemma HeaderLineIsSkipped(header: string, rest: string)
    requires '\n' !in header && Contains(header, ErrorHeader)
    ensures StackLines(header + "\n" + rest) == StackLines(rest)
  {
    SplitPrefix(header, rest, '\n');
    assert ([header] + Split(rest, '\n'))[1..] == Split(rest, '\n');
  }

  /** `toErrorObject`. */
  function ToErrorObject(e: JsError, site: Site): (obj: ErrorObject)
    ensures obj.nativeError == e && obj.message == e.message
    ensures e.name.None? ==> obj.name == "Error"
    ensures e.name.Some? ==> obj.name == e.name.value
    ensures obj.stack.Some? <==> e.stack.Some?
  {
    ErrorObject(e, e.name.GetOr("Error"), e.message, ErrorTrace(e.stack, site))
  }

  /** The index `getCallerStackFrame` reads: one less on a Firefox user agent. */
  function DepthIndex(depth: int, userAgent: string): int {
    if Contains(userAgent, "Firefox") then depth - 1 else depth
  }

  /** `getCallerStackFrame(depth)` for a captured stack text that may be absent. */
  function CallerStackFrame(depth: int, stack: Option<string>, site: Site): StackFrame {
    var idx := DepthIndex(depth, site.userAgent);
    match stack
    case None => BlankFrame
    case Some(s) =>
      var lines := StackLines(s);
      LineFrame(if 0 <= idx < |lines| then Some(lines[idx]) else None, site)
  }

  /** Firefox reads one line earlier than any other browser for the same depth. */
  lemma FirefoxReadsOneLineEarlier(depth: int, stack: Option<string>, firefox: Site, other: Site)
    requires Contains(firefox.userAgent, "Firefox") && !Contains(other.userAgent, "Firefox")
    requires firefox.origin == other.origin && firefox.matcher == other.matcher
    ensures CallerStackFrame(depth, stack, firefox) == CallerStackFrame(depth - 1, stack, other)
  {
  }

  /** An index outside the filtered lines, or an absent stack, yields the blank frame. */
  lemma OutOfRangeDepthIsBlank(depth: int, stack: Option<string>, site: Site)
    requires stack.None? || DepthIndex(depth, site.userAgent) < 0
      || DepthIndex(depth, site.userAgent) >= |StackLines(stack.value)|
    ensures CallerStackFrame(depth, stack, site) == BlankFrame
  {
  }

  /** In range, the frame is the one of the filtered line at the adjusted index. */
  lemma InRangeDepthReadsLine(depth: int, s: string, site: Site)
    requires 0 <= DepthIndex(depth, site.userAgent) < |StackLines(s)|
    ensures CallerStackFrame(depth, Some(s), site)
         == LineFrame(Some(StackLines(s)[DepthIndex(depth, site.userAgent)]), site)
    ensures StackLines(s)[DepthIndex(depth, site.userAgent)] in Split(s, '\n')
    ensures !Contains(StackLines(s)[DepthIndex(depth, site.userAgent)], ErrorHeader)
  {
    var lines := StackLines(s);
    var l := lines[DepthIndex(depth, site.userAgent)];
    assert l in lines;
    assert multiset(lines)[l] > 0;
  }
}
