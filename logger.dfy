/**
 * The shared logger base of src/Logger.ts: a threshold level, a template, and the
 * `{{name}}` substitution every transport uses to render a record.
 */
module Logger {
  import opened Wrappers
  import opened Strings
  import opened LogLevels
  import opened LogRecords

  /** The placeholder `{{name}}` as it is written in a template. */
  function Placeholder(name: string): string {
    "{{" + name + "}}"
  }

  /** The template every logger starts with: `[{{levelName}}] {{timestampLocalIso}} {{scope}} : {{rawMessage}}`. */
  const DefaultFormatter := "[" + Placeholder("levelName") + "] " + Placeholder("timestampLocalIso") + " "
                            + Placeholder("scope") + " : " + Placeholder("rawMessage")

  /**
   * The text substituted for placeholder `name`: its value when the map holds a
   * non-null one, and "" otherwise. Falsy values such as "0" are kept.
   */
  function Lookup(m: Placeholders, name: string): (v: string)
    ensures name in m && m[name].Some? ==> v == m[name].value
    ensures name !in m || m[name].None? ==> v == ""
  {
    if name in m && m[name].Some? then m[name].value else ""
  }

  /**
   * `j` can end the lazy group `(.+?)` that starts at `k`: at least one character,
   * all on one line, followed by `}}`.
   */
  predicate Closes(t: string, k: nat, j: int) {
    k < j && j + 2 <= |t| && t[j] == '}' && t[j + 1] == '}' && k <= |t| && FreeOfLineTerminators(t[k..j])
  }

  /** Where the lazy group starting at `k` ends, if it can end at all. */
  function CloseFrom(t: string, k: nat): (j: Option<nat>)
    ensures j.Some? ==> k < j.value && j.value + 2 <= |t|
    decreases |t| - k
  {
    if k >= |t| || IsLineTerminator(t[k]) then None
    else if k + 2 < |t| && t[k + 1] == '}' && t[k + 2] == '}' then Some(k + 1)
    else CloseFrom(t, k + 1)
  }

  /** CloseFrom finds the nearest end of the group, and none exists when it finds none. */
  lemma {:induction false} CloseFromSpec(t: string, k: nat)
    ensures CloseFrom(t, k).Some? ==> Closes(t, k, CloseFrom(t, k).value)
    ensures CloseFrom(t, k).Some? ==> forall i :: k < i < CloseFrom(t, k).value ==> !Closes(t, k, i)
    ensures CloseFrom(t, k).None? ==> forall i :: !Closes(t, k, i)
    decreases |t| - k
  {
    if k >= |t| {
    } else if IsLineTerminator(t[k]) {
      forall i | Closes(t, k, i) ensures false {
      }
    } else if k + 2 < |t| && t[k + 1] == '}' && t[k + 2] == '}' {
      assert t[k..k + 1] == [t[k]];
    } else {
      CloseFromSpec(t, k + 1);
      forall i | Closes(t, k, i) && i > k + 1 ensures Closes(t, k + 1, i) {
        assert t[k + 1..i] == t[k..i][1..];
      }
      forall i | Closes(t, k + 1, i) ensures Closes(t, k, i) {
        assert t[k..i] == [t[k]] + t[k + 1..i];
      }
      assert !Closes(t, k, k + 1);
    }
  }

  /** A match of `{{(.+?)}}` at the start of `t`: the placeholder name and where the match ends. */
  function TokenAt(t: string): (r: Option<(string, nat)>)
    ensures r.Some? ==> 5 <= r.value.1 <= |t|
  {
    if |t| >= 2 && t[0] == '{' && t[1] == '{' then
      match CloseFrom(t, 2)
      case Some(j) => Some((t[2..j], j + 2))
      case None => None
    else None
  }

  /**
   * `template.replace(/{{(.+?)}}/g, ...)`: scanning left to right, each match is replaced
   * by its placeholder's text and the scan resumes after it; substituted text is never rescanned.
   */
  function Render(t: string, m: Placeholders): string
    decreases |t|
  {
    if t == [] then []
    else match TokenAt(t)
      case Some((name, end)) => Lookup(m, name) + Render(t[end..], m)
      case None => [t[0]] + Render(t[1..], m)
  }

  /** Some match of the placeholder pattern starts in `t`. */
  predicate HasToken(t: string) {
    exists i :: 0 <= i < |t| && TokenAt(t[i..]).Some?
  }

  /** A template without any placeholder match renders as itself. */
  lemma {:induction false} RenderNoToken(t: string, m: Placeholders)
    requires !HasToken(t)
    ensures Render(t, m) == t
    decreases |t|
  {
    if t != [] {
      assert t[0..] == t;
      assert TokenAt(t).None?;
      forall i | 0 <= i < |t[1..]| ensures TokenAt(t[1..][i..]).None? {
        assert t[1..][i..] == t[i + 1..];
      }
      RenderNoToken(t[1..], m);
    }
  }

  /** A name the lazy group matches exactly when it is followed by `}}`. */
  predicate SimpleName(n: string) {
    |n| >= 1 && FreeOfLineTerminators(n) && '}' !in n
  }

  lemma {:induction false} CloseAfterSimpleName(t: string, n: string, rest: string, k: nat)
    requires SimpleName(n) && t == Placeholder(n) + rest
    requires 2 <= k < 2 + |n|
    ensures CloseFrom(t, k) == Some(2 + |n|)
    decreases 2 + |n| - k
  {
    assert t[k] == n[k - 2];
    assert t[2 + |n|] == '}' && t[3 + |n|] == '}';
    if k + 1 < 2 + |n| {
      assert t[k + 1] == n[k - 1];
      CloseAfterSimpleName(t, n, rest, k + 1);
    }
  }

  /** A placeholder with a simple name is replaced by its text, and rendering continues after it. */
  lemma RenderToken(n: string, rest: string, m: Placeholders)
    requires SimpleName(n)
    ensures Render(Placeholder(n) + rest, m) == Lookup(m, n) + Render(rest, m)
  {
    var t := Placeholder(n) + rest;
    CloseAfterSimpleName(t, n, rest, 2);
    assert t[2..2 + |n|] == n;
    assert t[4 + |n|..] == rest;
  }

  /** A character other than `{` cannot start a match and is copied. */
  lemma RenderPlainChar(c: char, s: string, m: Placeholders)
    requires c != '{'
    ensures Render([c] + s, m) == [c] + Render(s, m)
  {
    var t := [c] + s;
    assert t[0] == c;
    assert TokenAt(t).None?;
    assert t[1..] == s;
  }

  /** Text without an opening brace is copied to the output unchanged. */
  lemma {:induction false} RenderPlain(p: string, rest: string, m: Placeholders)
    requires '{' !in p
    ensures Render(p + rest, m) == p + Render(rest, m)
    decreases |p|
  {
    if p == [] {
      assert p + rest == rest;
    } else {
      var c, tail := p[0], p[1..];
      assert p == [c] + tail;
      assert c in p;
      assert '{' !in tail by {
        forall x | x in tail ensures x in p { }
      }
      assert p + rest == [c] + (tail + rest);
      RenderPlainChar(c, tail + rest, m);
      RenderPlain(tail, rest, m);
      assert [c] + (tail + Render(rest, m)) == p + Render(rest, m);
    }
  }

  /** Two adjacent placeholders are both replaced. */
  lemma AdjacentPlaceholders(m: Placeholders)
    ensures Render("{{a}}{{b}}", m) == Lookup(m, "a") + Lookup(m, "b")
  {
    var qa, qb := Placeholder("a"), Placeholder("b");
    assert "{{a}}{{b}}" == qa + qb;
    assert SimpleName("a") && SimpleName("b");
    RenderToken("a", qb, m);
    assert qb == qb + [];
    RenderToken("b", [], m);
  }

  /** A placeholder the map does not know becomes "". */
  lemma UnknownPlaceholderIsEmpty(m: Placeholders)
    requires "bogus" !in m
    ensures Render("{{bogus}}", m) == ""
  {
    var q := Placeholder("bogus");
    assert "{{bogus}}" == q + [];
    assert SimpleName("bogus");
    RenderToken("bogus", [], m);
  }

  /** Text substituted for a placeholder is not scanned again, even when it looks like one. */
  lemma SubstitutionIsNotRescanned(m: Placeholders)
    requires "a" in m && m["a"] == Some("{{b}}")
    ensures Render("{{a}}", m) == "{{b}}"
  {
    assert SimpleName("a");
    RenderToken("a", "", m);
    assert "{{a}}" == Placeholder("a") + "";
  }

  /** Plain text, then a placeholder: the text is copied and the placeholder replaced. */
  lemma RenderSlot(p: string, n: string, rest: string, m: Placeholders)
    requires '{' !in p && SimpleName(n)
    ensures Render(p + Placeholder(n) + rest, m) == p + Lookup(m, n) + Render(rest, m)
  {
    assert p + Placeholder(n) + rest == p + (Placeholder(n) + rest);
    RenderPlain(p, Placeholder(n) + rest, m);
    RenderToken(n, rest, m);
  }

  lemma Regroup4(x0: string, x1: string, x2: string, x3: string)
    ensures x0 + x1 + x2 + x3 == x0 + x1 + (x2 + x3)
  {
  }

  lemma Regroup6(x0: string, x1: string, x2: string, x3: string, x4: string, x5: string)
    ensures x0 + x1 + x2 + x3 + x4 + x5 == x0 + x1 + (x2 + x3 + x4 + x5)
  {
  }

  lemma Regroup8(x0: string, x1: string, x2: string, x3: string, x4: string, x5: string, x6: string, x7: string)
    ensures x0 + x1 + x2 + x3 + x4 + x5 + x6 + x7 == x0 + x1 + (x2 + x3 + x4 + x5 + x6 + x7)
  {
  }

  lemma Regroup10(x0: string, x1: string, x2: string, x3: string, x4: string, x5: string, x6: string,
                  x7: string, x8: string, x9: string)
    ensures x0 + x1 + x2 + x3 + x4 + x5 + x6 + x7 + x8 + x9 == x0 + x1 + (x2 + x3 + x4 + x5 + x6 + x7 + x8 + x9)
  {
  }

  /** Plain text then a placeholder, at the end of the template. */
  lemma RenderOneSlot(p0: string, n1: string, m: Placeholders)
    requires '{' !in p0 && SimpleName(n1)
    ensures Render(p0 + Placeholder(n1), m) == p0 + Lookup(m, n1)
  {
    var q1, l1 := Placeholder(n1), Lookup(m, n1);
    assert p0 + q1 == p0 + q1 + [];
    RenderSlot(p0, n1, [], m);
    assert p0 + l1 + [] == p0 + l1;
  }

  /** A template of two placeholders separated by plain text renders slot by slot. */
  lemma RenderTwoSlots(p0: string, n1: string, p1: string, n2: string, m: Placeholders)
    requires '{' !in p0 && '{' !in p1 && SimpleName(n1) && SimpleName(n2)
    ensures Render(p0 + Placeholder(n1) + p1 + Placeholder(n2), m) == p0 + Lookup(m, n1) + p1 + Lookup(m, n2)
  {
    var q1, q2 := Placeholder(n1), Placeholder(n2);
    var l1, l2 := Lookup(m, n1), Lookup(m, n2);
    Regroup4(p0, q1, p1, q2);
    RenderSlot(p0, n1, p1 + q2, m);
    RenderOneSlot(p1, n2, m);
    Regroup4(p0, l1, p1, l2);
  }

  /** A template of three placeholders separated by plain text renders slot by slot. */
  lemma RenderThreeSlots(p0: string, n1: string, p1: string, n2: string, p2: string, n3: string, m: Placeholders)
    requires '{' !in p0 && '{' !in p1 && '{' !in p2
    requires SimpleName(n1) && SimpleName(n2) && SimpleName(n3)
    ensures Render(p0 + Placeholder(n1) + p1 + Placeholder(n2) + p2 + Placeholder(n3), m)
      == p0 + Lookup(m, n1) + p1 + Lookup(m, n2) + p2 + Lookup(m, n3)
  {
    var q1, q2, q3 := Placeholder(n1), Placeholder(n2), Placeholder(n3);
    var l1, l2, l3 := Lookup(m, n1), Lookup(m, n2), Lookup(m, n3);
    Regroup6(p0, q1, p1, q2, p2, q3);
    RenderSlot(p0, n1, p1 + q2 + p2 + q3, m);
    RenderTwoSlots(p1, n2, p2, n3, m);
    Regroup6(p0, l1, p1, l2, p2, l3);
  }

  /** A template of four placeholders separated by plain text renders slot by slot. */
  lemma RenderFourSlots(p0: string, n1: string, p1: string, n2: string, p2: string, n3: string,
                        p3: string, n4: string, m: Placeholders)
    requires '{' !in p0 && '{' !in p1 && '{' !in p2 && '{' !in p3
    requires SimpleName(n1) && SimpleName(n2) && SimpleName(n3) && SimpleName(n4)
    ensures Render(p0 + Placeholder(n1) + p1 + Placeholder(n2) + p2 + Placeholder(n3) + p3 + Placeholder(n4), m)
      == p0 + Lookup(m, n1) + p1 + Lookup(m, n2) + p2 + Lookup(m, n3) + p3 + Lookup(m, n4)
  {
    var q1, q2, q3, q4 := Placeholder(n1), Placeholder(n2), Placeholder(n3), Placeholder(n4);
    var l1, l2, l3, l4 := Lookup(m, n1), Lookup(m, n2), Lookup(m, n3), Lookup(m, n4);
    Regroup8(p0, q1, p1, q2, p2, q3, p3, q4);
    RenderSlot(p0, n1, p1 + q2 + p2 + q3 + p3 + q4, m);
    RenderThreeSlots(p1, n2, p2, n3, p3, n4, m);
    Regroup8(p0, l1, p1, l2, p2, l3, p3, l4);
  }

  /** A template of five placeholders separated by plain text renders slot by slot. */
  lemma RenderFiveSlots(p0: string, n1: string, p1: string, n2: string, p2: string, n3: string,
                        p3: string, n4: string, p4: string, n5: string, m: Placeholders)
    requires '{' !in p0 && '{' !in p1 && '{' !in p2 && '{' !in p3 && '{' !in p4
    requires SimpleName(n1) && SimpleName(n2) && SimpleName(n3) && SimpleName(n4) && SimpleName(n5)
    ensures Render(p0 + Placeholder(n1) + p1 + Placeholder(n2) + p2 + Placeholder(n3) + p3 + Placeholder(n4)
                   + p4 + Placeholder(n5), m)
      == p0 + Lookup(m, n1) + p1 + Lookup(m, n2) + p2 + Lookup(m, n3) + p3 + Lookup(m, n4) + p4 + Lookup(m, n5)
  {
    var q1, q2, q3, q4, q5 := Placeholder(n1), Placeholder(n2), Placeholder(n3), Placeholder(n4), Placeholder(n5);
    var l1, l2, l3, l4, l5 := Lookup(m, n1), Lookup(m, n2), Lookup(m, n3), Lookup(m, n4), Lookup(m, n5);
    Regroup10(p0, q1, p1, q2, p2, q3, p3, q4, p4, q5);
    RenderSlot(p0, n1, p1 + q2 + p2 + q3 + p3 + q4 + p4 + q5, m);
    RenderFourSlots(p1, n2, p2, n3, p3, n4, p4, n5, m);
    Regroup10(p0, l1, p1, l2, p2, l3, p3, l4, p4, l5);
  }

  /** What the default template renders: the level name, local time, scope and message in their frame. */
  lemma DefaultTemplateRenders(m: Placeholders)
    ensures Render(DefaultFormatter, m)
      == "[" + Lookup(m, "levelName") + "] " + Lookup(m, "timestampLocalIso") + " "
         + Lookup(m, "scope") + " : " + Lookup(m, "rawMessage")
  {
    assert SimpleName("levelName") && SimpleName("timestampLocalIso");
    assert SimpleName("scope") && SimpleName("rawMessage");
    RenderFourSlots("[", "levelName", "] ", "timestampLocalIso", " ", "scope", " : ", "rawMessage", m);
  }

  /** The rank of a Critical record renders as "0": a falsy but non-null value is substituted. */
  lemma CriticalRankRendersZero(d: RecordData, r: Renderers)
    requires d.level == Critical
    ensures Render("{{levelRank}}", PlaceholdersOf(d, r)) == "0"
  {
    var m := PlaceholdersOf(d, r);
    PlaceholderValues(d, r);
    assert Lookup(m, "levelRank") == "0";
    var q := Placeholder("levelRank");
    assert "{{levelRank}}" == q + [];
    assert SimpleName("levelRank");
    RenderToken("levelRank", [], m);
  }

  /** The record's own template wins over the logger's. */
  function ChooseTemplate(recordFormatter: Option<string>, loggerFormatter: Option<string>): (t: Option<string>)
    ensures recordFormatter.Some? ==> t == recordFormatter
    ensures recordFormatter.None? ==> t == loggerFormatter
  {
    if recordFormatter.Some? then recordFormatter else loggerFormatter
  }

  /**
   * The text `formatLog` returns for these templates and placeholders; `None` when both
   * templates are null, where the call fails with a TypeError.
   */
  function Formatted(recordFormatter: Option<string>, loggerFormatter: Option<string>, m: Placeholders): (s: Option<string>)
    ensures s.Some? <==> recordFormatter.Some? || loggerFormatter.Some?
    ensures s.Some? ==> s.value == Render(ChooseTemplate(recordFormatter, loggerFormatter).value, m)
  {
    match ChooseTemplate(recordFormatter, loggerFormatter)
    case None => None
    case Some(t) => Some(Render(t, m))
  }

  /** `BaseLogger`: the threshold level and the template shared by every logger. */
  class BaseLogger {
    var level: Option<Level>
    var formatter: Option<string>

    constructor()
      ensures level == Some(Debug) && formatter == Some(DefaultFormatter)
    {
      formatter := Some(DefaultFormatter);
      level := Some(Debug);
    }

    method SetLevel(l: Level)
      modifies this
      ensures level == Some(l) && formatter == old(formatter)
    {
      level := Some(l);
    }

    method GetLevel() returns (l: Option<Level>)
      ensures l == level
    {
      l := level;
    }

    method SetFormatter(f: string)
      modifies this
      ensures formatter == Some(f) && level == old(level)
    {
      formatter := Some(f);
    }

    /**
     * `formatLog`: fills the record's placeholder cache, then renders the record's template,
     * or this logger's when the record has none.
     */
    method FormatLog(rec: LogRecord, r: Renderers) returns (text: Option<string>)
      modifies rec
      ensures rec.Data() == old(rec.Data()) && rec.timestampGenerator == old(rec.timestampGenerator)
      ensures rec.formatPlaceholders == Some(old(rec.CurrentPlaceholders(r)))
      ensures text == Formatted(rec.formatter, formatter, old(rec.CurrentPlaceholders(r)))
    {
      var placeholderValues := rec.GetFormatPlaceholders(r);
      var current := ChooseTemplate(rec.formatter, formatter);
      if current.None? {
        text := None;
      } else {
        text := Some(Render(current.value, placeholderValues));
      }
    }
  }
}
