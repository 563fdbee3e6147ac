/** The severity table of src/logLevel.ts: six levels, each with a rank and a display name. */
module LogLevels {

  datatype Level = Critical | Error | Warn | Info | Trace | Debug

  /** The `{ rank, name }` record stored in the table for each level. */
  datatype LevelInfo = LevelInfo(rank: nat, name: string)

  /** All levels, most severe first. */
  const AllLevels: seq<Level> := [Critical, Error, Warn, Info, Trace, Debug]

  /** The string value of the enum member (`logLevel.Critical == "Critical"`, ...). */
  function EnumValue(l: Level): string {
    match l
    case Critical => "Critical"
    case Error => "Error"
    case Warn => "Warn"
    case Info => "Info"
    case Trace => "Trace"
    case Debug => "Debug"
  }

  function Rank(l: Level): (r: nat)
    ensures r < |AllLevels| && AllLevels[r] == l
  {
    match l
    case Critical => 0
    case Error => 1
    case Warn => 2
    case Info => 3
    case Trace => 4
    case Debug => 5
  }

  function Name(l: Level): string {
    match l
    case Critical => "CRITICAL"
    case Error => "ERROR"
    case Warn => "WARN"
    case Info => "INFO"
    case Trace => "TRACE"
    case Debug => "DEBUG"
  }

  /** `logLevels[l]`. */
  function InfoOf(l: Level): (i: LevelInfo)
    ensures i.rank == Rank(l) && i.name == Name(l)
  {
    LevelInfo(Rank(l), Name(l))
  }

  /** The level stored at a given rank: the inverse of Rank. */
  function LevelAt(r: nat): (l: Level)
    requires r < |AllLevels|
    ensures Rank(l) == r
  {
    AllLevels[r]
  }

  /** `s` is at least as severe as `t`: the comparison every threshold check makes. */
  predicate AtLeastAsSevere(s: Level, t: Level) {
    Rank(s) <= Rank(t)
  }

  lemma RanksAreExact()
    ensures Rank(Critical) == 0 && Rank(Error) == 1 && Rank(Warn) == 2
    ensures Rank(Info) == 3 && Rank(Trace) == 4 && Rank(Debug) == 5
  {
  }

  /** Exactly six levels, each one listed once, at the position of its rank. */
  lemma SixLevels(l: Level)
    ensures |AllLevels| == 6 && l in AllLevels
    ensures forall i, j :: 0 <= i < j < |AllLevels| ==> AllLevels[i] != AllLevels[j]
    ensures forall i :: 0 <= i < |AllLevels| ==> Rank(AllLevels[i]) == i
  {
  }

  /** Ranks are pairwise distinct, so Rank and LevelAt are inverse bijections onto 0..5. */
  lemma RankInjective(a: Level, b: Level)
    ensures Rank(a) == Rank(b) ==> a == b
    ensures LevelAt(Rank(a)) == a
  {
  }

  /** AtLeastAsSevere is a total order on the six levels. */
  lemma SeverityIsTotalOrder(a: Level, b: Level, c: Level)
    ensures AtLeastAsSevere(a, a)
    ensures AtLeastAsSevere(a, b) && AtLeastAsSevere(b, a) ==> a == b
    ensures AtLeastAsSevere(a, b) && AtLeastAsSevere(b, c) ==> AtLeastAsSevere(a, c)
    ensures AtLeastAsSevere(a, b) || AtLeastAsSevere(b, a)
  {
    RankInjective(a, b);
  }

  function ToUpperChar(c: char): char {
    if 'a' <= c <= 'z' then (c as int - 32) as char else c
  }

  function ToUpper(s: string): (u: string)
    ensures |u| == |s|
    ensures forall i :: 0 <= i < |s| ==> u[i] == ToUpperChar(s[i])
  {
    if s == [] then [] else [ToUpperChar(s[0])] + ToUpper(s[1..])
  }

  /** Each display name is the upper-case form of the level's enum value. */
  lemma NameIsUpperCaseOfValue(l: Level)
    ensures Name(l) == ToUpper(EnumValue(l))
  {
    var v := EnumValue(l);
    var u := ToUpper(v);
    assert u == Name(l) by {
      assert |u| == |Name(l)|;
      forall i | 0 <= i < |u| ensures u[i] == Name(l)[i] {
        assert u[i] == ToUpperChar(v[i]);
      }
    }
  }
}
