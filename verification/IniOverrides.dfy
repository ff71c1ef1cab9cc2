/** Declaring configuration overrides in the ini file, one `section.key = value` a line
    (`ini_config.py`: `owned_env_names`, `parse_ini_overrides`). */
module IniOverrides {
  import opened Prelude
  import opened EnvNames
  import OutcomeRecord

  /** ASCII white space, as `str.strip` removes it. */
  predicate IsSpace(c: char) {
    c == ' ' || '\t' <= c <= '\r' || '\U{1c}' <= c <= '\U{1f}'
  }

  function StripLeft(s: string): string {
    if s != "" && IsSpace(s[0]) then StripLeft(s[1..]) else s
  }

  function StripRight(s: string): string {
    if s != "" && IsSpace(s[|s| - 1]) then StripRight(s[..|s| - 1]) else s
  }

  function Strip(s: string): string {
    StripRight(StripLeft(s))
  }

  /** The index of the first `c`, or the length. */
  function FindFirst(s: string, c: char): (i: nat)
    ensures i <= |s| && c !in s[..i] && (i < |s| ==> s[i] == c)
  {
    if s == "" then 0
    else if s[0] == c then 0
    else
      var i := FindFirst(s[1..], c);
      assert s[..i + 1] == [s[0]] + s[1..][..i];
      i + 1
  }

  datatype Line = Line(pair: Pair, value: string)

  /** The value after the first `=`; the section and key around the last `.` before it. */
  function Split(line: string): Option<Line> {
    var eq := FindFirst(line, '=');
    if eq == |line| then None
    else
      var dot := OutcomeRecord.RFind(line[..eq], '.');
      if dot < 0 then None
      else Some(Line((Strip(line[..dot]), Strip(line[dot + 1..eq])), Strip(line[eq + 1..])))
  }

  ghost predicate AllSpace(s: string) {
    forall c :: c in s ==> IsSpace(c)
  }

  /** White space goes from both ends, and nothing else does. */
  lemma {:induction false} StripLeftCuts(s: string)
    ensures |StripLeft(s)| <= |s|
    ensures AllSpace(s[..|s| - |StripLeft(s)|]) && s[|s| - |StripLeft(s)|..] == StripLeft(s)
    ensures StripLeft(s) == "" || !IsSpace(StripLeft(s)[0])
  {
    if s != "" && IsSpace(s[0]) {
      StripLeftCuts(s[1..]);
      assert s == [s[0]] + s[1..];
    }
  }

  lemma {:induction false} StripRightCuts(s: string)
    ensures |StripRight(s)| <= |s|
    ensures AllSpace(s[|StripRight(s)|..]) && s[..|StripRight(s)|] == StripRight(s)
    ensures var left := StripRight(s); left == "" || !IsSpace(left[|left| - 1])
  {
    if s != "" && IsSpace(s[|s| - 1]) {
      StripRightCuts(s[..|s| - 1]);
      assert s == s[..|s| - 1] + [s[|s| - 1]];
    }
  }

  lemma StripCuts(s: string) returns (before: string, after: string)
    ensures AllSpace(before) && AllSpace(after) && s == before + Strip(s) + after
    ensures Strip(s) == "" || (!IsSpace(Strip(s)[0]) && !IsSpace(Strip(s)[|Strip(s)| - 1]))
  {
    var left := StripLeft(s);
    StripLeftCuts(s);
    StripRightCuts(left);
    before, after := s[..|s| - |left|], left[|Strip(s)|..];
  }

  /** The line is read at its first `=`, and at the last dot before that. */
  lemma LineReads(section: string, key: string, value: string)
    requires '=' !in section && '=' !in key && '.' !in key
    ensures Split(section + "." + key + "=" + value) == Some(Line((Strip(section), Strip(key)), Strip(value)))
  {
    var option := section + "." + key;
    var line := section + "." + key + "=" + value;
    assert line[|option|] == '=';
    assert forall i :: 0 <= i < |option| ==> line[i] == option[i] && option[i] in option;
    FirstAt(line, '=', |option|);
    assert line[..|option|] == option;
    LastAt(option, '.', |section|);
    assert line[..|section|] == section && line[|section| + 1..|option|] == key && line[|option| + 1..] == value;
  }

  lemma FirstAt(s: string, c: char, at: nat)
    requires at < |s| && s[at] == c && c !in s[..at]
    ensures FindFirst(s, c) == at
  {
  }

  lemma LastAt(s: string, c: char, at: nat)
    requires at < |s| && s[at] == c && c !in s[at + 1..]
    ensures OutcomeRecord.RFind(s, c) == at
  {
  }

  /** A line is not read when it has no `=`, or no dot before the first one. */
  lemma UnreadExactly(line: string)
    ensures Split(line).None? <==> '=' !in line || '.' !in line[..FindFirst(line, '=')]
  {
  }

  /** The owned configuration variables; the others owned have no option name. */
  predicate Denied(v: Var) {
    Owned(v) && !v.Home? && !v.ConfigPath? && !v.BootstrapState?
  }

  ghost predicate Accepted(line: string) {
    var split := Split(line);
    split.Some? && Nameable(split.value.pair) && !Denied(VarFor(split.value.pair))
  }

  ghost predicate AllAccepted(lines: seq<string>) {
    forall i :: 0 <= i < |lines| ==> Accepted(lines[i])
  }

  function PairOf(line: string): Pair {
    if Split(line).Some? then Split(line).value.pair else ("", "")
  }

  function ValueOf(line: string): string {
    if Split(line).Some? then Split(line).value.value else ""
  }

  function NameOf(line: string): string {
    Mangled(PairOf(line))
  }

  // The next four predicates are about lines read by any functions, not only these.

  ghost predicate Distinct(lines: seq<string>, name: string -> string) {
    forall i, j :: 0 <= i < j < |lines| ==> name(lines[i]) != name(lines[j])
  }

  ghost predicate Occurs(lines: seq<string>, name: string -> string, n: string) {
    exists i :: 0 <= i < |lines| && name(lines[i]) == n
  }

  ghost predicate Collected(lines: seq<string>, name: string -> string, sources: set<string>) {
    forall n :: n in sources <==> Occurs(lines, name, n)
  }

  /** `overrides` holds each line's value under its pair, and nothing else. */
  ghost predicate Declares(lines: seq<string>, pair: string -> Pair, value: string -> string,
                           overrides: map<Pair, string>) {
    && (forall i :: 0 <= i < |lines| ==> pair(lines[i]) in overrides && overrides[pair(lines[i])] == value(lines[i]))
    && (forall p :: p in overrides ==> exists i :: 0 <= i < |lines| && pair(lines[i]) == p)
  }

  ghost predicate AllSeparate(lines: seq<string>) {
    Distinct(lines, NameOf)
  }

  method ReadLine(line: string) returns (read: Option<Line>)
    ensures read.Some? <==> Accepted(line)
    ensures read.Some? ==> read.value.pair == PairOf(line) && read.value.value == ValueOf(line)
  {
    var split := Split(line);
    if split.None? {
      return None;
    }
    var ok := IsNameable(split.value.pair);
    return if !ok || Denied(VarFor(split.value.pair)) then None else split;
  }

  /** Accepted exactly when every line is well formed, sets nothing bootstrap owns, and no two
      set one variable. */
  method ParseIniOverrides(lines: seq<string>) returns (result: Result<map<Pair, string>, string>)
    ensures result.Ok? <==> AllAccepted(lines) && AllSeparate(lines)
    ensures result.Ok? ==> Declares(lines, PairOf, ValueOf, result.value)
  {
    var overrides: map<Pair, string> := map[];
    var sources: set<string> := {};
    for i := 0 to |lines|
      invariant SoFar(lines[..i], overrides, sources)
    {
      var read := ReadLine(lines[i]);
      if read.None? {
        return Err("not an acceptable section.key = value");
      }
      var name := NameOf(lines[i]);
      SoFarMore(lines, i, overrides, sources);
      if name in sources {
        return Err("one variable set twice");
      }
      sources := sources + {name};
      overrides := overrides[read.value.pair := read.value.value];
    }
    assert lines[..|lines|] == lines;
    return Ok(overrides);
  }

  ghost predicate SoFar(lines: seq<string>, overrides: map<Pair, string>, sources: set<string>) {
    && AllAccepted(lines) && AllSeparate(lines)
    && Declares(lines, PairOf, ValueOf, overrides) && Collected(lines, NameOf, sources)
  }

  lemma SoFarMore(lines: seq<string>, i: nat, overrides: map<Pair, string>, sources: set<string>)
    requires i < |lines| && SoFar(lines[..i], overrides, sources) && Accepted(lines[i])
    ensures NameOf(lines[i]) in sources ==> !AllSeparate(lines)
    ensures NameOf(lines[i]) !in sources ==>
              SoFar(lines[..i + 1], overrides[PairOf(lines[i]) := ValueOf(lines[i])], sources + {NameOf(lines[i])})
  {
    OneMoreLine(lines, i);
    OneMoreName(lines[..i], lines[i], NameOf, sources);
    if NameOf(lines[i]) in sources {
      PartDistinct(lines, i + 1, NameOf);
    } else {
      NewPair(lines[..i], lines[i]);
      OneMoreOverride(lines[..i], lines[i], PairOf, ValueOf, overrides);
    }
  }

  lemma OneMoreLine(lines: seq<string>, i: nat)
    requires i < |lines|
    ensures lines[..i + 1] == lines[..i] + [lines[i]]
  {
  }

  lemma OneMoreName(front: seq<string>, line: string, name: string -> string, sources: set<string>)
    requires Collected(front, name, sources) && Distinct(front, name)
    ensures Collected(front + [line], name, sources + {name(line)})
    ensures Distinct(front + [line], name) <==> name(line) !in sources
  {
    var more := front + [line];
    assert more[|front|] == line;
    forall n ensures n in sources + {name(line)} <==> Occurs(more, name, n) {
      if Occurs(front, name, n) {
        var i :| 0 <= i < |front| && name(front[i]) == n;
        assert more[i] == front[i];
      }
    }
    if name(line) in sources {
      assert Occurs(front, name, name(line));
      var i :| 0 <= i < |front| && name(front[i]) == name(line);
      assert name(more[i]) == name(more[|front|]);
    }
  }

  lemma PartDistinct(lines: seq<string>, i: nat, name: string -> string)
    requires i <= |lines|
    ensures Distinct(lines, name) ==> Distinct(lines[..i], name)
  {
  }

  lemma NewPair(front: seq<string>, line: string)
    requires Distinct(front + [line], NameOf)
    ensures forall i :: 0 <= i < |front| ==> PairOf(front[i]) != PairOf(line)
  {
    forall i | 0 <= i < |front| ensures PairOf(front[i]) != PairOf(line) {
      assert (front + [line])[i] == front[i] && (front + [line])[|front|] == line;
      assert NameOf(front[i]) != NameOf(line);
    }
  }

  lemma OneMoreOverride(front: seq<string>, line: string, pair: string -> Pair, value: string -> string,
                        overrides: map<Pair, string>)
    requires Declares(front, pair, value, overrides)
    requires forall i :: 0 <= i < |front| ==> pair(front[i]) != pair(line)
    ensures Declares(front + [line], pair, value, overrides[pair(line) := value(line)])
  {
    var lines, more := front + [line], overrides[pair(line) := value(line)];
    assert lines[|front|] == line;
    forall p | p in more ensures exists i :: 0 <= i < |lines| && pair(lines[i]) == p {
      if p in overrides {
        var i :| 0 <= i < |front| && pair(front[i]) == p;
        assert lines[i] == front[i];
      }
    }
  }

  function Programmatic(overrides: map<Pair, string>): Overrides {
    map p | p in overrides :: Some(overrides[p])
  }

  /** What the ini declares is accepted again by `airflow_config`, and its assignments set
      only variables bootstrap does not own. */
  lemma IniOverridesApply(lines: seq<string>, overrides: map<Pair, string>)
    requires AllAccepted(lines) && AllSeparate(lines) && Declares(lines, PairOf, ValueOf, overrides)
    ensures AllNameable(Programmatic(overrides)) && Separate(Programmatic(overrides))
    ensures forall assignments: Assignments :: Resolves(Programmatic(overrides), assignments) ==>
                                                 LeavesOwnedAlone(assignments)
  {
    var given := Programmatic(overrides);
    forall p | p in given ensures Nameable(p) && !Owned(VarFor(p)) {
      var i :| 0 <= i < |lines| && PairOf(lines[i]) == p;
      assert Accepted(lines[i]);
      OptionsAreConfiguration(p);
    }
    forall p, q | p in given && q in given && p != q ensures Mangled(p) != Mangled(q) {
      var i :| 0 <= i < |lines| && PairOf(lines[i]) == p;
      var j :| 0 <= j < |lines| && PairOf(lines[j]) == q;
      assert i < j || j < i;
      assert NameOf(lines[i]) != NameOf(lines[j]);
    }
    forall assignments: Assignments | Resolves(given, assignments) ensures LeavesOwnedAlone(assignments) {
      forall v | v in assignments ensures !Owned(v) && assignments[v].Some? {
        assert Names(given, v);
        var p :| p in given && VarFor(p) == v;
      }
    }
  }

  ghost predicate LeavesOwnedAlone(assignments: Assignments) {
    forall v :: v in assignments ==> !Owned(v) && assignments[v].Some?
  }
}
