/**
  The shader-program wrapper: the uniform-location memo, `Bind`, and the
  source-text assembly of `ParseShader`. Compilation and linking are GL
  calls with no logic of their own; the program id they produce is an input.
*/
module Shader {
  import opened Wrappers
  import opened Gl

  /** A linked program and its uniform-location cache. */
  datatype Program = Program(id: Name, cache: map<string, int>)

  datatype Lookup = Lookup(location: int, program: Program, queried: bool)

  /** `GetUniformLocation`: a cache hit answers from the cache; a miss asks
      the driver (`query`, standing for glGetUniformLocation) once and
      remembers the answer. */
  function GetUniformLocation(p: Program, name: string, query: (Name, string) -> int): (r: Lookup)
    ensures name in p.cache ==> r == Lookup(p.cache[name], p, false)
    ensures name !in p.cache ==> r.queried && r.location == query(p.id, name)
    ensures r.program.id == p.id
    ensures r.program.cache.Keys == p.cache.Keys + {name}
    ensures r.program.cache[name] == r.location
    ensures forall other | other in p.cache :: r.program.cache[other] == p.cache[other]
  {
    if name in p.cache then Lookup(p.cache[name], p, false)
    else
      var location := query(p.id, name);
      Lookup(location, p.(cache := p.cache[name := location]), true)
  }

  /** Once a name has been looked up, looking it up again returns the same
      location, issues no query and leaves the program unchanged. */
  lemma LookupIsStable(p: Program, name: string, query: (Name, string) -> int)
    ensures var first := GetUniformLocation(p, name, query);
            GetUniformLocation(first.program, name, query) == Lookup(first.location, first.program, false)
  {
  }

  datatype Lookups = Lookups(locations: seq<int>, program: Program, queries: seq<string>)

  /** A sequence of lookups, as the `Set*` calls of a pass issue them: one
      location per name, the same program, nothing dropped from the cache,
      and at most one query per lookup. */
  function LookupAll(p: Program, names: seq<string>, query: (Name, string) -> int): (r: Lookups)
    ensures |r.locations| == |names| && |r.queries| <= |names|
    ensures r.program.id == p.id
    ensures forall n | n in p.cache :: n in r.program.cache
    decreases |names|
  {
    if names == [] then Lookups([], p, [])
    else
      var first := GetUniformLocation(p, names[0], query);
      var rest := LookupAll(first.program, names[1..], query);
      Lookups([first.location] + rest.locations, rest.program,
              (if first.queried then [names[0]] else []) + rest.queries)
  }

  /** Every lookup in a sequence returns the location the name had on entry
      if it was cached, and the driver's answer for it otherwise; afterwards
      every looked-up name is cached. */
  lemma {:induction false} LookupAllLocations(p: Program, names: seq<string>, query: (Name, string) -> int)
    ensures var r := LookupAll(p, names, query);
            && |r.locations| == |names|
            && (forall i | 0 <= i < |names| ::
                  r.locations[i] == if names[i] in p.cache then p.cache[names[i]] else query(p.id, names[i]))
            && r.program.id == p.id
            && r.program.cache.Keys == p.cache.Keys + (set n | n in names)
    decreases |names|
  {
    if names != [] {
      var first := GetUniformLocation(p, names[0], query);
      LookupAllLocations(first.program, names[1..], query);
      var r := LookupAll(p, names, query);
      assert (set n | n in names) == {names[0]} + (set n | n in names[1..]);
      forall i | 0 <= i < |names|
        ensures r.locations[i] == if names[i] in p.cache then p.cache[names[i]] else query(p.id, names[i])
      {
        if i > 0 {
          assert names[i] == names[1..][i - 1];
        }
      }
    }
  }

  /** Over any sequence of lookups the driver is asked exactly once for each
      name that was not already cached, and never for a cached one. */
  lemma {:induction false} LookupAllQueriesOncePerName(p: Program, names: seq<string>, query: (Name, string) -> int)
    ensures var r := LookupAll(p, names, query);
            && (set n | n in r.queries) == (set n | n in names) - p.cache.Keys
            && (forall i, j | 0 <= i < j < |r.queries| :: r.queries[i] != r.queries[j])
    decreases |names|
  {
    if names != [] {
      var first := GetUniformLocation(p, names[0], query);
      LookupAllQueriesOncePerName(first.program, names[1..], query);
      var rest := LookupAll(first.program, names[1..], query);
      var r := LookupAll(p, names, query);
      var head := if first.queried then [names[0]] else [];
      assert r.queries == head + rest.queries;
      QueriedNamesSplit(p, names, first.program.cache.Keys, (set n | n in rest.queries), head);
      if first.queried {
        assert names[0] !in (set n | n in rest.queries);
        DistinctCons(names[0], rest.queries);
      }
    }
  }

  /** The set step of the induction above, on sets alone. */
  lemma QueriedNamesSplit(p: Program, names: seq<string>, cached: set<string>, restQueried: set<string>, head: seq<string>)
    requires names != []
    requires cached == p.cache.Keys + {names[0]}
    requires restQueried == (set n | n in names[1..]) - cached
    requires head == (if names[0] in p.cache then [] else [names[0]])
    ensures (set n | n in head) + restQueried == (set n | n in names) - p.cache.Keys
  {
    assert (set n | n in names) == {names[0]} + (set n | n in names[1..]);
  }

  /** Putting a new name in front of a sequence without repeats keeps it
      without repeats. */
  lemma DistinctCons(x: string, s: seq<string>)
    requires x !in (set n | n in s)
    requires forall i, j | 0 <= i < j < |s| :: s[i] != s[j]
    ensures forall i, j | 0 <= i < j < |[x] + s| :: ([x] + s)[i] != ([x] + s)[j]
  {
    forall i, j | 0 <= i < j < |[x] + s| ensures ([x] + s)[i] != ([x] + s)[j] {
      if i == 0 {
        assert ([x] + s)[j] == s[j - 1];
        assert s[j - 1] in (set n | n in s);
      } else {
        assert ([x] + s)[i] == s[i - 1];
      }
    }
  }

  /** `Bind`: throws when the program id is 0, otherwise makes it current. */
  function Bind(g: State, p: Program): (r: Result<State, Fault>)
    ensures r.Failure? <==> p.id == 0
    ensures r.Failure? ==> r.error == ShaderNotInitialized
    ensures r.Success? ==> r.value == g.(program := p.id)
  {
    if p.id == 0 then Failure(ShaderNotInitialized) else Success(UseProgram(g, p.id))
  }

  // ---- source text --------------------------------------------------------------

  /** Index of the first '\n' of `text`, or its length if there is none. */
  function LineEnd(text: string): (i: nat)
    ensures i <= |text|
    ensures forall k | 0 <= k < i :: text[k] != '\n'
    ensures i < |text| ==> text[i] == '\n'
  {
    if text == [] || text[0] == '\n' then 0 else 1 + LineEnd(text[1..])
  }

  /** The lines `std::getline` extracts: each '\n' ends a line and is
      dropped; a final segment without '\n' is a line only if non-empty. */
  function Lines(text: string): (r: seq<string>)
    ensures forall k | 0 <= k < |r| :: '\n' !in r[k]
    decreases |text|
  {
    if text == [] then []
    else
      var i := LineEnd(text);
      if i == |text| then [text] else [text[..i]] + Lines(text[i + 1..])
  }

  /** Concatenation of the lines, each followed by one '\n'. */
  function Join(lines: seq<string>): string {
    if lines == [] then [] else lines[0] + "\n" + Join(lines[1..])
  }

  /** The text with a '\n' added unless it is empty or already ends in one. */
  function Terminated(text: string): string {
    if text == [] || text[|text| - 1] == '\n' then text else text + "\n"
  }

  /** `ParseShader` over the file's contents (the file read is I/O): the
      result is the file itself, newline-terminated. */
  function ParseShader(file: string): (content: string)
    ensures content == Terminated(file)
  {
    JoinLines(file);
    Join(Lines(file))
  }

  lemma {:induction false} JoinLines(text: string)
    ensures Join(Lines(text)) == Terminated(text)
    decreases |text|
  {
    if text != [] {
      var i := LineEnd(text);
      if i == |text| {
        LastLine(text);
      } else {
        JoinLines(text[i + 1..]);
        LineThenRest(text, i);
      }
    }
  }

  /** A text without '\n' is one line, and gets one '\n' added. */
  lemma LastLine(text: string)
    requires text != [] && LineEnd(text) == |text|
    ensures Join(Lines(text)) == Terminated(text)
  {
    assert Lines(text) == [text];
    assert text[|text| - 1] != '\n';
  }

  /** A text whose first line ends at `i` joins back as that line, its '\n'
      and the rest joined back. */
  lemma LineThenRest(text: string, i: nat)
    requires i == LineEnd(text) < |text|
    requires Join(Lines(text[i + 1..])) == Terminated(text[i + 1..])
    ensures Join(Lines(text)) == Terminated(text)
  {
    var line := text[..i];
    var rest := text[i + 1..];
    assert Lines(text) == [line] + Lines(rest);
    JoinCons(line, Lines(rest));
    SplitAtBreak(text, i);
    TerminatedAfterLine(line, rest);
  }

  /** A text is its part before a '\n' at `i`, that '\n', and its part after. */
  lemma SplitAtBreak(text: string, i: nat)
    requires i < |text| && text[i] == '\n'
    ensures text == text[..i] + "\n" + text[i + 1..]
  {
  }

  lemma JoinCons(line: string, lines: seq<string>)
    ensures Join([line] + lines) == line + "\n" + Join(lines)
  {
    assert ([line] + lines)[1..] == lines;
  }

  /** Terminating the rest after a complete line terminates the whole. */
  lemma TerminatedAfterLine(line: string, rest: string)
    ensures line + "\n" + Terminated(rest) == Terminated(line + "\n" + rest)
  {
    var text := line + "\n" + rest;
    if rest == [] {
      assert text == line + "\n";
    } else if rest[|rest| - 1] == '\n' {
      assert text[|text| - 1] == rest[|rest| - 1];
    } else {
      assert text[|text| - 1] == rest[|rest| - 1];
      assert line + "\n" + (rest + "\n") == text + "\n";
    }
  }

  lemma LineEndAfter(a: string, b: string)
    requires '\n' !in a
    ensures LineEnd(a + "\n" + b) == |a|
  {
    var t := a + "\n" + b;
    assert t[|a|] == '\n';
    assert forall k | 0 <= k < |a| :: t[k] == a[k];
  }

  /** Splitting the assembled text recovers the lines: each line is followed
      by exactly one '\n' and nothing else is added. */
  lemma {:induction false} LinesOfJoin(lines: seq<string>)
    requires forall k | 0 <= k < |lines| :: '\n' !in lines[k]
    ensures Lines(Join(lines)) == lines
    ensures ParseShader(Join(lines)) == Join(lines)
  {
    if lines != [] {
      var rest := Join(lines[1..]);
      var t := lines[0] + "\n" + rest;
      LineEndAfter(lines[0], rest);
      assert t[..|lines[0]|] == lines[0];
      assert t[|lines[0]| + 1..] == rest;
      LinesOfJoin(lines[1..]);
      assert Join(lines) == t;
      JoinEndsWithNewline(lines);
    }
  }

  lemma {:induction false} JoinEndsWithNewline(lines: seq<string>)
    requires lines != []
    ensures Join(lines) != [] && Join(lines)[|Join(lines)| - 1] == '\n'
  {
    var rest := Join(lines[1..]);
    if lines[1..] != [] {
      JoinEndsWithNewline(lines[1..]);
    }
    assert Join(lines) == lines[0] + "\n" + rest;
  }
}
