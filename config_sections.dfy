/**
 * `Node._chunkify` and `Node.section`: the running configuration cut into a
 * map from each section's header line to the section's text. A line indented
 * deeper than the current level belongs to the section above it; any other
 * line opens a new section. When a section closes, its body is parsed again one
 * level down if it has sub-sections of its own, and the sub-sections join the
 * map behind the entries already there. At the top level a `banner` line opens
 * a block that runs, verbatim, up to its `EOF` line.
 *
 * `Chunks` is the parse as a function; `Chunkify` is the loop of the source,
 * proved to compute it.
 */
module ConfigSections {

  import opened Wrappers
  import opened Text
  import opened OrderedDict

  /** The exceptions the parse can raise. */
  datatype ParseError =
    /** `sections[key] += line` with no section open (`key` is `None`). */
    | KeyError
    /** `line[indent]` past the end of a sub-section line. */
    | IndexError
    /** `section` found no matching header. */
    | TypeError

  /** The loop variables: the map, the current section's header, the open banner. */
  datatype State = State(sections: Dict, key: Option<string>, banner: Option<string>)

  /** Every value is at most `n` characters long. */
  ghost predicate Bounded(d: Dict, n: nat)
  {
    forall k :: k in d.vals ==> |d.vals[k]| <= n
  }

  /**
   * `is_subsection_present`: whether some line has a space at column `indent`,
   * reading the lines in order and failing on a line too short to have that
   * column before a space was found.
   */
  function SubsectionPresent(ls: seq<string>, indent: nat): (r: Result<bool, ParseError>)
    ensures r == Success(true) ==> exists i :: 0 <= i < |ls| && indent < |ls[i]| && ls[i][indent] == ' ' && PlainBefore(ls, indent, i)
    ensures r == Success(false) ==> PlainBefore(ls, indent, |ls|)
    ensures r.Failure? ==> r.error == IndexError && exists i :: 0 <= i < |ls| && |ls[i]| <= indent && PlainBefore(ls, indent, i)
  {
    if ls == [] then Success(false)
    else if |ls[0]| <= indent then Failure(IndexError)
    else if ls[0][indent] == ' ' then Success(true)
    else
      var r := SubsectionPresent(ls[1..], indent);
      PlainBeforeCons(ls, indent);
      r
  }

  /** The lines before `n` are long enough to have column `indent`, and none has a space there. */
  predicate PlainBefore(ls: seq<string>, indent: nat, n: nat)
    requires n <= |ls|
  {
    forall j :: 0 <= j < n ==> indent < |ls[j]| && ls[j][indent] != ' '
  }

  /** A first line that decides nothing puts the verdict on the rest, one position later. */
  lemma PlainBeforeCons(ls: seq<string>, indent: nat)
    requires ls != [] && indent < |ls[0]| && ls[0][indent] != ' '
    ensures forall n :: 0 <= n <= |ls| - 1 ==> (PlainBefore(ls[1..], indent, n) <==> PlainBefore(ls, indent, n + 1))
  {
    forall n | 0 <= n <= |ls| - 1
      ensures PlainBefore(ls[1..], indent, n) <==> PlainBefore(ls, indent, n + 1)
    {
      assert forall j :: 0 <= j < n ==> ls[1..][j] == ls[j + 1];
    }
  }

  /** Converse: a space at the indent before any short line makes the check succeed. */
  lemma {:induction false} SubsectionPresentTrue(ls: seq<string>, indent: nat, i: nat)
    requires i < |ls| && indent < |ls[i]| && ls[i][indent] == ' ' && PlainBefore(ls, indent, i)
    ensures SubsectionPresent(ls, indent) == Success(true)
  {
    if i > 0 {
      PlainBeforeCons(ls, indent);
      assert ls[1..][i - 1] == ls[i];
      SubsectionPresentTrue(ls[1..], indent, i - 1);
    }
  }

  /** Converse: a line too short for the indent, before any space there, makes the check fail. */
  lemma {:induction false} SubsectionPresentFails(ls: seq<string>, indent: nat, i: nat)
    requires i < |ls| && |ls[i]| <= indent && PlainBefore(ls, indent, i)
    ensures SubsectionPresent(ls, indent) == Failure(IndexError)
  {
    if i > 0 {
      PlainBeforeCons(ls, indent);
      assert ls[1..][i - 1] == ls[i];
      SubsectionPresentFails(ls[1..], indent, i - 1);
    }
  }

  /**
   * The sections of `config` at nesting level `indent`. Below the top level the
   * first line is the header of the section being split, and is skipped.
   */
  function Chunks(config: string, indent: nat): (r: Result<Dict, ParseError>)
    ensures r.Success? ==> Valid(r.value) && Bounded(r.value, |config|)
    decreases |config|, 3, 0
  {
    var lines := SplitLinesKeep(config);
    LenSumSplitLinesKeep(config);
    var start := if indent > 0 && lines != [] then 1 else 0;
    assert lines[..start] == [] || lines[..start] == [lines[0]];
    Walk(config, indent, lines, start, State(Empty, None, None))
  }

  /** The loop of `_chunkify` from line `i` on, in state `st`. */
  function Walk(config: string, indent: nat, lines: seq<string>, i: nat, st: State): (r: Result<Dict, ParseError>)
    requires lines == SplitLinesKeep(config) && LenSum(lines) == |config| && i <= |lines|
    requires Valid(st.sections) && Bounded(st.sections, LenSum(lines[..i]))
    ensures r.Success? ==> Valid(r.value) && Bounded(r.value, |config|)
    decreases |config|, 2, |lines| - i
  {
    if i == |lines| then
      assert lines[..i] == lines;
      Success(st.sections)
    else
      LenSumPrefix(lines, i);
      LenSumPrefixBound(lines, i + 1);
      assert IsLine(lines[i]);
      match Step(config, indent, lines[i], LenSum(lines[..i]), st)
      case Failure(e) => Failure(e)
      case Success(st') => Walk(config, indent, lines, i + 1, st')
  }

  /**
   * One pass of the loop body on `line`, every value so far being at most
   * `bound` long and `bound + |line|` not exceeding the whole text.
   */
  function Step(config: string, indent: nat, line: string, bound: nat, st: State): (r: Result<State, ParseError>)
    requires line != [] && bound + |line| <= |config|
    requires Valid(st.sections) && Bounded(st.sections, bound)
    ensures r.Success? ==> Valid(r.value.sections) && Bounded(r.value.sections, bound + |line|)
    decreases |config|, 1, 2
  {
    if Continues(indent, line, st) then Continue(indent, line, bound, st)
    else Open(config, line, bound, st)
  }

  /** The line stays in the current section or banner: it is in a banner, opens one, or is indented deeper than the level. */
  predicate Continues(indent: nat, line: string, st: State)
  {
    || (indent == 0 && st.banner.Some?)
    || (indent == 0 && StartsWith(line, "banner "))
    || Indent(Rstrip(line)) > indent
  }

  /** The first three branches of the loop body, which neither close nor open a section. */
  function Continue(indent: nat, line: string, bound: nat, st: State): (r: Result<State, ParseError>)
    requires Continues(indent, line, st)
    requires Valid(st.sections) && Bounded(st.sections, bound)
    ensures r.Success? ==> Valid(r.value.sections) && Bounded(r.value.sections, bound + |line|)
  {
    var lineRs := Rstrip(line);
    if indent == 0 && st.banner.Some? then
      if st.banner.value !in st.sections.vals then Failure(KeyError)
      else
        BoundedAppend(st.sections, st.banner.value, line, bound);
        var d := Append(st.sections, st.banner.value, line);
        Success(State(d, st.key, if lineRs == "EOF" then None else st.banner))
    else if indent == 0 && StartsWith(line, "banner ") then
      BoundedSet(st.sections, lineRs, line, bound, bound + |line|);
      Success(State(Set(st.sections, lineRs, line), st.key, Some(lineRs)))
    else if st.key.None? || st.key.value !in st.sections.vals then Failure(KeyError)
    else
      BoundedAppend(st.sections, st.key.value, line, bound);
      Success(st.(sections := Append(st.sections, st.key.value, line)))
  }

  /**
   * The last branch of the loop body: the current section is closed (and
   * re-parsed if need be), then `line` opens a section of its own, keyed by
   * the line without trailing white space; every entry already there keeps
   * its value.
   */
  function Open(config: string, line: string, bound: nat, st: State): (r: Result<State, ParseError>)
    requires bound + |line| <= |config| && line != []
    requires Valid(st.sections) && Bounded(st.sections, bound)
    ensures r.Success? ==> Valid(r.value.sections) && Bounded(r.value.sections, bound + |line|)
    ensures r.Success? ==> r.value.key == Some(Rstrip(line)) && r.value.banner == st.banner
    ensures r.Success? ==> Rstrip(line) in r.value.sections.vals && r.value.sections.vals[Rstrip(line)] == line
    ensures r.Success? ==> forall k :: k in st.sections.vals && k != Rstrip(line) ==>
              k in r.value.sections.vals && r.value.sections.vals[k] == st.sections.vals[k]
    decreases |config|, 1, 1
  {
    var lineRs := Rstrip(line);
    match Reparse(config, st, bound)
    case Failure(e) => Failure(e)
    case Success(d) =>
      BoundedSet(d, lineRs, line, bound, bound + |line|);
      assert Set(d, lineRs, line).vals == d.vals[lineRs := line];
      Success(State(Set(d, lineRs, line), Some(lineRs), st.banner))
  }

  /** Without sub-sections in the body of the current section, closing it leaves the map as it was. */
  lemma ReparseKeeps(config: string, st: State, bound: nat)
    requires bound < |config|
    requires Valid(st.sections) && Bounded(st.sections, bound)
    requires Body(st) == [] || SubsectionPresent(Body(st), Indent(Body(st)[0])) == Success(false)
    ensures Reparse(config, st, bound) == Success(st.sections)
  {
  }

  /**
   * With sub-sections, the body's section is parsed one level down; the map
   * so far is merged over the result, so its entries win, while the keys the
   * sub-parse found come first in order.
   */
  lemma ReparseSubParse(config: string, st: State, bound: nat)
    requires bound < |config|
    requires Valid(st.sections) && Bounded(st.sections, bound)
    requires Body(st) != [] && SubsectionPresent(Body(st), Indent(Body(st)[0])) == Success(true)
    ensures st.key.Some? && st.key.value in st.sections.vals
    ensures var parsed := Chunks(st.sections.vals[st.key.value], Indent(Body(st)[0]));
      var r := Reparse(config, st, bound);
      && (parsed.Failure? ==> r == Failure(parsed.error))
      && (parsed.Success? ==> r.Success? && r.value.vals == parsed.value.vals + st.sections.vals
                              && r.value.keys == parsed.value.keys + Missing(st.sections.keys, parsed.value.vals))
  {
    BodyHasKey(st);
    var parsed := Chunks(st.sections.vals[st.key.value], Indent(Body(st)[0]));
    if parsed.Success? {
      UpdateVals(parsed.value, st.sections);
    }
  }

  /** A section with body lines is the current one, and is in the map. */
  lemma BodyHasKey(st: State)
    requires Body(st) != []
    ensures st.key.Some? && st.key.value in st.sections.vals
  {
    assert SplitLines("") == [];
  }

  /** Appending `s` to one entry lengthens the bound by `|s|` at most. */
  lemma BoundedAppend(d: Dict, k: string, s: string, n: nat)
    requires Valid(d) && k in d.vals && Bounded(d, n)
    ensures Bounded(Append(d, k, s), n + |s|)
  {
  }

  /** Assigning a value no longer than the new bound keeps the map within it. */
  lemma BoundedSet(d: Dict, k: string, v: string, n: nat, m: nat)
    requires Valid(d) && Bounded(d, n) && n <= m && |v| <= m
    ensures Bounded(Set(d, k, v), m)
  {
  }

  /** The body lines of the current section: `sections.get(key, "").splitlines()[1:]`. */
  function Body(st: State): seq<string>
  {
    var text := if st.key.Some? then Get(st.sections, st.key.value) else "";
    var ls := SplitLines(text);
    if ls == [] then [] else ls[1..]
  }

  /**
   * Closing the current section: if its body has sub-sections, the body is
   * parsed one level down and the map so far is merged over the result.
   */
  function Reparse(config: string, st: State, bound: nat): (r: Result<Dict, ParseError>)
    requires bound < |config|
    requires Valid(st.sections) && Bounded(st.sections, bound)
    ensures r.Success? ==> Valid(r.value) && Bounded(r.value, bound)
    ensures r.Success? ==> forall k :: k in st.sections.vals ==> k in r.value.vals && r.value.vals[k] == st.sections.vals[k]
    decreases |config|, 0, 0
  {
    var subsection := Body(st);
    if subsection == [] then Success(st.sections)
    else
      var subIndent := Indent(subsection[0]);
      match SubsectionPresent(subsection, subIndent)
      case Failure(e) => Failure(e)
      case Success(false) => Success(st.sections)
      case Success(true) =>
        var text := st.sections.vals[st.key.value];
        match Chunks(text, subIndent)
        case Failure(e) => Failure(e)
        case Success(parsed) => Success(Update(parsed, st.sections))
  }

  /** `_chunkify`: the loop over the lines, updating the map, the header and the banner in place. */
  method Chunkify(config: string, indent: nat) returns (r: Result<Dict, ParseError>)
    ensures r == Chunks(config, indent)
    decreases |config|, 2
  {
    var lines := SplitLinesKeep(config);
    LenSumSplitLinesKeep(config);
    var i := if indent > 0 && lines != [] then 1 else 0;
    assert lines[..i] == [] || lines[..i] == [lines[0]];
    var sections := Empty;
    var key: Option<string> := None;
    var banner: Option<string> := None;
    while i < |lines|
      invariant i <= |lines|
      invariant Valid(sections) && Bounded(sections, LenSum(lines[..i]))
      invariant Walk(config, indent, lines, i, State(sections, key, banner)) == Chunks(config, indent)
      decreases |lines| - i
    {
      WalkStep(config, indent, lines, i, State(sections, key, banner));
      var next := StepLine(config, indent, lines[i], LenSum(lines[..i]), State(sections, key, banner));
      if next.Failure? {
        return Failure(next.error);
      }
      sections, key, banner := next.value.sections, next.value.key, next.value.banner;
      i := i + 1;
    }
    assert lines[..i] == lines;
    r := Success(sections);
  }

  /** The body of `_chunkify`'s loop on one line, from the map, header and banner of `st`. */
  method StepLine(config: string, indent: nat, line: string, ghost bound: nat, st: State) returns (r: Result<State, ParseError>)
    requires line != [] && bound + |line| <= |config|
    requires Valid(st.sections) && Bounded(st.sections, bound)
    ensures r == Step(config, indent, line, bound, st)
    decreases |config|, 1
  {
    var sections, key, banner := st.sections, st.key, st.banner;
    var lineRs := Rstrip(line);
    if indent == 0 && banner.Some? {
      StepInBanner(config, line, bound, st);
      if banner.value !in sections.vals {
        return Failure(KeyError);
      }
      sections := Append(sections, banner.value, line);
      if lineRs == "EOF" {
        banner := None;
      }
    } else if indent == 0 && StartsWith(line, "banner ") {
      StepOpensBanner(config, line, bound, st);
      banner := Some(lineRs);
      sections := Set(sections, lineRs, line);
    } else if Indent(lineRs) > indent {
      DeeperLine(config, indent, line, bound, st);
      if key.None? || key.value !in sections.vals {
        return Failure(KeyError);
      }
      sections := Append(sections, key.value, line);
    } else {
      NewSection(config, indent, line, bound, st);
      OpenAfterClose(config, line, bound, st);
      var merged := CloseSection(config, st, bound);
      if merged.Failure? {
        return Failure(merged.error);
      }
      key := Some(lineRs);
      sections := Set(merged.value, lineRs, line);
    }
    r := Success(State(sections, key, banner));
  }

  /**
   * The closing half of the last branch of `_chunkify`'s loop: the body of the
   * current section, and if it has sub-sections, their parse merged under the
   * map so far.
   */
  method CloseSection(config: string, st: State, ghost bound: nat) returns (r: Result<Dict, ParseError>)
    requires bound < |config|
    requires Valid(st.sections) && Bounded(st.sections, bound)
    ensures r == Reparse(config, st, bound)
    decreases |config|, 0
  {
    var sections := st.sections;
    var subsection := SplitLines(if st.key.Some? then Get(sections, st.key.value) else "");
    subsection := if subsection == [] then [] else subsection[1..];
    if subsection != [] {
      var subIndent := Indent(subsection[0]);
      var present := SubsectionPresent(subsection, subIndent);
      if present.Failure? {
        return Failure(present.error);
      }
      if present.value {
        var parsed := Chunkify(sections.vals[st.key.value], subIndent);
        if parsed.Failure? {
          return Failure(parsed.error);
        }
        sections := Update(parsed.value, sections);
      }
    }
    r := Success(sections);
  }

  /** One turn of the loop: line `i` is stepped over, and the walk goes on from `i + 1` unless the step failed. */
  lemma WalkStep(config: string, indent: nat, lines: seq<string>, i: nat, st: State)
    requires lines == SplitLinesKeep(config) && LenSum(lines) == |config| && i < |lines|
    requires Valid(st.sections) && Bounded(st.sections, LenSum(lines[..i]))
    ensures LenSum(lines[..i]) + |lines[i]| == LenSum(lines[..i + 1]) <= |config| && lines[i] != []
    ensures var next := Step(config, indent, lines[i], LenSum(lines[..i]), st);
      Walk(config, indent, lines, i, st) == if next.Failure? then Failure(next.error)
                                            else Walk(config, indent, lines, i + 1, next.value)
  {
    LenSumPrefix(lines, i);
    LenSumPrefixBound(lines, i + 1);
    assert IsLine(lines[i]);
  }

  /** A step never drops a key. */
  lemma StepKeepsKeys(config: string, indent: nat, line: string, bound: nat, st: State)
    requires line != [] && bound + |line| <= |config|
    requires Valid(st.sections) && Bounded(st.sections, bound)
    ensures var r := Step(config, indent, line, bound, st);
      r.Success? ==> forall k :: k in st.sections.vals ==> k in r.value.sections.vals
  {
  }

  /** Once a key is in the map, it is in the map the walk ends with. */
  lemma {:induction false} WalkKeepsKeys(config: string, indent: nat, lines: seq<string>, i: nat, st: State)
    requires lines == SplitLinesKeep(config) && LenSum(lines) == |config| && i <= |lines|
    requires Valid(st.sections) && Bounded(st.sections, LenSum(lines[..i]))
    ensures var r := Walk(config, indent, lines, i, st);
      r.Success? ==> forall k :: k in st.sections.vals ==> k in r.value.vals
    decreases |lines| - i
  {
    if i < |lines| {
      WalkStep(config, indent, lines, i, st);
      var next := Step(config, indent, lines[i], LenSum(lines[..i]), st);
      StepKeepsKeys(config, indent, lines[i], LenSum(lines[..i]), st);
      if next.Success? {
        WalkKeepsKeys(config, indent, lines, i + 1, next.value);
      }
    }
  }

  /**
   * Opening a section after one whose body holds sub-sections fails if
   * parsing that body one level down fails, and otherwise keeps every header
   * the sub-parse found as a key. With `NewSection`, `WalkStep` and
   * `WalkKeepsKeys` this carries each deeper header into the parse's result.
   */
  lemma OpenKeepsSubsections(config: string, line: string, bound: nat, st: State)
    requires bound + |line| <= |config| && line != []
    requires Valid(st.sections) && Bounded(st.sections, bound)
    requires Body(st) != [] && SubsectionPresent(Body(st), Indent(Body(st)[0])) == Success(true)
    ensures st.key.Some? && st.key.value in st.sections.vals
    ensures var parsed := Chunks(st.sections.vals[st.key.value], Indent(Body(st)[0]));
      var r := Open(config, line, bound, st);
      && (parsed.Failure? ==> r == Failure(parsed.error))
      && (r.Success? ==> parsed.Success? && forall k :: k in parsed.value.vals ==> k in r.value.sections.vals)
  {
    ReparseSubParse(config, st, bound);
    var parsed := Chunks(st.sections.vals[st.key.value], Indent(Body(st)[0]));
    var m := Reparse(config, st, bound);
    if parsed.Success? {
      assert m.Success? && m.value.vals == parsed.value.vals + st.sections.vals;
      OpenAfterClose(config, line, bound, st);
    }
  }

  /** The position of the first key that `matches` accepts. */
  function FirstMatch(keys: seq<string>, matches: string -> bool): (r: Option<nat>)
    ensures r.Some? ==> r.value < |keys| && matches(keys[r.value])
    ensures forall j :: 0 <= j < |keys| && (r.None? || j < r.value) ==> !matches(keys[j])
  {
    if keys == [] then None
    else if matches(keys[0]) then Some(0)
    else match FirstMatch(keys[1..], matches)
      case None => None
      case Some(j) => Some(j + 1)
  }

  /**
   * `section`: the text of the first section, in the order the parse met
   * them, whose header `matches` accepts (the regular expression search), or
   * `TypeError` when no header does.
   */
  function Section(matches: string -> bool, config: string): (r: Result<string, ParseError>)
    ensures Chunks(config, 0).Failure? ==> r == Failure(Chunks(config, 0).error)
    ensures Chunks(config, 0).Success? ==>
      var d := Chunks(config, 0).value;
      && (r == Failure(TypeError) <==> forall j :: 0 <= j < |d.keys| ==> !matches(d.keys[j]))
      && (r.Success? ==> exists j :: 0 <= j < |d.keys| && matches(d.keys[j]) && r.value == d.vals[d.keys[j]]
                                    && forall j' :: 0 <= j' < j ==> !matches(d.keys[j']))
  {
    match Chunks(config, 0)
    case Failure(e) => Failure(e)
    case Success(d) =>
      match FirstMatch(d.keys, matches)
      case None => Failure(TypeError)
      case Some(j) => Success(d.vals[d.keys[j]])
  }

  /** An empty text has no sections. */
  lemma ChunksEmpty(indent: nat)
    ensures Chunks("", indent) == Success(Empty)
  {
  }

  /** Below the top level the lone header line is not a section of its own body. */
  lemma ChunksHeaderOnly(header: string, indent: nat)
    requires indent > 0 && IsLine(header) && header[|header| - 1] == '\n'
    ensures Chunks(header, indent) == Success(Empty)
  {
    SplitLinesKeepCons(header, "");
    assert header + "" == header;
  }

  /**
   * At the top level, a first line indented deeper than column 0 that is not a
   * banner has no section to join: the parse fails with `KeyError`.
   */
  lemma IndentedFirstLine(first: string, rest: string)
    requires IsLine(first) && first[|first| - 1] == '\n'
    requires Indent(Rstrip(first)) > 0 && !StartsWith(first, "banner ")
    ensures Chunks(first + rest, 0) == Failure(KeyError)
  {
    SplitLinesKeepCons(first, rest);
    var lines := SplitLinesKeep(first + rest);
    LenSumSplitLinesKeep(first + rest);
    assert lines[0] == first;
    assert lines[..0] == [];
    assert Step(first + rest, 0, first, 0, State(Empty, None, None)) == Failure(KeyError);
  }

  /** Appending twice to one entry is appending the two texts at once. */
  lemma AppendTwice(d: Dict, k: string, x: string, y: string)
    requires Valid(d) && k in d.vals
    ensures Append(Append(d, k, x), k, y) == Append(d, k, x + y)
  {
    assert d.vals[k] + x + y == d.vals[k] + (x + y);
  }

  /**
   * Inside an open banner every line that is not `EOF` is added, verbatim and
   * in order, to the banner's entry: no key is added, and the current section
   * and the banner stay as they were.
   */
  lemma {:induction false} BannerRun(config: string, lines: seq<string>, i: nat, j: nat, st: State)
    requires lines == SplitLinesKeep(config) && LenSum(lines) == |config| && i <= j <= |lines|
    requires Valid(st.sections) && Bounded(st.sections, LenSum(lines[..i]))
    requires st.banner.Some? && st.banner.value in st.sections.vals
    requires forall k :: i <= k < j ==> Rstrip(lines[k]) != "EOF"
    ensures var d := Append(st.sections, st.banner.value, Join(lines[i..j]));
      && d.keys == st.sections.keys
      && Bounded(d, LenSum(lines[..j]))
      && Walk(config, 0, lines, i, st) == Walk(config, 0, lines, j, State(d, st.key, st.banner))
    decreases j - i
  {
    var b := st.banner.value;
    if i == j {
      BannerRunEmpty(config, lines, i, j, st);
    } else {
      BannerLine(config, lines, i, st);
      var st1 := State(Append(st.sections, b, lines[i]), st.key, st.banner);
      BannerRun(config, lines, i + 1, j, st1);
      JoinFirst(lines, i, j);
      AppendTwice(st.sections, b, lines[i], Join(lines[i + 1..j]));
      assert Append(st1.sections, b, Join(lines[i + 1..j])) == Append(st.sections, b, Join(lines[i..j]));
    }
  }

  /** An empty run of banner lines changes nothing. */
  lemma BannerRunEmpty(config: string, lines: seq<string>, i: nat, j: nat, st: State)
    requires lines == SplitLinesKeep(config) && LenSum(lines) == |config| && i == j <= |lines|
    requires Valid(st.sections) && Bounded(st.sections, LenSum(lines[..i]))
    requires st.banner.Some? && st.banner.value in st.sections.vals
    ensures var d := Append(st.sections, st.banner.value, Join(lines[i..j]));
      && d.keys == st.sections.keys
      && Bounded(d, LenSum(lines[..j]))
      && Walk(config, 0, lines, i, st) == Walk(config, 0, lines, j, State(d, st.key, st.banner))
  {
    assert Join(lines[i..j]) == "";
    AppendNothing(st.sections, st.banner.value);
  }

  /** Appending nothing leaves the dictionary as it is. */
  lemma AppendNothing(d: Dict, k: string)
    requires Valid(d) && k in d.vals
    ensures Append(d, k, "") == d
  {
    assert d.vals[k] + "" == d.vals[k];
    assert d.vals[k := d.vals[k] + ""] == d.vals;
  }

  /** The lines `i` to `j` joined are line `i` followed by the rest joined. */
  lemma JoinFirst(lines: seq<string>, i: nat, j: nat)
    requires i < j <= |lines|
    ensures Join(lines[i..j]) == lines[i] + Join(lines[i + 1..j])
  {
    assert lines[i..j][1..] == lines[i + 1..j];
  }

  /** A line of an open banner other than `EOF` is appended to the banner's entry, and the loop goes on. */
  lemma BannerLine(config: string, lines: seq<string>, i: nat, st: State)
    requires lines == SplitLinesKeep(config) && LenSum(lines) == |config| && i < |lines|
    requires Valid(st.sections) && Bounded(st.sections, LenSum(lines[..i]))
    requires st.banner.Some? && st.banner.value in st.sections.vals
    requires Rstrip(lines[i]) != "EOF"
    ensures var d := Append(st.sections, st.banner.value, lines[i]);
      && Bounded(d, LenSum(lines[..i + 1]))
      && Walk(config, 0, lines, i, st) == Walk(config, 0, lines, i + 1, State(d, st.key, st.banner))
  {
    WalkStep(config, 0, lines, i, st);
    StepInBanner(config, lines[i], LenSum(lines[..i]), st);
  }

  /** The `EOF` line is the banner's last line: it is added to the entry and closes the banner. */
  lemma BannerClose(config: string, lines: seq<string>, i: nat, st: State)
    requires lines == SplitLinesKeep(config) && LenSum(lines) == |config| && i < |lines|
    requires Valid(st.sections) && Bounded(st.sections, LenSum(lines[..i]))
    requires st.banner.Some? && st.banner.value in st.sections.vals
    requires Rstrip(lines[i]) == "EOF"
    ensures var d := Append(st.sections, st.banner.value, lines[i]);
      && Bounded(d, LenSum(lines[..i + 1]))
      && Walk(config, 0, lines, i, st) == Walk(config, 0, lines, i + 1, State(d, st.key, None))
  {
    WalkStep(config, 0, lines, i, st);
    StepInBanner(config, lines[i], LenSum(lines[..i]), st);
  }

  /** Inside an open banner every line joins the banner's entry, and `EOF` closes the banner. */
  lemma StepInBanner(config: string, line: string, bound: nat, st: State)
    requires line != [] && bound + |line| <= |config|
    requires Valid(st.sections) && Bounded(st.sections, bound)
    requires st.banner.Some?
    ensures Step(config, 0, line, bound, st) ==
      if st.banner.value !in st.sections.vals then Failure(KeyError)
      else Success(State(Append(st.sections, st.banner.value, line), st.key,
                         if Rstrip(line) == "EOF" then None else st.banner))
  {
  }

  /** At the top level a `banner` line opens a banner, keyed by the line without trailing white space and holding the line. */
  lemma StepOpensBanner(config: string, line: string, bound: nat, st: State)
    requires line != [] && bound + |line| <= |config|
    requires Valid(st.sections) && Bounded(st.sections, bound)
    requires st.banner.None? && StartsWith(line, "banner ")
    ensures Step(config, 0, line, bound, st) ==
      Success(State(Set(st.sections, Rstrip(line), line), st.key, Some(Rstrip(line))))
  {
  }

  /**
   * Outside a banner, a line indented deeper than the level joins the current
   * section verbatim, and with no section open the parse fails with `KeyError`.
   */
  lemma DeeperLine(config: string, indent: nat, line: string, bound: nat, st: State)
    requires line != [] && bound + |line| <= |config|
    requires Valid(st.sections) && Bounded(st.sections, bound)
    requires !(indent == 0 && st.banner.Some?) && !(indent == 0 && StartsWith(line, "banner "))
    requires Indent(Rstrip(line)) > indent
    ensures Step(config, indent, line, bound, st) ==
      if st.key.None? || st.key.value !in st.sections.vals then Failure(KeyError)
      else Success(st.(sections := Append(st.sections, st.key.value, line)))
  {
  }

  /** Outside a banner, a line not indented deeper than the level closes the current section and opens its own. */
  lemma NewSection(config: string, indent: nat, line: string, bound: nat, st: State)
    requires line != [] && bound + |line| <= |config|
    requires Valid(st.sections) && Bounded(st.sections, bound)
    requires !(indent == 0 && st.banner.Some?) && !(indent == 0 && StartsWith(line, "banner "))
    requires Indent(Rstrip(line)) <= indent
    ensures Step(config, indent, line, bound, st) == Open(config, line, bound, st)
  {
  }

  /** Opening a section fails as closing the current one does, or puts the line under its key in the merged map. */
  lemma OpenAfterClose(config: string, line: string, bound: nat, st: State)
    requires bound + |line| <= |config| && line != []
    requires Valid(st.sections) && Bounded(st.sections, bound)
    ensures var m := Reparse(config, st, bound);
      Open(config, line, bound, st) ==
        if m.Failure? then Failure(m.error)
        else Success(State(Set(m.value, Rstrip(line), line), Some(Rstrip(line)), st.banner))
  {
  }
}
