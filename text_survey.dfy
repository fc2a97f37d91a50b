/** The plain-text survey reader (`process_survey_fh`). A survey is a list
    of lines. A date line opens a new system and is followed by a fixed
    header: four lines, the system and sector location lines (the two lines
    before the first blank line, possibly after an optional line), two more
    lines, a wormhole heading, and five-line wormhole entries ended by a
    blank lead line. After the header, blank lines separate bodies, a body's
    first line is its name, lines starting in column 0 name a section, and
    indented lines are that section's content. */
module TextSurvey {
  import opened Errors
  import opened PyStr
  import opened Geo
  import opened Domain
  import opened SectionRules

  /** The reader's `mode`: `'name'`, `None`, or the first word of the last
      section heading. */
  type Mode = Option<string>

  const NameMode: Mode := Some("name")

  /** `line[0] == "\r" or line[0] == "\n"` */
  predicate IsBreakLine(line: string) {
    line != [] && (line[0] == '\r' || line[0] == '\n')
  }

  // ---------------------------------------------------------------- the date line

  /** The end of the run of digits starting at `i`. */
  function DigitRun(s: string, i: nat): (j: nat)
    requires i <= |s|
    ensures i <= j <= |s|
    ensures forall k :: i <= k < j ==> IsDigit(s[k])
    ensures j < |s| ==> !IsDigit(s[j])
    decreases |s| - i
  {
    if i < |s| && IsDigit(s[i]) then DigitRun(s, i + 1) else i
  }

  /** The end of the run of whitespace starting at `i`. */
  function SpaceRun(s: string, i: nat): (j: nat)
    requires i <= |s|
    ensures i <= j <= |s|
    ensures forall k :: i <= k < j ==> IsSpace(s[k])
    ensures j < |s| ==> !IsSpace(s[j])
    decreases |s| - i
  {
    if i < |s| && IsSpace(s[i]) then SpaceRun(s, i + 1) else i
  }

  /** One element of a regular expression made of runs and single
      characters: `\d+`, `\s+`, or one character out of a set. */
  datatype Piece = DigitsRun | SpacesRun | OneOf(chars: set<char>)

  /** `\d+/\d+/\d+\s+\d+:\d+\s+[AP]M` */
  const DatePattern: seq<Piece> := [
    DigitsRun, OneOf({'/'}), DigitsRun, OneOf({'/'}), DigitsRun, SpacesRun,
    DigitsRun, OneOf({':'}), DigitsRun, SpacesRun, OneOf({'A', 'P'}), OneOf({'M'})]

  /** Whether `pattern` matches `s` from position `i` on (a prefix match, as
      `re.match`). Runs are taken greedily: in the patterns used here every
      run is followed by a character outside it, so the greedy match is the
      only one. */
  predicate MatchesFrom(s: string, pattern: seq<Piece>, i: nat)
    requires i <= |s|
    decreases |pattern|
  {
    if pattern == [] then true
    else match pattern[0]
      case DigitsRun =>
        var j := DigitRun(s, i);
        i < j && MatchesFrom(s, pattern[1..], j)
      case SpacesRun =>
        var j := SpaceRun(s, i);
        i < j && MatchesFrom(s, pattern[1..], j)
      case OneOf(cs) =>
        i < |s| && s[i] in cs && MatchesFrom(s, pattern[1..], i + 1)
  }

  /** `re.match('\d+/\d+/\d+\s+\d+:\d+\s+[AP]M', line)`: the line opens a new
      system. A date line starts with a digit, so it is never blank. */
  predicate IsDateLine(line: string)
    ensures IsDateLine(line) ==> line != [] && IsDigit(line[0])
  {
    MatchesFrom(line, DatePattern, 0)
  }

  // ---------------------------------------------------------------- the header

  /** The `buff` loop: `prev2` and `prev1` are the two latest lines read;
      the next line is read, and when it is blank the two before it are the
      system and sector lines. Reading past the end is a StopIteration and an
      empty line an IndexError. Returns the two lines and what follows the
      blank line. */
  function BufferScan(prev2: string, prev1: string, rest: seq<string>): (r: Result<(string, string, seq<string>)>)
    ensures r.Success? ==> |r.value.2| < |rest|
    decreases |rest|
  {
    if rest == [] then Failure(StopIteration)
    else if rest[0] == [] then Failure(IndexError)
    else if IsBreakLine(rest[0]) then Success((prev2, prev1, rest[1..]))
    else BufferScan(prev1, rest[0], rest[1..])
  }

  /** A wormhole read from a survey: it leads from `source` and has a
      polarity and a destination. */
  predicate FromSource(w: Wormhole, source: Location) {
    w.source == Some(source) && w.polarity.Some? && w.dest.Some?
  }

  /** The wormhole entries from lead line `ls[0]` on: an empty or blank lead
      ends the list; otherwise the next line's first word is the polarity,
      the two after it the destination, and one more line is skipped before
      the next lead. Returns the wormholes and the lines after the last lead. */
  function WormholesFrom(ls: seq<string>, source: Location, acc: seq<Wormhole>): (r: Result<(seq<Wormhole>, seq<string>)>)
    requires ls != []
    ensures r.Success? ==> |r.value.1| < |ls|
    ensures r.Success? ==> forall w :: w in r.value.0 ==> w in acc || FromSource(w, source)
    decreases |ls|
  {
    var lead := ls[0];
    if lead == [] || IsBreakLine(lead) then Success((acc, ls[1..]))
    else if |ls| < 2 then Failure(StopIteration)
    else
      var polarity := Words(ls[1]);
      if polarity == [] then Failure(IndexError)
      else if |ls| < 4 then Failure(StopIteration)
      else
        var dest :- NewLocation(ls[2], ls[3]);
        if |ls| < 6 then Failure(StopIteration)
        else
          WormholesFrom(ls[5..], source, acc + [Wormhole(Some(polarity[0]), Some(source), Some(dest))])
  }

  /** The header after a date line: four skipped lines, the location, two
      skipped lines, the wormhole heading and the wormhole entries. Returns
      the new system and the lines after the header. */
  function ReadHeader(ls: seq<string>, date: Stamp): (r: Result<(System, seq<string>)>)
    ensures r.Success? ==> |r.value.1| + 11 <= |ls|
    ensures r.Success? ==> var s := r.value.0;
      && s.date == date && s.location.Some? && s.bodies == []
      && forall w :: w in s.wormholes ==> FromSource(w, s.location.value)
  {
    if |ls| < 6 then Failure(StopIteration)
    else HeaderAfterScan(BufferScan(ls[4], ls[5], ls[6..]), date)
  }

  /** The header from the location lines on, given the outcome of the
      `buff` loop. */
  function HeaderAfterScan(scan: Result<(string, string, seq<string>)>, date: Stamp): (r: Result<(System, seq<string>)>)
    ensures r.Success? ==> scan.Success? && |r.value.1| + 4 <= |scan.value.2|
    ensures r.Success? ==>
      && NewLocation(scan.value.0, scan.value.1).Success?
      && r.value.0.location == Some(NewLocation(scan.value.0, scan.value.1).value)
      && WormholesFrom(scan.value.2[3..], r.value.0.location.value, []) == Success((r.value.0.wormholes, r.value.1))
    ensures r.Success? ==> var s := r.value.0;
      && s.date == date && s.location.Some? && s.bodies == []
      && forall w :: w in s.wormholes ==> FromSource(w, s.location.value)
  {
    if scan.Failure? then Failure(scan.error)
    else
      var location := NewLocation(scan.value.0, scan.value.1);
      if location.Failure? then Failure(location.error)
      else if |scan.value.2| < 4 then Failure(StopIteration)
      else
        var wormholes := WormholesFrom(scan.value.2[3..], location.value, []);
        if wormholes.Failure? then Failure(wormholes.error)
        else Success((System(date, Some(location.value), wormholes.value.0, []), wormholes.value.1))
  }

  // ---------------------------------------------------------------- body lines

  /** The section a mode selects: `Primary` headings set the mode to
      `Orbiting`, and `Hydrosphere` and `Atmosphere` share one rule. */
  function TextSection(mode: Mode): Section
  {
    match mode
    case Some("Orbiting") => Orbiting
    case Some("Photosphere") => Photosphere
    case Some("Geosphere") => Geosphere
    case Some("Hydrosphere") => Fluid
    case Some("Atmosphere") => Fluid
    case Some("Biosphere") => Biosphere
    case _ => Unlisted
  }

  /** The systems with the last body of the last system replaced. */
  function WithLastBody(systems: seq<System>, b: Body): (r: seq<System>)
    requires systems != [] && Last(systems).bodies != []
    ensures |r| == |systems| && r[..|r| - 1] == systems[..|systems| - 1]
    ensures var s := Last(systems); var t := Last(r);
      t == s.(bodies := t.bodies) && |t.bodies| == |s.bodies|
      && t.bodies[..|t.bodies| - 1] == s.bodies[..|s.bodies| - 1] && Last(t.bodies) == b
  {
    var s := Last(systems);
    systems[|systems| - 1 := s.(bodies := s.bodies[|s.bodies| - 1 := b])]
  }

  /** Only the last body of the last system differs. */
  predicate SameButLastBody(before: seq<System>, after: seq<System>)
  {
    && |after| == |before| && before != []
    && after[..|after| - 1] == before[..|before| - 1]
    && var s := Last(before); var t := Last(after);
       t == s.(bodies := t.bodies) && |t.bodies| == |s.bodies| && s.bodies != []
       && t.bodies[..|t.bodies| - 1] == s.bodies[..|s.bodies| - 1]
  }

  /** One line that is not a date line. A blank line returns to `'name'`
      mode; in `'name'` mode a line opens a new body named by it; a line in
      column 0 names a section; any other line is content of the current
      section, applied to the last body read. */
  function TextStep(systems: seq<System>, mode: Mode, line: string): (r: Result<(seq<System>, Mode)>)
    ensures line == [] ==> r == Failure(IndexError)
    ensures IsBreakLine(line) ==> r == Success((systems, NameMode))
    ensures line != [] && !IsBreakLine(line) && mode == NameMode && systems == [] ==> r == Failure(IndexError)
    ensures line != [] && !IsBreakLine(line) && mode == NameMode && systems != [] ==>
      r.Success? && r.value.1 == None && |r.value.0| == |systems|
        && r.value.0[..|systems| - 1] == systems[..|systems| - 1]
        && Last(r.value.0) == Last(systems).(bodies := Last(systems).bodies + [NewBody(Strip(line))])
    ensures line != [] && !IsBreakLine(line) && mode != NameMode && r.Success? ==>
      r.value.0 == systems || SameButLastBody(systems, r.value.0)
  {
    if line == [] then Failure(IndexError)
    else if IsBreakLine(line) then Success((systems, NameMode))
    else if mode == NameMode then
      if systems == [] then Failure(IndexError)
      else
        var s := Last(systems);
        Success((systems[|systems| - 1 := s.(bodies := s.bodies + [NewBody(Strip(line))])], None))
    else if line[0] != ' ' then
      var words := Words(line);
      if words == [] then Failure(IndexError)
      else if words[0] == "Primary" then Success((systems, Some("Orbiting")))
      else if words[0] == "Orbiting" then
        if systems == [] || Last(systems).bodies == [] then Failure(IndexError)
        else
          var b := Last(Last(systems).bodies);
          Success((WithLastBody(systems, b.(orbits := Some(Join(" ", words[..|words| - 1])))), Some("Orbiting")))
      else Success((systems, Some(words[0])))
    else
      var section := TextSection(mode);
      if section == Unlisted then Success((systems, mode))
      else if systems == [] || Last(systems).bodies == [] then Failure(IndexError)
      else
        var b :- ApplyLine(Last(Last(systems).bodies), section, line, PlainRadius);
        Success((WithLastBody(systems, b), mode))
  }

  /** The reader's loop over the lines still to read. */
  function ParseLines(ls: seq<string>, systems: seq<System>, mode: Mode): Result<seq<System>>
    decreases |ls|
  {
    if ls == [] then Success(systems)
    else if IsDateLine(ls[0]) then
      var header := ReadHeader(ls[1..], Written(Strip(ls[0])));
      if header.Failure? then Failure(header.error)
      else ParseLines(header.value.1, systems + [header.value.0], NameMode)
    else
      var step := TextStep(systems, mode, ls[0]);
      if step.Failure? then Failure(step.error)
      else ParseLines(ls[1..], step.value.0, step.value.1)
  }

  /** `process_survey_fh` on the lines of a survey. */
  function Parse(lines: seq<string>): Result<seq<System>>
  {
    ParseLines(lines, [], NameMode)
  }

  // ---------------------------------------------------------------- the reader as the source runs it

  /** A cursor-based reading agrees with the reading of the suffix
      `lines[i..]`: the same error, or the same value with the cursor left
      where the suffix reading stops. */
  predicate Tracks<T(==)>(r: Result<(T, nat)>, spec: Result<(T, seq<string>)>, lines: seq<string>, i: nat)
  {
    && r.Success? == spec.Success?
    && (r.Failure? ==> r.error == spec.error)
    && (r.Success? ==> r.value.0 == spec.value.0 && i <= r.value.1 <= |lines| && lines[r.value.1..] == spec.value.1)
  }

  /** The `buff` loop: a two-line buffer that takes each new line at its
      front and drops its oldest line until a blank line arrives. */
  method ScanBuffer(lines: seq<string>, i: nat) returns (r: Result<((string, string), nat)>)
    requires i + 6 <= |lines|
    ensures var spec := BufferScan(lines[i + 4], lines[i + 5], lines[i + 6..]);
      && r.Success? == spec.Success?
      && (r.Failure? ==> r.error == spec.error)
      && (r.Success? ==> r.value.0 == (spec.value.0, spec.value.1) && i + 6 < r.value.1 <= |lines|
                         && lines[r.value.1..] == spec.value.2)
  {
    var buff := [lines[i + 5], lines[i + 4]];
    var j := i + 6;
    while true
      invariant i + 6 <= j <= |lines| && |buff| == 2
      invariant BufferScan(buff[1], buff[0], lines[j..]) == BufferScan(lines[i + 4], lines[i + 5], lines[i + 6..])
      decreases |lines| - j
    {
      if j == |lines| {
        return Failure(StopIteration);
      }
      buff := [lines[j]] + buff;
      assert lines[j..][0] == lines[j] && lines[j..][1..] == lines[j + 1..];
      j := j + 1;
      if buff[0] == [] {
        return Failure(IndexError);
      }
      if buff[0][0] == '\r' || buff[0][0] == '\n' {
        return Success(((buff[2], buff[1]), j));
      }
      buff := buff[..2];
    }
  }

  /** `WormholesFrom` of the suffix starting at index `k`, one entry at a
      time, stated on the lines themselves. */
  lemma {:induction false} WormholesAt(lines: seq<string>, k: nat, source: Location, acc: seq<Wormhole>)
    requires k < |lines|
    ensures var r := WormholesFrom(lines[k..], source, acc);
      if lines[k] == [] || IsBreakLine(lines[k]) then r == Success((acc, lines[k + 1..]))
      else if |lines| - k < 2 then r == Failure(StopIteration)
      else if Words(lines[k + 1]) == [] then r == Failure(IndexError)
      else if |lines| - k < 4 then r == Failure(StopIteration)
      else if NewLocation(lines[k + 2], lines[k + 3]).Failure? then r == Failure(NewLocation(lines[k + 2], lines[k + 3]).error)
      else if |lines| - k < 6 then r == Failure(StopIteration)
      else r == WormholesFrom(lines[k + 5..], source,
                 acc + [Wormhole(Some(Words(lines[k + 1])[0]), Some(source), Some(NewLocation(lines[k + 2], lines[k + 3]).value))])
  {
    var ls := lines[k..];
    assert ls[0] == lines[k] && ls[1..] == lines[k + 1..];
    if |ls| >= 4 {
      assert ls[1] == lines[k + 1] && ls[2] == lines[k + 2] && ls[3] == lines[k + 3];
    } else if |ls| >= 2 {
      assert ls[1] == lines[k + 1];
    }
    if |ls| >= 6 {
      assert ls[5..] == lines[k + 5..];
    }
  }

  /** The `while line:` loop over the wormhole entries, with the lead line
      at index `q`. */
  method ReadWormholesAt(lines: seq<string>, q: nat, source: Location) returns (r: Result<(seq<Wormhole>, nat)>)
    requires q < |lines|
    ensures Tracks(r, WormholesFrom(lines[q..], source, []), lines, q)
  {
    var k := q;
    var wormholes: seq<Wormhole> := [];
    while true
      invariant q <= k < |lines|
      invariant WormholesFrom(lines[k..], source, wormholes) == WormholesFrom(lines[q..], source, [])
      decreases |lines| - k
    {
      WormholesAt(lines, k, source, wormholes);
      var lead := lines[k];
      var next: nat := k + 1;
      if lead == [] || lead[0] == '\r' || lead[0] == '\n' {
        return Success((wormholes, next));
      }
      if |lines| - k < 2 {
        return Failure(StopIteration);
      }
      var polarity := Words(lines[k + 1]);
      if polarity == [] {
        return Failure(IndexError);
      }
      if |lines| - k < 4 {
        return Failure(StopIteration);
      }
      var dest := NewLocation(lines[k + 2], lines[k + 3]);
      if dest.Failure? {
        return Failure(dest.error);
      }
      if |lines| - k < 6 {
        return Failure(StopIteration);
      }
      wormholes := wormholes + [Wormhole(Some(polarity[0]), Some(source), Some(dest.value))];
      k := k + 5;
    }
  }

  /** The header, read with a cursor: `i` is the index of the line after the
      date line. */
  method ReadHeaderAt(lines: seq<string>, i: nat, date: Stamp) returns (r: Result<(System, nat)>)
    requires i <= |lines|
    ensures Tracks(r, ReadHeader(lines[i..], date), lines, i)
  {
    if |lines| - i < 6 {
      return Failure(StopIteration);
    }
    assert lines[i..][4] == lines[i + 4] && lines[i..][5] == lines[i + 5] && lines[i..][6..] == lines[i + 6..];
    var scan := ScanBuffer(lines, i);
    if scan.Failure? {
      return Failure(scan.error);
    }
    var ((sysLine, secLine), j) := scan.value;
    assert BufferScan(lines[i + 4], lines[i + 5], lines[i + 6..]) == Success((sysLine, secLine, lines[j..]));
    r := HeaderAfterScanAt(lines, j, sysLine, secLine, date);
  }

  /** The header from the location lines on, read with a cursor: `j` is the
      index of the line after the blank line that ended the `buff` loop. */
  method HeaderAfterScanAt(lines: seq<string>, j: nat, sysLine: string, secLine: string, date: Stamp)
    returns (r: Result<(System, nat)>)
    requires j <= |lines|
    ensures Tracks(r, HeaderAfterScan(Success((sysLine, secLine, lines[j..])), date), lines, j)
  {
    var location := NewLocation(sysLine, secLine);
    if location.Failure? {
      return Failure(location.error);
    }
    if |lines| - j < 4 {
      return Failure(StopIteration);
    }
    assert lines[j..][3..] == lines[j + 3..];
    var wormholes := ReadWormholesAt(lines, j + 3, location.value);
    if wormholes.Failure? {
      return Failure(wormholes.error);
    }
    r := Success((System(date, Some(location.value), wormholes.value.0, []), wormholes.value.1));
  }

  /** `process_survey_fh`: the line loop with its cursor, `mode` and the
      growing list of systems. */
  method ProcessSurveyFh(lines: seq<string>) returns (r: Result<seq<System>>)
    ensures r == Parse(lines)
  {
    var systems: seq<System> := [];
    var mode: Mode := NameMode;
    var i := 0;
    while i < |lines|
      invariant 0 <= i <= |lines|
      invariant ParseLines(lines[i..], systems, mode) == Parse(lines)
      decreases |lines| - i
    {
      var line := lines[i];
      assert lines[i..][0] == line && lines[i..][1..] == lines[i + 1..];
      i := i + 1;
      if IsDateLine(line) {
        var header := ReadHeaderAt(lines, i, Written(Strip(line)));
        if header.Failure? {
          return Failure(header.error);
        }
        systems := systems + [header.value.0];
        mode := NameMode;
        i := header.value.1;
      } else {
        var step := TextStep(systems, mode, line);
        if step.Failure? {
          return Failure(step.error);
        }
        systems, mode := step.value.0, step.value.1;
      }
    }
    r := Success(systems);
  }

  // ---------------------------------------------------------------- properties

  /** The header of a survey may hold an optional line before the location
      lines (written when the ship orbits something): the reading is the same
      with or without it. */
  lemma {:induction false} OptionalLineIgnored(date: string, skipped: seq<string>, optional: string,
                            sysLine: string, secLine: string, blank: string, rest: seq<string>,
                            systems: seq<System>, mode: Mode)
    requires IsDateLine(date) && |skipped| == 4
    requires secLine != [] && !IsBreakLine(secLine) && IsBreakLine(blank)
    ensures ParseLines([date] + (skipped + [optional, sysLine, secLine, blank] + rest), systems, mode)
         == ParseLines([date] + (skipped + [sysLine, secLine, blank] + rest), systems, mode)
  {
    var h1 := skipped + [optional, sysLine, secLine, blank] + rest;
    var h2 := skipped + [sysLine, secLine, blank] + rest;
    HeaderOptionalLine(skipped, optional, sysLine, secLine, blank, rest, Written(Strip(date)));
    DateLineThenHeader(date, h1, systems, mode);
    DateLineThenHeader(date, h2, systems, mode);
  }

  /** The reading after a date line, given the outcome of its header. */
  function AfterHeader(header: Result<(System, seq<string>)>, systems: seq<System>): Result<seq<System>>
  {
    if header.Failure? then Failure(header.error)
    else ParseLines(header.value.1, systems + [header.value.0], NameMode)
  }

  lemma {:induction false} DateLineThenHeader(date: string, header: seq<string>, systems: seq<System>, mode: Mode)
    requires IsDateLine(date)
    ensures ParseLines([date] + header, systems, mode) == AfterHeader(ReadHeader(header, Written(Strip(date))), systems)
  {
    assert ([date] + header)[0] == date && ([date] + header)[1..] == header;
  }

  lemma {:induction false} HeaderOptionalLine(skipped: seq<string>, optional: string,
                           sysLine: string, secLine: string, blank: string, rest: seq<string>, stamp: Stamp)
    requires |skipped| == 4
    requires secLine != [] && !IsBreakLine(secLine) && IsBreakLine(blank)
    ensures ReadHeader(skipped + [optional, sysLine, secLine, blank] + rest, stamp)
         == ReadHeader(skipped + [sysLine, secLine, blank] + rest, stamp)
  {
    var with := skipped + [optional, sysLine, secLine, blank] + rest;
    var without := skipped + [sysLine, secLine, blank] + rest;
    assert with[4] == optional && with[5] == sysLine && with[6..] == [secLine, blank] + rest;
    assert without[4] == sysLine && without[5] == secLine && without[6..] == [blank] + rest;
    assert ([secLine, blank] + rest)[1..] == [blank] + rest;
    assert BufferScan(optional, sysLine, [secLine, blank] + rest) == BufferScan(sysLine, secLine, [blank] + rest);
  }

  /** The `buff` loop returns the last two lines read before the first
      blank line, and the lines after that blank line. */
  lemma {:induction false} BufferScanFinds(prev2: string, prev1: string, mid: seq<string>, blank: string, tail: seq<string>)
    requires IsBreakLine(blank)
    requires forall k :: 0 <= k < |mid| ==> mid[k] != [] && !IsBreakLine(mid[k])
    ensures var w := [prev2, prev1] + mid;
      BufferScan(prev2, prev1, mid + [blank] + tail) == Success((w[|w| - 2], w[|w| - 1], tail))
    decreases |mid|
  {
    var rest := mid + [blank] + tail;
    if mid == [] {
      assert rest == [blank] + tail && rest[1..] == tail;
    } else {
      assert rest[0] == mid[0] && rest[1..] == mid[1..] + [blank] + tail;
      BufferScanFinds(prev1, mid[0], mid[1..], blank, tail);
      var w := [prev2, prev1] + mid;
      var w' := [prev1, mid[0]] + mid[1..];
      assert |w'| == |w| - 1 && w'[|w'| - 1] == w[|w| - 1] && w'[|w'| - 2] == w[|w| - 2];
    }
  }

  /** The location of a header is built from the last two lines before the
      first blank line (counting from the fifth line after the date), and its
      wormholes are read from the fourth line after that blank line on. */
  lemma {:induction false} ReadHeaderOfLines(skipped: seq<string>, front: seq<string>, blank: string, tail: seq<string>, date: Stamp)
    requires |skipped| == 4 && |front| >= 2 && IsBreakLine(blank)
    requires forall k :: 2 <= k < |front| ==> front[k] != [] && !IsBreakLine(front[k])
    ensures var sysLine := front[|front| - 2]; var secLine := front[|front| - 1];
      var r := ReadHeader(skipped + front + [blank] + tail, date);
      && r == HeaderAfterScan(Success((sysLine, secLine, tail)), date)
      && (r.Success? ==>
            && NewLocation(sysLine, secLine).Success?
            && r.value.0.location == Some(NewLocation(sysLine, secLine).value)
            && WormholesFrom(tail[3..], NewLocation(sysLine, secLine).value, []) == Success((r.value.0.wormholes, r.value.1)))
  {
    var ls := skipped + front + [blank] + tail;
    var mid := front[2..];
    assert ls[4] == front[0] && ls[5] == front[1];
    assert ls[6..] == mid + [blank] + tail;
    BufferScanFinds(front[0], front[1], mid, blank, tail);
    assert [front[0], front[1]] + mid == front;
  }

  /** An empty or blank lead line ends the wormhole list. */
  lemma {:induction false} WormholesEnd(lead: string, rest: seq<string>, source: Location, acc: seq<Wormhole>)
    requires lead == [] || IsBreakLine(lead)
    ensures WormholesFrom([lead] + rest, source, acc) == Success((acc, rest))
  {
    assert ([lead] + rest)[0] == lead && ([lead] + rest)[1..] == rest;
  }

  /** One five-line wormhole entry: a lead line, the polarity line (its
      first word), the two destination location lines and a skipped line. */
  lemma {:induction false} WormholeEntry(lead: string, polarity: string, destSystem: string, destSector: string,
                                         skip: string, more: seq<string>, source: Location, acc: seq<Wormhole>)
    requires lead != [] && !IsBreakLine(lead) && more != []
    requires Words(polarity) != [] && NewLocation(destSystem, destSector).Success?
    ensures WormholesFrom([lead, polarity, destSystem, destSector, skip] + more, source, acc)
         == WormholesFrom(more, source,
              acc + [Wormhole(Some(Words(polarity)[0]), Some(source), Some(NewLocation(destSystem, destSector).value))])
  {
    var ls := [lead, polarity, destSystem, destSector, skip] + more;
    assert ls[0] == lead && ls[1] == polarity && ls[2] == destSystem && ls[3] == destSector;
    assert ls[5..] == more;
  }

  /** A date line followed by fewer than six lines ends the survey early
      (StopIteration), and one followed by fewer than eleven lines always
      fails: the header alone takes eleven lines. */
  lemma {:induction false} TruncatedHeader(date: string, post: seq<string>, systems: seq<System>, mode: Mode)
    requires IsDateLine(date)
    ensures |post| < 6 ==> ParseLines([date] + post, systems, mode) == Failure(StopIteration)
    ensures |post| < 11 ==> ParseLines([date] + post, systems, mode).Failure?
  {
    assert ([date] + post)[1..] == post;
  }

  /** A body line before any date line has no system to belong to. */
  lemma {:induction false} BodyBeforeDate(line: string, rest: seq<string>)
    requires line != [] && !IsBreakLine(line) && !IsDateLine(line)
    ensures Parse([line] + rest) == Failure(IndexError)
  {
    assert ([line] + rest)[0] == line;
  }

  /** Every system read from a survey has a location, and each of its
      wormholes leads from that location and has a polarity and a destination. */
  predicate WellFormedSystem(s: System) {
    s.location.Some? && forall w :: w in s.wormholes ==> FromSource(w, s.location.value)
  }

  /** Two lists of systems that differ at most in their bodies. */
  predicate SameHeaders(before: seq<System>, after: seq<System>) {
    |after| == |before| &&
    forall k :: 0 <= k < |before| ==>
      after[k].date == before[k].date && after[k].location == before[k].location &&
      after[k].wormholes == before[k].wormholes
  }

  /** A line that is not a date line changes bodies only. */
  lemma {:induction false} StepKeepsHeaders(systems: seq<System>, mode: Mode, line: string)
    ensures TextStep(systems, mode, line).Success? ==> SameHeaders(systems, TextStep(systems, mode, line).value.0)
  {
    var r := TextStep(systems, mode, line);
    if r.Success? && r.value.0 != systems {
      var after := r.value.0;
      forall k | 0 <= k < |systems|
        ensures after[k].date == systems[k].date && after[k].location == systems[k].location
        ensures after[k].wormholes == systems[k].wormholes
      {
        if k < |systems| - 1 {
          assert after[k] == after[..|after| - 1][k] && systems[k] == systems[..|systems| - 1][k];
        }
      }
    }
  }

  lemma {:induction false} ParseLinesWellFormed(ls: seq<string>, systems: seq<System>, mode: Mode)
    requires forall s :: s in systems ==> WellFormedSystem(s)
    ensures ParseLines(ls, systems, mode).Success? ==>
      forall s :: s in ParseLines(ls, systems, mode).value ==> WellFormedSystem(s)
    decreases |ls|
  {
    if ls != [] {
      if IsDateLine(ls[0]) {
        var header := ReadHeader(ls[1..], Written(Strip(ls[0])));
        if header.Success? {
          ParseLinesWellFormed(header.value.1, systems + [header.value.0], NameMode);
        }
      } else {
        var step := TextStep(systems, mode, ls[0]);
        if step.Success? {
          StepKeepsWellFormed(systems, mode, ls[0]);
          ParseLinesWellFormed(ls[1..], step.value.0, step.value.1);
        }
      }
    }
  }

  lemma {:induction false} StepKeepsWellFormed(systems: seq<System>, mode: Mode, line: string)
    requires forall s :: s in systems ==> WellFormedSystem(s)
    ensures TextStep(systems, mode, line).Success? ==>
      forall s :: s in TextStep(systems, mode, line).value.0 ==> WellFormedSystem(s)
  {
    var step := TextStep(systems, mode, line);
    if step.Success? {
      StepKeepsHeaders(systems, mode, line);
      forall s | s in step.value.0 ensures WellFormedSystem(s) {
        var k :| 0 <= k < |step.value.0| && step.value.0[k] == s;
        assert WellFormedSystem(systems[k]);
      }
    }
  }

  /** Every system of a parsed survey is well formed. */
  lemma {:induction false} ParsedSystemsWellFormed(lines: seq<string>)
    ensures Parse(lines).Success? ==> forall s :: s in Parse(lines).value ==> WellFormedSystem(s)
  {
    ParseLinesWellFormed(lines, [], NameMode);
  }

  /** Outside `'name'` mode there is always a body to add to: the source's
      `systems[-1].bodies[-1]` never fails on a section line. */
  predicate ModeInvariant(systems: seq<System>, mode: Mode) {
    mode != NameMode ==> systems != [] && Last(systems).bodies != []
  }

  lemma {:induction false} StepKeepsModeInvariant(systems: seq<System>, mode: Mode, line: string)
    requires ModeInvariant(systems, mode)
    ensures TextStep(systems, mode, line).Success? ==>
      ModeInvariant(TextStep(systems, mode, line).value.0, TextStep(systems, mode, line).value.1)
  {
  }

  /** A `Primary` heading selects the `Orbiting` rules. */
  lemma {:induction false} PrimaryHeading(systems: seq<System>, mode: Mode, line: string)
    requires line != [] && line[0] != ' ' && !IsBreakLine(line) && mode != NameMode
    requires Words(line) != [] && Words(line)[0] == "Primary"
    ensures TextStep(systems, mode, line) == Success((systems, Some("Orbiting")))
    ensures TextSection(Some("Orbiting")) == Orbiting
  {
  }

  /** An `Orbiting` heading selects the `Orbiting` rules and records the
      heading, without its last word (the degrees), as the last body's orbit. */
  lemma {:induction false} OrbitingHeading(systems: seq<System>, mode: Mode, line: string, ws: seq<string>, degrees: string)
    requires line != [] && line[0] != ' ' && !IsBreakLine(line) && mode != NameMode
    requires Words(line) == ["Orbiting"] + ws + [degrees]
    requires systems != [] && Last(systems).bodies != []
    ensures TextStep(systems, mode, line)
         == Success((WithLastBody(systems, Last(Last(systems).bodies).(orbits := Some(Join(" ", ["Orbiting"] + ws)))),
                     Some("Orbiting")))
  {
    var words := Words(line);
    assert words[0] == "Orbiting" && words[..|words| - 1] == ["Orbiting"] + ws;
  }

  /** Any other heading in column 0 makes its first word the mode, and
      changes nothing else. */
  lemma {:induction false} OtherHeading(systems: seq<System>, mode: Mode, line: string)
    requires line != [] && line[0] != ' ' && !IsBreakLine(line) && mode != NameMode
    requires Words(line) != [] && Words(line)[0] != "Primary" && Words(line)[0] != "Orbiting"
    ensures TextStep(systems, mode, line) == Success((systems, Some(Words(line)[0])))
  {
  }

  /** An indented line in a listed section is its section's rule applied to
      the last body; in an unlisted section it changes nothing. */
  lemma {:induction false} ContentLine(systems: seq<System>, mode: Mode, line: string)
    requires line != [] && line[0] == ' ' && mode != NameMode
    requires systems != [] && Last(systems).bodies != []
    ensures var a := ApplyLine(Last(Last(systems).bodies), TextSection(mode), line, PlainRadius);
      TextStep(systems, mode, line)
        == if TextSection(mode) == Unlisted then Success((systems, mode))
           else if a.Failure? then Failure(a.error)
           else Success((WithLastBody(systems, a.value), mode))
  {
  }

  /** An indented `Type` line under `Primary` or `Orbiting` makes the last
      body a star with one more zone. */
  lemma {:induction false} IndentedTypeLine(systems: seq<System>, line: string, ws: seq<string>)
    requires line != [] && line[0] == ' ' && Words(line) == ["Type"] + ws
    requires systems != [] && Last(systems).bodies != []
    ensures var r := TextStep(systems, Some("Orbiting"), line);
      && r.Success? && r.value.1 == Some("Orbiting")
      && var nb := Last(Last(r.value.0).bodies);
         && nb.kind == Some("star")
         && |nb.zones| == |Last(Last(systems).bodies).zones| + 1
  {
    var b := Last(Last(systems).bodies);
    TypeLineAddsOneZone(b, line, ws, PlainRadius);
    ContentLine(systems, Some("Orbiting"), line);
  }

  /** Under the invariant, an indented line in a listed section is applied
      to the last body, and fails only when its section rule fails. */
  lemma {:induction false} SectionLineHasBody(systems: seq<System>, mode: Mode, line: string)
    requires ModeInvariant(systems, mode) && mode != NameMode
    requires line != [] && line[0] == ' ' && TextSection(mode) != Unlisted
    ensures TextStep(systems, mode, line).Success?
        <==> ApplyLine(Last(Last(systems).bodies), TextSection(mode), line, PlainRadius).Success?
  {
  }
}
