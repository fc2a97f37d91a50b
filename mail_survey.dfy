/** The HTML-mail survey reader (`SurveyHTMLParser` and `process_survey_file`
    in survey.py). The parser sees a stream of start tags, end tags and text.
    Text inside `<big>` names a section (a body, or `Wormholes`); text inside
    `<b>` is a heading; other text is content, read according to the current
    section and heading. Before the first section the content holds the
    `UTC:` time stamp and two coordinate lines that locate the system. */
module MailSurvey {
  import opened Errors
  import opened PyStr
  import opened Geo
  import opened Domain
  import opened SectionRules
  import opened Envelope

  /** The parser's `section`: `'init'`, `'wormholes'` or `'body'`. */
  datatype Part = InitPart | WormholePart | BodyPart

  datatype ParserState = ParserState(
    system: Option<System>,
    section: Part,
    sectionHeader: string,
    header: string,
    enteringSectionHeader: bool,
    enteringHeader: bool,
    tmpSystem: Option<string>,
    tmpSector: Option<string>)

  /** The class attributes a new parser starts from. */
  const Initial := ParserState(None, InitPart, "", "", false, false, None, None)

  /** What the markup tokeniser hands to the parser. */
  datatype Event = Start(tag: string) | End(tag: string) | Data(text: string)

  // ---------------------------------------------------------------- tags

  /** `handle_starttag`: `big` opens a section name, `b` a heading. */
  function StartTag(st: ParserState, tag: string): (r: ParserState)
    ensures r.enteringSectionHeader == (tag == "big" || st.enteringSectionHeader)
    ensures r.enteringHeader == (tag == "b" || st.enteringHeader)
    ensures r.(enteringSectionHeader := st.enteringSectionHeader, enteringHeader := st.enteringHeader) == st
  {
    var st := if tag == "big" then st.(enteringSectionHeader := true) else st;
    if tag == "b" then st.(enteringHeader := true) else st
  }

  /** `handle_endtag`: closing `big` or `b` ends the section name or heading. */
  function EndTag(st: ParserState, tag: string): (r: ParserState)
    ensures r.enteringSectionHeader == (tag != "big" && st.enteringSectionHeader)
    ensures r.enteringHeader == (tag != "b" && st.enteringHeader)
    ensures r.(enteringSectionHeader := st.enteringSectionHeader, enteringHeader := st.enteringHeader) == st
  {
    var st := if tag == "big" then st.(enteringSectionHeader := false) else st;
    if tag == "b" then st.(enteringHeader := false) else st
  }

  /** A tag that is opened and closed again leaves the parser as it was
      when its flag was clear. */
  lemma {:induction false} TagPairRestores(st: ParserState, tag: string)
    requires !st.enteringSectionHeader && !st.enteringHeader
    ensures EndTag(StartTag(st, tag), tag) == st
  {
  }

  // ---------------------------------------------------------------- patterns

  /** `re.match('^UTC:[0-9a-fA-F]+$', data)` on stripped text, which never
      ends with a line break. */
  predicate IsUtcLine(data: string) {
    |data| > 4 && data[..4] == "UTC:" && forall k :: 4 <= k < |data| ==> IsHexDigit(data[k])
  }

  predicate IsCoordChar(c: char) {
    IsDigit(c) || c == ',' || c == '.' || c == ' ' || c == '-'
  }

  function CoordRun(s: string, i: nat): (j: nat)
    requires i <= |s|
    ensures i <= j <= |s|
    ensures forall k :: i <= k < j ==> IsCoordChar(s[k])
    ensures j < |s| ==> !IsCoordChar(s[j])
    decreases |s| - i
  {
    if i < |s| && IsCoordChar(s[i]) then CoordRun(s, i + 1) else i
  }

  /** `\([0-9,. \-]+\)` at position `i`, followed by the end of the text
      (or a final line break) when `anchored` (the pattern's `$`). */
  predicate CoordAt(s: string, i: nat, anchored: bool)
    requires i < |s|
  {
    s[i] == '(' &&
    var e := CoordRun(s, i + 1);
    i + 1 < e < |s| && s[e] == ')' &&
    (!anchored || e + 1 == |s| || (e + 2 == |s| && s[e + 1] == '\n'))
  }

  /** `re.match('.*\([0-9,. \-]+\)', s)` (with a trailing `$` when
      `anchored`) from position `i`: `.*` crosses no line break, so the
      parenthesis must lie on the first line. */
  predicate CoordSearch(s: string, i: nat, anchored: bool)
    requires i <= |s|
    decreases |s| - i
  {
    i < |s| && s[i] != '\n' && (CoordAt(s, i, anchored) || CoordSearch(s, i + 1, anchored))
  }

  predicate IsCoordLine(s: string, anchored: bool) {
    CoordSearch(s, 0, anchored)
  }

  /** A match of the anchored pattern is also a match of the open one, so a
      sector line is only ever read after a system line. */
  lemma {:induction false} AnchoredIsCoordLine(s: string, i: nat)
    requires i <= |s|
    ensures CoordSearch(s, i, true) ==> CoordSearch(s, i, false)
    decreases |s| - i
  {
    if i < |s| && s[i] != '\n' && !CoordAt(s, i, true) {
      AnchoredIsCoordLine(s, i + 1);
    }
  }

  /** `re.match('^(Positive|Negative) Wormhole$', data)` on stripped text. */
  predicate IsPolarityLine(data: string) {
    |data| == 17 && (data[..8] == "Positive" || data[..8] == "Negative") && data[8..] == " Wormhole"
  }

  lemma {:induction false} PolarityWords(data: string)
    requires IsPolarityLine(data)
    ensures Words(data) != [] && Words(data)[0] == data[..8]
  {
    var t := data[..8];
    assert IsToken(t);
    assert data == t + data[8..];
    WordsOfTokenThen(t, data[8..]);
  }

  // ---------------------------------------------------------------- system updates

  function AddBody(s: System, b: Body): System
  {
    s.(bodies := s.bodies + [b])
  }

  function SetLastBody(s: System, b: Body): System
    requires s.bodies != []
  {
    s.(bodies := s.bodies[|s.bodies| - 1 := b])
  }

  function SetLastWormhole(s: System, w: Wormhole): System
    requires s.wormholes != []
  {
    s.(wormholes := s.wormholes[|s.wormholes| - 1 := w])
  }

  // ---------------------------------------------------------------- text

  /** Text inside `<big>`: `Wormholes` starts the wormhole list; any other
      name starts a new body of that name. */
  function SectionHeaderData(st: ParserState, data: string): (r: Result<ParserState>)
    ensures data == "Wormholes" ==> r == Success(st.(sectionHeader := data, section := WormholePart))
    ensures data != "Wormholes" && st.system.None? ==> r == Failure(AttributeError)
    ensures data != "Wormholes" && st.system.Some? ==>
      r == Success(st.(sectionHeader := data, section := BodyPart, system := Some(AddBody(st.system.value, NewBody(data)))))
  {
    var st := st.(sectionHeader := data);
    if data == "Wormholes" then Success(st.(section := WormholePart))
    else if st.system.None? then Failure(AttributeError)
    else Success(st.(section := BodyPart, system := Some(AddBody(st.system.value, NewBody(data)))))
  }

  /** Text inside `<b>`: a heading. In the wormhole list it opens a new
      wormhole leading from the system's location; in a body an `Orbiting`
      heading names what the body orbits (without the last word). */
  function HeaderData(st: ParserState, data: string): (r: Result<ParserState>)
    ensures r.Success? ==> r.value.header == data && r.value.section == st.section
    ensures st.section == WormholePart && st.system.Some? ==>
      r.Success? && r.value.system.Some?
      && r.value.system.value.wormholes == st.system.value.wormholes + [Wormhole(None, st.system.value.location, None)]
    ensures st.section == BodyPart && Words(data) == [] ==> r == Failure(IndexError)
  {
    var next := st.(header := data);
    match st.section
    case InitPart => Success(next)
    case WormholePart =>
      if st.system.None? then Failure(AttributeError)
      else
        var s := st.system.value;
        Success(next.(system := Some(s.(wormholes := s.wormholes + [Wormhole(None, s.location, None)]))))
    case BodyPart =>
      var words := Words(data);
      if words == [] then Failure(IndexError)
      else if words[0] != "Orbiting" then Success(next)
      else if st.system.None? then Failure(AttributeError)
      else if st.system.value.bodies == [] then Failure(IndexError)
      else
        var s := st.system.value;
        var b := Last(s.bodies);
        Success(next.(system := Some(SetLastBody(s, b.(orbits := Some(Join(" ", words[..|words| - 1])))))))
  }

  /** The location read from the staged system line and a sector line
      becomes the system's location; the staging is cleared. */
  function PairLocation(st: ParserState, location: Result<Location>): (r: Result<ParserState>)
    ensures r.Success? <==> location.Success? && st.system.Some?
    ensures r.Success? ==>
      r == Success(st.(system := Some(st.system.value.(location := Some(location.value))), tmpSystem := None, tmpSector := None))
  {
    if location.Failure? then Failure(location.error)
    else if st.system.None? then Failure(AttributeError)
    else Success(st.(system := Some(st.system.value.(location := Some(location.value))), tmpSystem := None, tmpSector := None))
  }

  /** Content before the first section: a `UTC:` line starts the system; the
      first coordinate line is kept as the system line and the next one that
      ends with the coordinates is paired with it into the location. */
  function InitData(st: ParserState, data: string): (r: Result<ParserState>)
    ensures IsUtcLine(data) ==> r == Success(st.(system := Some(NewSystem(Utc(HexValue(data[4..]))))))
    ensures !IsUtcLine(data) && IsCoordLine(data, false) && st.tmpSystem.None? ==>
      r == Success(st.(tmpSystem := Some(data)))
    ensures !IsUtcLine(data) && !IsCoordLine(data, false) ==> r == Success(st)
  {
    if IsUtcLine(data) then Success(st.(system := Some(NewSystem(Utc(HexValue(data[4..]))))))
    else if IsCoordLine(data, false) && st.tmpSystem.None? then Success(st.(tmpSystem := Some(data)))
    else if IsCoordLine(data, true) && st.tmpSector.None? then
      AnchoredIsCoordLine(data, 0);
      PairLocation(st, NewMailLocation(st.tmpSystem.value, data))
    else Success(st)
  }

  /** The location read from the staged system line and a sector line
      becomes the destination of the last wormhole; the staging is cleared. */
  function PairDestination(st: ParserState, location: Result<Location>): (r: Result<ParserState>)
    ensures r.Success? <==> location.Success? && st.system.Some? && st.system.value.wormholes != []
    ensures r.Success? ==> var s := st.system.value;
      r == Success(st.(system := Some(SetLastWormhole(s, Last(s.wormholes).(dest := Some(location.value)))),
                       tmpSystem := None, tmpSector := None))
  {
    if location.Failure? then Failure(location.error)
    else if st.system.None? then Failure(AttributeError)
    else if st.system.value.wormholes == [] then Failure(IndexError)
    else
      var s := st.system.value;
      Success(st.(system := Some(SetLastWormhole(s, Last(s.wormholes).(dest := Some(location.value)))),
                  tmpSystem := None, tmpSector := None))
  }

  /** The last wormhole with the polarity a polarity line names. */
  function SetPolarity(st: ParserState, data: string): (r: Result<ParserState>)
    requires IsPolarityLine(data)
    ensures r.Success? <==> st.system.Some? && st.system.value.wormholes != []
    ensures r.Success? ==> var s := st.system.value;
      r == Success(st.(system := Some(SetLastWormhole(s, Last(s.wormholes).(polarity := Some(data[..8]))))))
  {
    if st.system.None? then Failure(AttributeError)
    else if st.system.value.wormholes == [] then Failure(IndexError)
    else
      PolarityWords(data);
      var s := st.system.value;
      Success(st.(system := Some(SetLastWormhole(s, Last(s.wormholes).(polarity := Some(Words(data)[0]))))))
  }

  /** Content of the wormhole list: a polarity line names the last
      wormhole's polarity, and two coordinate lines its destination. */
  function WormholeData(st: ParserState, data: string): (r: Result<ParserState>)
    ensures IsPolarityLine(data) ==> r == SetPolarity(st, data)
    ensures !IsPolarityLine(data) && IsCoordLine(data, true) && st.tmpSystem.None? ==>
      r == Success(st.(tmpSystem := Some(data)))
    ensures !IsPolarityLine(data) && !IsCoordLine(data, true) ==> r == Success(st)
  {
    if IsPolarityLine(data) then SetPolarity(st, data)
    else if IsCoordLine(data, true) && st.tmpSystem.None? then Success(st.(tmpSystem := Some(data)))
    else if IsCoordLine(data, true) && st.tmpSector.None? then
      PairDestination(st, NewMailLocation(st.tmpSystem.value, data))
    else Success(st)
  }

  /** The section rule a heading selects: `Primary` and `Orbiting ...`
      headings read star and orbit lines; a heading without words is an
      IndexError (its first word is always looked up). */
  function MailSection(header: string): (r: Result<Section>)
    ensures r.Failure? <==> header != "Primary" && Words(header) == []
    ensures r.Failure? ==> r.error == IndexError
    ensures r == Success(Orbiting) <==> header == "Primary" || (Words(header) != [] && Words(header)[0] == "Orbiting")
  {
    if header == "Primary" then Success(Orbiting)
    else
      var words := Words(header);
      if words == [] then Failure(IndexError)
      else if words[0] == "Orbiting" then Success(Orbiting)
      else if header == "Photosphere" then Success(Photosphere)
      else if header == "Geosphere" then Success(Geosphere)
      else if header == "Hydrosphere" || header == "Atmosphere" then Success(Fluid)
      else if header == "Biosphere" then Success(Biosphere)
      else Success(Unlisted)
  }

  /** Content inside a body: the heading's section rule applied to the body
      named last, with the mail reader's radius style. */
  function BodyData(st: ParserState, data: string): (r: Result<ParserState>)
    ensures r.Success? ==> r.value.(system := st.system) == st
    ensures MailSection(st.header).Failure? ==> r == Failure(IndexError)
  {
    var section :- MailSection(st.header);
    if section == Unlisted then Success(st)
    else if st.system.None? then Failure(AttributeError)
    else if st.system.value.bodies == [] then Failure(IndexError)
    else
      var s := st.system.value;
      var b :- ApplyLine(Last(s.bodies), section, data, MailRadius);
      Success(st.(system := Some(SetLastBody(s, b))))
  }

  /** `handle_data`: the text is stripped, then read as a section name, a
      heading or content. */
  function DataStep(st: ParserState, raw: string): Result<ParserState>
  {
    var data := Strip(raw);
    if st.enteringSectionHeader then SectionHeaderData(st, data)
    else if st.enteringHeader then HeaderData(st, data)
    else match st.section
      case InitPart => InitData(st, data)
      case WormholePart => WormholeData(st, data)
      case BodyPart => BodyData(st, data)
  }

  function EventStep(st: ParserState, e: Event): Result<ParserState>
  {
    match e
    case Start(tag) => Success(StartTag(st, tag))
    case End(tag) => Success(EndTag(st, tag))
    case Data(text) => DataStep(st, text)
  }

  /** `feed`: the events in order, stopping at the first error. */
  function Run(st: ParserState, events: seq<Event>): Result<ParserState>
    decreases |events|
  {
    if events == [] then Success(st)
    else
      var next := EventStep(st, events[0]);
      if next.Failure? then Failure(next.error) else Run(next.value, events[1..])
  }

  // ---------------------------------------------------------------- invariant

  /** What holds between events: no sector line is ever left staged, every
      body section has a body to add to, every wormhole leads from the
      system's location, and no wormhole is read before the location. */
  predicate Valid(st: ParserState) {
    && st.tmpSector.None?
    && (st.section == BodyPart ==> st.system.Some? && st.system.value.bodies != [])
    && (st.section == InitPart && st.system.Some? ==> st.system.value.wormholes == [])
    && (st.system.Some? ==> forall w :: w in st.system.value.wormholes ==> w.source == st.system.value.location)
  }

  lemma {:induction false} InitialValid()
    ensures Valid(Initial)
  {
  }

  /** Replacing the last wormhole by one with the same source keeps every
      wormhole leading from the system's location. */
  lemma {:induction false} SetLastWormholeKeepsSources(s: System, w: Wormhole)
    requires s.wormholes != [] && w.source == Last(s.wormholes).source
    requires forall v :: v in s.wormholes ==> v.source == s.location
    ensures forall v :: v in SetLastWormhole(s, w).wormholes ==> v.source == s.location
  {
    var after := SetLastWormhole(s, w).wormholes;
    forall v | v in after ensures v.source == s.location {
      var k :| 0 <= k < |after| && after[k] == v;
      assert s.wormholes[k] in s.wormholes;
    }
  }

  lemma {:induction false} HeaderKeepsValid(st: ParserState, data: string)
    requires Valid(st)
    ensures HeaderData(st, data).Success? ==> Valid(HeaderData(st, data).value)
  {
  }

  lemma {:induction false} InitKeepsValid(st: ParserState, data: string)
    requires Valid(st) && st.section == InitPart
    ensures InitData(st, data).Success? ==> Valid(InitData(st, data).value)
  {
    if !IsUtcLine(data) && !(IsCoordLine(data, false) && st.tmpSystem.None?) && IsCoordLine(data, true) && st.tmpSector.None? {
      AnchoredIsCoordLine(data, 0);
    }
  }

  lemma {:induction false} PolarityKeepsValid(st: ParserState, data: string)
    requires Valid(st) && st.section == WormholePart && IsPolarityLine(data)
    ensures SetPolarity(st, data).Success? ==> Valid(SetPolarity(st, data).value)
  {
    if SetPolarity(st, data).Success? {
      var s := st.system.value;
      SetLastWormholeKeepsSources(s, Last(s.wormholes).(polarity := Some(data[..8])));
    }
  }

  lemma {:induction false} PairKeepsValid(st: ParserState, location: Result<Location>)
    requires Valid(st) && st.section == WormholePart
    ensures PairDestination(st, location).Success? ==> Valid(PairDestination(st, location).value)
  {
    if PairDestination(st, location).Success? {
      var s := st.system.value;
      SetLastWormholeKeepsSources(s, Last(s.wormholes).(dest := Some(location.value)));
    }
  }

  lemma {:induction false} WormholeKeepsValid(st: ParserState, data: string)
    requires Valid(st) && st.section == WormholePart
    ensures WormholeData(st, data).Success? ==> Valid(WormholeData(st, data).value)
  {
    if IsPolarityLine(data) {
      PolarityKeepsValid(st, data);
    } else if IsCoordLine(data, true) && st.tmpSystem.Some? {
      PairKeepsValid(st, NewMailLocation(st.tmpSystem.value, data));
    }
  }

  lemma {:induction false} BodyKeepsValid(st: ParserState, data: string)
    requires Valid(st) && st.section == BodyPart
    ensures BodyData(st, data).Success? ==> Valid(BodyData(st, data).value)
  {
  }

  lemma {:induction false} DataStepKeepsValid(st: ParserState, raw: string)
    requires Valid(st)
    ensures DataStep(st, raw).Success? ==> Valid(DataStep(st, raw).value)
  {
    var data := Strip(raw);
    if st.enteringSectionHeader {
    } else if st.enteringHeader {
      HeaderKeepsValid(st, data);
    } else if st.section == InitPart {
      InitKeepsValid(st, data);
    } else if st.section == WormholePart {
      WormholeKeepsValid(st, data);
    } else {
      BodyKeepsValid(st, data);
    }
  }

  lemma {:induction false} RunKeepsValid(st: ParserState, events: seq<Event>)
    requires Valid(st)
    ensures Run(st, events).Success? ==> Valid(Run(st, events).value)
    decreases |events|
  {
    if events != [] {
      var next := EventStep(st, events[0]);
      if events[0].Data? {
        DataStepKeepsValid(st, events[0].text);
      }
      if next.Success? {
        RunKeepsValid(next.value, events[1..]);
      }
    }
  }

  /** Every wormhole of a parsed survey leads from the system's location. */
  lemma {:induction false} WormholesLeaveFromLocation(events: seq<Event>)
    ensures Run(Initial, events).Success? && Run(Initial, events).value.system.Some? ==>
      var s := Run(Initial, events).value.system.value;
      forall w :: w in s.wormholes ==> w.source == s.location
  {
    RunKeepsValid(Initial, events);
  }

  // ---------------------------------------------------------------- properties

  /** Before the first section, the first coordinate line is staged as the
      system line. */
  lemma {:induction false} SystemLineStaged(st: ParserState, raw: string)
    requires st.section == InitPart && !st.enteringSectionHeader && !st.enteringHeader
    requires st.tmpSystem.None?
    requires !IsUtcLine(Strip(raw)) && IsCoordLine(Strip(raw), false)
    ensures DataStep(st, raw) == Success(st.(tmpSystem := Some(Strip(raw))))
  {
  }

  /** With a system line staged, a line ending in coordinates is the sector
      line: the two together become the system's location. */
  lemma {:induction false} SectorLineLocates(st: ParserState, raw: string)
    requires Valid(st) && st.section == InitPart && !st.enteringSectionHeader && !st.enteringHeader
    requires st.tmpSystem.Some?
    requires !IsUtcLine(Strip(raw)) && IsCoordLine(Strip(raw), true)
    ensures DataStep(st, raw) == PairLocation(st, NewMailLocation(st.tmpSystem.value, Strip(raw)))
  {
    AnchoredIsCoordLine(Strip(raw), 0);
  }

  /** A polarity line in the wormhole list sets the last wormhole's polarity
      to its first word and changes nothing else. */
  lemma {:induction false} PolarityLine(st: ParserState, raw: string)
    requires !st.enteringSectionHeader && !st.enteringHeader && st.section == WormholePart
    requires st.system.Some? && st.system.value.wormholes != []
    requires IsPolarityLine(Strip(raw))
    ensures var s := st.system.value;
      DataStep(st, raw) == Success(st.(system := Some(SetLastWormhole(s, Last(s.wormholes).(polarity := Some(Strip(raw)[..8]))))))
  {
    PolarityWords(Strip(raw));
  }

  /** Content text without words inside a body is an IndexError, unless the
      heading selects no rule. */
  lemma {:induction false} EmptyBodyData(st: ParserState, raw: string)
    requires Valid(st) && !st.enteringSectionHeader && !st.enteringHeader && st.section == BodyPart
    requires Words(Strip(raw)) == []
    requires MailSection(st.header) != Success(Unlisted)
    ensures DataStep(st, raw) == Failure(IndexError)
  {
  }

  // ---------------------------------------------------------------- the parser object

  class SurveyHtmlParser {
    var system: Option<System>
    var section: Part
    var sectionHeader: string
    var header: string
    var enteringSectionHeader: bool
    var enteringHeader: bool
    var tmpSystem: Option<string>
    var tmpSector: Option<string>

    function State(): ParserState
      reads this
    {
      ParserState(system, section, sectionHeader, header, enteringSectionHeader, enteringHeader, tmpSystem, tmpSector)
    }

    constructor()
      ensures State() == Initial
    {
      system := None;
      section := InitPart;
      sectionHeader := "";
      header := "";
      enteringSectionHeader := false;
      enteringHeader := false;
      tmpSystem := None;
      tmpSector := None;
    }

    method HandleStartTag(tag: string)
      modifies this
      ensures State() == StartTag(old(State()), tag)
    {
      if tag == "big" {
        enteringSectionHeader := true;
      }
      if tag == "b" {
        enteringHeader := true;
      }
    }

    method HandleEndTag(tag: string)
      modifies this
      ensures State() == EndTag(old(State()), tag)
    {
      if tag == "big" {
        enteringSectionHeader := false;
      }
      if tag == "b" {
        enteringHeader := false;
      }
    }

    /** `handle_data`; an error leaves the parser in an unspecified state. */
    method HandleData(raw: string) returns (err: Option<Error>)
      modifies this
      ensures var r := DataStep(old(State()), raw);
        && (err.None? <==> r.Success?)
        && (err.Some? ==> err.value == r.error)
        && (err.None? ==> State() == r.value)
    {
      var data := Strip(raw);
      if enteringSectionHeader {
        sectionHeader := data;
        if data == "Wormholes" {
          section := WormholePart;
        } else {
          if system.None? {
            return Some(AttributeError);
          }
          section := BodyPart;
          system := Some(AddBody(system.value, NewBody(data)));
        }
        err := None;
      } else if enteringHeader {
        err := HandleHeader(data);
      } else if section == InitPart {
        err := HandleInitData(data);
      } else if section == WormholePart {
        err := HandleWormholeData(data);
      } else {
        err := HandleBodyData(data);
      }
    }

    method HandleHeader(data: string) returns (err: Option<Error>)
      modifies this
      ensures var r := HeaderData(old(State()), data);
        && (err.None? <==> r.Success?)
        && (err.Some? ==> err.value == r.error)
        && (err.None? ==> State() == r.value)
    {
      header := data;
      if section == WormholePart {
        if system.None? {
          return Some(AttributeError);
        }
        var s := system.value;
        system := Some(s.(wormholes := s.wormholes + [Wormhole(None, s.location, None)]));
      } else if section == BodyPart {
        var words := Words(data);
        if words == [] {
          return Some(IndexError);
        }
        if words[0] == "Orbiting" {
          if system.None? {
            return Some(AttributeError);
          }
          if system.value.bodies == [] {
            return Some(IndexError);
          }
          var s := system.value;
          var b := Last(s.bodies);
          system := Some(SetLastBody(s, b.(orbits := Some(Join(" ", words[..|words| - 1])))));
        }
      }
      err := None;
    }

    method HandleInitData(data: string) returns (err: Option<Error>)
      modifies this
      ensures var r := InitData(old(State()), data);
        && (err.None? <==> r.Success?)
        && (err.Some? ==> err.value == r.error)
        && (err.None? ==> State() == r.value)
    {
      if IsUtcLine(data) {
        system := Some(NewSystem(Utc(HexValue(data[4..]))));
      } else if IsCoordLine(data, false) && tmpSystem.None? {
        tmpSystem := Some(data);
      } else if IsCoordLine(data, true) && tmpSector.None? {
        AnchoredIsCoordLine(data, 0);
        var location := NewMailLocation(tmpSystem.value, data);
        err := LocateSystem(location);
        return;
      }
      err := None;
    }

    /** The sector line that completes the system's location. */
    method LocateSystem(location: Result<Location>) returns (err: Option<Error>)
      modifies this
      ensures var r := PairLocation(old(State()), location);
        && (err.None? <==> r.Success?)
        && (err.Some? ==> err.value == r.error)
        && (err.None? ==> State() == r.value)
    {
      if location.Failure? {
        return Some(location.error);
      }
      if system.None? {
        return Some(AttributeError);
      }
      system := Some(system.value.(location := Some(location.value)));
      tmpSystem := None;
      tmpSector := None;
      err := None;
    }

    method HandleWormholeData(data: string) returns (err: Option<Error>)
      modifies this
      ensures var r := WormholeData(old(State()), data);
        && (err.None? <==> r.Success?)
        && (err.Some? ==> err.value == r.error)
        && (err.None? ==> State() == r.value)
    {
      if IsPolarityLine(data) {
        if system.None? {
          return Some(AttributeError);
        }
        if system.value.wormholes == [] {
          return Some(IndexError);
        }
        PolarityWords(data);
        var s := system.value;
        system := Some(SetLastWormhole(s, Last(s.wormholes).(polarity := Some(Words(data)[0]))));
      } else if IsCoordLine(data, true) && tmpSystem.None? {
        tmpSystem := Some(data);
      } else if IsCoordLine(data, true) && tmpSector.None? {
        var location := NewMailLocation(tmpSystem.value, data);
        err := LocateDestination(location);
        return;
      }
      err := None;
    }

    /** The sector line that completes the last wormhole's destination. */
    method LocateDestination(location: Result<Location>) returns (err: Option<Error>)
      modifies this
      ensures var r := PairDestination(old(State()), location);
        && (err.None? <==> r.Success?)
        && (err.Some? ==> err.value == r.error)
        && (err.None? ==> State() == r.value)
    {
      if location.Failure? {
        return Some(location.error);
      }
      if system.None? {
        return Some(AttributeError);
      }
      if system.value.wormholes == [] {
        return Some(IndexError);
      }
      var s := system.value;
      system := Some(SetLastWormhole(s, Last(s.wormholes).(dest := Some(location.value))));
      tmpSystem := None;
      tmpSector := None;
      err := None;
    }

    method HandleBodyData(data: string) returns (err: Option<Error>)
      modifies this
      ensures var r := BodyData(old(State()), data);
        && (err.None? <==> r.Success?)
        && (err.Some? ==> err.value == r.error)
        && (err.None? ==> State() == r.value)
    {
      var section := MailSection(header);
      if section.Failure? {
        return Some(section.error);
      }
      if section.value != Unlisted {
        if system.None? {
          return Some(AttributeError);
        }
        if system.value.bodies == [] {
          return Some(IndexError);
        }
        var s := system.value;
        var b := ApplyLine(Last(s.bodies), section.value, data, MailRadius);
        if b.Failure? {
          return Some(b.error);
        }
        system := Some(SetLastBody(s, b.value));
      }
      err := None;
    }

    /** `feed`: every event handed to its handler, stopping at the first
        error. */
    method Feed(events: seq<Event>) returns (err: Option<Error>)
      modifies this
      ensures var r := Run(old(State()), events);
        && (err.None? <==> r.Success?)
        && (err.Some? ==> err.value == r.error)
        && (err.None? ==> State() == r.value)
    {
      var i := 0;
      while i < |events|
        invariant 0 <= i <= |events|
        invariant Run(State(), events[i..]) == Run(old(State()), events)
        decreases |events| - i
      {
        var e := events[i];
        assert events[i..][0] == e && events[i..][1..] == events[i + 1..];
        match e {
          case Start(tag) =>
            HandleStartTag(tag);
          case End(tag) =>
            HandleEndTag(tag);
          case Data(text) =>
            var failed := HandleData(text);
            if failed.Some? {
              return failed;
            }
        }
        i := i + 1;
      }
      err := None;
    }
  }

  // ---------------------------------------------------------------- the mail file

  /** `process_survey_file` on the bytes of a mail file: the envelope is
      read, a mail whose title does not start with `System Survey` yields
      no system, and a survey yields the one system its body describes (or
      `None` when it has no `UTC:` line). `tokenize` stands for the markup
      tokeniser, including what `close` flushes. */
  function MailSurveys(bs: seq<byte>, decode: Decoder, tokenize: string -> seq<Event>): Result<seq<Option<System>>>
  {
    var mail := ParseMail(bs, decode);
    if mail.Failure? then Failure(mail.error)
    else if !IsSystemSurvey(mail.value.title) then Success([])
    else
      var st := Run(Initial, tokenize(mail.value.body));
      if st.Failure? then Failure(st.error) else Success([st.value.system])
  }

  method ProcessSurveyFile(bs: seq<byte>, decode: Decoder, tokenize: string -> seq<Event>)
    returns (r: Result<seq<Option<System>>>)
    ensures r == MailSurveys(bs, decode, tokenize)
  {
    var mail := ParseMail(bs, decode);
    if mail.Failure? {
      return Failure(mail.error);
    }
    if !IsSystemSurvey(mail.value.title) {
      return Success([]);
    }
    var parser := new SurveyHtmlParser();
    var failed := parser.Feed(tokenize(mail.value.body));
    if failed.Some? {
      return Failure(failed.value);
    }
    r := Success([parser.system]);
  }

  /** A mail yields at most one system, and one exactly when it is a system
      survey that parses. */
  lemma {:induction false} SurveyCount(bs: seq<byte>, decode: Decoder, tokenize: string -> seq<Event>)
    ensures var r := MailSurveys(bs, decode, tokenize);
      r.Success? ==> (|r.value| <= 1
      && (|r.value| == 1 <==> IsSystemSurvey(ParseMail(bs, decode).value.title)))
  {
  }

  /** A framed mail whose title is not a system survey yields no systems. */
  lemma {:induction false} OtherMailIgnored(prefix: seq<byte>, sender: seq<byte>, gap: seq<byte>, title: seq<byte>,
                         body: seq<byte>, trailer: seq<byte>, decode: Decoder, tokenize: string -> seq<Event>,
                         s: string, t: string, b: string)
    requires |prefix| == SenderOffset && |gap| == TitleGap
    requires |sender| < 256 && |title| < 256 && |body| < Power256(BodyLengthBytes)
    requires decode(sender) == Some(s) && decode(title) == Some(t) && decode(body) == Some(b)
    requires !IsSystemSurvey(t)
    ensures MailSurveys(BuildMail(prefix, sender, gap, title, body, trailer), decode, tokenize) == Success([])
  {
    MailRoundTrip(prefix, sender, gap, title, body, trailer, decode, s, t, b);
  }
}
