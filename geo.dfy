/** Coordinates and locations of star systems (`Coords`, `UniversalCoords`
    and `Location` in both survey readers). A location line reads
    `<name> (<x>, <y>, <z>)`; a system is placed by its local coordinates
    plus ten parsecs per sector-grid unit. */
module Geo {
  import opened Errors
  import opened PyStr

  datatype Coords = Coords(x: real, y: real, z: real)

  datatype Location = Location(
    systemName: string,
    sectorName: string,
    systemCoords: Coords,
    sectorCoords: Coords,
    universal: Coords)

  /** Local parsecs per sector-grid unit. */
  const ParsecsPerSector: real := 10.0

  /** `Coords.get_coord_part_of_string`: the text after the last `(` up to
      the last `)`, or to the end when there is no `)`. */
  function CoordPart(s: string): (r: string)
    ensures '(' !in r
    ensures RFind(s, '(') + 1 <= RFind(s, ')') ==> r == s[RFind(s, '(') + 1..RFind(s, ')')]
    ensures RFind(s, ')') < 0 ==> r == s[RFind(s, '(') + 1..]
  {
    var lparen := RFind(s, '(');
    var rparen := RFind(s, ')');
    PySlice(s, lparen + 1, if rparen < 0 then |s| else rparen)
  }

  /** `Coords(s)`: the three `', '`-separated parts of the coordinate text,
      each read by `float()`; a part that is missing is an IndexError and a
      part that is not a number a ValueError, checked in the source's order. */
  function ParseCoords(s: string): (r: Result<Coords>)
    ensures r.Success? ==> |SplitOn(CoordPart(s), ", ")| >= 3
    ensures r.Success? ==> var c := SplitOn(CoordPart(s), ", ");
      ParseDecimal(c[0]) == Some(r.value.x) && ParseDecimal(c[1]) == Some(r.value.y) &&
      ParseDecimal(c[2]) == Some(r.value.z)
  {
    var c := SplitOn(CoordPart(s), ", ");
    match ParseDecimal(c[0])
    case None => Failure(ValueError)
    case Some(x) =>
      if |c| < 2 then Failure(IndexError)
      else match ParseDecimal(c[1])
      case None => Failure(ValueError)
      case Some(y) =>
        if |c| < 3 then Failure(IndexError)
        else match ParseDecimal(c[2])
        case None => Failure(ValueError)
        case Some(z) => Success(Coords(x, y, z))
  }

  /** `UniversalCoords(system, sector)` */
  function Universal(system: Coords, sector: Coords): Coords
  {
    Coords(system.x + sector.x * ParsecsPerSector,
           system.y + sector.y * ParsecsPerSector,
           system.z + sector.z * ParsecsPerSector)
  }

  /** Within one sector, the universal position determines the local one, and
      moving one grid unit is the same as moving ten parsecs. */
  lemma {:induction false} UniversalPlacement(a: Coords, b: Coords, sector: Coords)
    ensures Universal(a, sector) == Universal(b, sector) ==> a == b
    ensures Universal(Coords(a.x + ParsecsPerSector, a.y, a.z), sector)
         == Universal(a, Coords(sector.x + 1.0, sector.y, sector.z))
  {
  }

  /** The name part of a location line: the text before the last `(`, stripped
      (everything but the last character when there is no `(`). */
  function NameBeforeParen(s: string): string
  {
    Strip(PySlice(s, 0, RFind(s, '(')))
  }

  /** `Location.__init__` of the plain-text reader. */
  function NewLocation(sysLine: string, secLine: string): (r: Result<Location>)
    ensures r.Success? ==> r.value.universal == Universal(r.value.systemCoords, r.value.sectorCoords)
    ensures r.Success? <==> ParseCoords(sysLine).Success? && ParseCoords(secLine).Success?
  {
    var system :- ParseCoords(sysLine);
    var sector :- ParseCoords(secLine);
    Success(Location(NameBeforeParen(sysLine), NameBeforeParen(secLine), system, sector,
                     Universal(system, sector)))
  }

  /** A location line as the game writes it: a name, then three coordinates
      in parentheses, then trailing text such as the line break. */
  function CoordLine(name: string, a: string, b: string, c: string, tail: string): string
  {
    name + "(" + a + ", " + b + ", " + c + ")" + tail
  }

  predicate PlainCoordText(a: string) {
    ',' !in a && '(' !in a && ')' !in a
  }

  /** Where the parentheses of a location line are, when its name holds no
      `(` and the rest of it no further parenthesis. */
  lemma {:induction false} ParenthesisedParts(name: string, inner: string, tail: string)
    requires '(' !in inner && ')' !in inner && '(' !in tail && ')' !in tail
    ensures var s := name + "(" + inner + ")" + tail;
      && RFind(s, '(') == |name| && RFind(s, ')') == |name| + 1 + |inner|
      && s[|name| + 1..|name| + 1 + |inner|] == inner && s[..|name|] == name
  {
    var s := name + "(" + inner + ")" + tail;
    assert RFind(s, '(') == |name| by {
      assert s == name + ['('] + (inner + ")" + tail);
      assert '(' !in inner + ")" + tail;
      RFindAt(name, '(', inner + ")" + tail);
    }
    assert RFind(s, ')') == |name| + 1 + |inner| by {
      assert s == name + "(" + inner + [')'] + tail;
      RFindAt(name + "(" + inner, ')', tail);
    }
    assert s[|name| + 1..|name| + 1 + |inner|] == inner;
    assert s[..|name|] == name;
  }

  lemma {:induction false} CoordLineParts(name: string, a: string, b: string, c: string, tail: string)
    requires PlainCoordText(a) && PlainCoordText(b) && PlainCoordText(c)
    requires '(' !in tail && ')' !in tail
    ensures RFind(CoordLine(name, a, b, c, tail), '(') == |name|
    ensures CoordPart(CoordLine(name, a, b, c, tail)) == a + ", " + b + ", " + c
    ensures PySlice(CoordLine(name, a, b, c, tail), 0, |name|) == name
  {
    var inner := a + ", " + b + ", " + c;
    assert '(' !in inner && ')' !in inner;
    assert CoordLine(name, a, b, c, tail) == name + "(" + inner + ")" + tail;
    ParenthesisedParts(name, inner, tail);
  }

  lemma {:induction false} SplitThreeParts(a: string, b: string, c: string)
    requires PlainCoordText(a) && PlainCoordText(b) && PlainCoordText(c)
    ensures SplitOn(a + ", " + b + ", " + c, ", ") == [a, b, c]
  {
    NoCommaNoSeparator(a);
    NoCommaNoSeparator(b);
    NoCommaNoSeparator(c);
    SplitThreeFree(a, b, c);
  }

  lemma {:induction false} SplitThreeFree(a: string, b: string, c: string)
    requires Find(a, ", ") == -1 && Find(b, ", ") == -1 && Find(c, ", ") == -1
    ensures SplitOn(a + ", " + b + ", " + c, ", ") == [a, b, c]
  {
    SplitOnLast(c);
    SplitOnFirst(b, c);
    var bc := b + ", " + c;
    assert SplitOn(bc, ", ") == [b, c];
    SplitOnFirst(a, bc);
    assert a + ", " + b + ", " + c == a + ", " + bc;
    assert [a] + [b, c] == [a, b, c];
  }

  lemma {:induction false} SplitOnLast(c: string)
    requires Find(c, ", ") == -1
    ensures SplitOn(c, ", ") == [c]
  {
  }

  lemma {:induction false} SplitOnFirst(a: string, rest: string)
    requires Find(a, ", ") == -1
    ensures SplitOn(a + ", " + rest, ", ") == [a] + SplitOn(rest, ", ")
  {
    var s := a + ", " + rest;
    FindAfter(a, ", ", rest);
    SplitOnUnfold(s, ", ", |a|);
    assert s[|a| + 2..] == rest;
    assert s[..|a|] == a;
  }

  lemma {:induction false} NoCommaNoSeparator(a: string)
    requires ',' !in a
    ensures Find(a, ", ") == -1
  {
    forall k | 0 <= k && k + 2 <= |a|
      ensures !OccursAt(a, ", ", k)
    {
      assert a[k..k + 2][0] == a[k] != ',';
    }
  }

  /** A location parsed from two well-formed lines: each name is the text
      before the parenthesis, stripped, and the coordinates are the three
      numbers inside it, combined into universal coordinates. */
  lemma {:induction false} NewLocationOfLines(
    sysName: string, sa: string, sb: string, sc: string, sysTail: string,
    secName: string, ga: string, gb: string, gc: string, secTail: string,
    system: Coords, sector: Coords)
    requires PlainCoordText(sa) && PlainCoordText(sb) && PlainCoordText(sc)
    requires PlainCoordText(ga) && PlainCoordText(gb) && PlainCoordText(gc)
    requires '(' !in sysTail && ')' !in sysTail && '(' !in secTail && ')' !in secTail
    requires ParseDecimal(sa) == Some(system.x) && ParseDecimal(sb) == Some(system.y) && ParseDecimal(sc) == Some(system.z)
    requires ParseDecimal(ga) == Some(sector.x) && ParseDecimal(gb) == Some(sector.y) && ParseDecimal(gc) == Some(sector.z)
    ensures NewLocation(CoordLine(sysName, sa, sb, sc, sysTail), CoordLine(secName, ga, gb, gc, secTail))
         == Success(Location(Strip(sysName), Strip(secName), system, sector, Universal(system, sector)))
  {
    CoordLineParts(sysName, sa, sb, sc, sysTail);
    CoordLineParts(secName, ga, gb, gc, secTail);
    SplitThreeParts(sa, sb, sc);
    SplitThreeParts(ga, gb, gc);
  }

  // ---------------------------------------------------------------- mail variant

  /** The mail reader's system-name rule: a final word `System` is cut off,
      along with everything from the last capital `S`. A name without words
      is an IndexError. */
  function MailSystemName(name: string): (r: Result<string>)
    ensures r.Failure? <==> Words(name) == []
  {
    var words := Words(name);
    if words == [] then Failure(IndexError)
    else if Last(words) == "System" then Success(Strip(PySlice(name, 0, RFind(name, 'S'))))
    else Success(name)
  }

  /** The mail reader's sector-name rule: the stripped text before the last
      capital `S`, or the whole stripped line when that is empty. */
  function MailSectorName(secLine: string): (r: string)
    ensures RFind(secLine, 'S') >= 0 && Strip(secLine[..RFind(secLine, 'S')]) != [] ==>
      r == Strip(secLine[..RFind(secLine, 'S')])
  {
    var name := Strip(PySlice(secLine, 0, RFind(secLine, 'S')));
    if |name| == 0 then Strip(secLine) else name
  }

  /** `Location.__init__` of the mail reader. */
  function NewMailLocation(sysLine: string, secLine: string): (r: Result<Location>)
    ensures r.Success? ==> r.value.universal == Universal(r.value.systemCoords, r.value.sectorCoords)
    ensures r.Success? ==> r.value.sectorName == MailSectorName(secLine)
    ensures r.Success? <==> ParseCoords(sysLine).Success? && ParseCoords(secLine).Success?
                            && Words(NameBeforeParen(sysLine)) != []
    ensures r.Success? ==>
      && r.value.systemName == MailSystemName(NameBeforeParen(sysLine)).value
      && r.value.systemCoords == ParseCoords(sysLine).value
      && r.value.sectorCoords == ParseCoords(secLine).value
  {
    var system :- ParseCoords(sysLine);
    var sector :- ParseCoords(secLine);
    var systemName :- MailSystemName(NameBeforeParen(sysLine));
    Success(Location(systemName, MailSectorName(secLine), system, sector, Universal(system, sector)))
  }

  /** A trailing word `System` is dropped from a stripped system name. */
  lemma {:induction false} SystemSuffixWords(base: string)
    ensures Words(base + " System") != [] && Last(Words(base + " System")) == "System"
  {
    assert IsToken("System");
    WordsAppendToken(base, "System");
    assert base + " System" == base + " " + "System";
  }

  lemma {:induction false} SystemSuffixCapital(base: string)
    ensures RFind(base + " System", 'S') == |base| + 1
  {
    assert base + " System" == base + " " + ['S'] + "ystem";
    assert 'S' !in "ystem";
    RFindAt(base + " ", 'S', "ystem");
  }

  lemma {:induction false} SystemSuffixStripped(base: string)
    requires base != [] && Strip(base) == base
    ensures Strip(PySlice(base + " System", 0, |base| + 1)) == base
  {
    assert (base + " System")[..|base| + 1] == base + " ";
    assert !IsSpace(base[|base| - 1]) by {
      assert base == StripSet(base, Spaces);
    }
    StripSetMargins("", base, " ", Spaces);
    assert "" + base + " " == base + " ";
  }

  lemma {:induction false} MailSystemNameDropsSystem(base: string)
    requires base != [] && Strip(base) == base
    ensures MailSystemName(base + " System") == Success(base)
  {
    SystemSuffixWords(base);
    SystemSuffixCapital(base);
    SystemSuffixStripped(base);
  }

  /** A mail location parsed from two well-formed lines whose system name
      ends in the word `System`: that word is dropped, and the coordinates
      are the three numbers inside each pair of parentheses. */
  lemma {:induction false} NewMailLocationOfLines(
    base: string, sysName: string, sa: string, sb: string, sc: string, sysTail: string,
    secName: string, ga: string, gb: string, gc: string, secTail: string,
    system: Coords, sector: Coords)
    requires base != [] && Strip(base) == base && Strip(sysName) == base + " System"
    requires PlainCoordText(sa) && PlainCoordText(sb) && PlainCoordText(sc)
    requires PlainCoordText(ga) && PlainCoordText(gb) && PlainCoordText(gc)
    requires '(' !in sysTail && ')' !in sysTail && '(' !in secTail && ')' !in secTail
    requires ParseDecimal(sa) == Some(system.x) && ParseDecimal(sb) == Some(system.y) && ParseDecimal(sc) == Some(system.z)
    requires ParseDecimal(ga) == Some(sector.x) && ParseDecimal(gb) == Some(sector.y) && ParseDecimal(gc) == Some(sector.z)
    ensures var secLine := CoordLine(secName, ga, gb, gc, secTail);
      NewMailLocation(CoordLine(sysName, sa, sb, sc, sysTail), secLine)
        == Success(Location(base, MailSectorName(secLine), system, sector, Universal(system, sector)))
  {
    CoordLineParts(sysName, sa, sb, sc, sysTail);
    CoordLineParts(secName, ga, gb, gc, secTail);
    SplitThreeParts(sa, sb, sc);
    SplitThreeParts(ga, gb, gc);
    MailSystemNameDropsSystem(base);
  }

  /** A sector line with no capital `S` loses its last character, because
      `rfind` then returns -1 and the slice ends one short of the end. */
  lemma {:induction false} MailSectorNameWithoutS(secLine: string)
    requires 'S' !in secLine && secLine != []
    requires Strip(secLine[..|secLine| - 1]) != []
    ensures MailSectorName(secLine) == Strip(secLine[..|secLine| - 1])
  {
    assert RFind(secLine, 'S') == -1;
  }
}
