/** How one content line of a body's section changes that body. Both
    readers apply the same rules; they differ only in how a Geosphere radius
    token is cleaned before it is doubled into a diameter. */
module SectionRules {
  import opened Errors
  import opened PyStr
  import opened Domain

  /** The section a content line belongs to. `Orbiting` covers the
      `Primary` and `Orbiting` headers; `Fluid` covers `Hydrosphere` and
      `Atmosphere`; any other header is `Unlisted` and its lines are ignored. */
  datatype Section = Orbiting | Photosphere | Geosphere | Fluid | Biosphere | Unlisted

  /** The plain-text reader strips `m` from a radius token; the mail reader
      strips `L` and `m` and drops thousands commas. */
  datatype RadiusStyle = PlainRadius | MailRadius

  const ZoneSeparator: string := ", "

  function RadiusValue(token: string, style: RadiusStyle): Option<int>
  {
    match style
    case PlainRadius => ParseInt(StripSet(token, {'m'}))
    case MailRadius => ParseInt(Remove(StripSet(token, {'L', 'm'}), ','))
  }

  /** `str(int(<radius>)*2)+'m'`: the diameter text, which reads back as
      twice the radius. */
  function DiameterOfRadius(token: string, style: RadiusStyle): (r: Result<string>)
    ensures r.Success? <==> RadiusValue(token, style).Some?
    ensures r.Failure? ==> r.error == ValueError
    ensures r.Success? ==> ParseInt(StripSet(r.value, {'m'})) == Some(2 * RadiusValue(token, style).value)
  {
    match RadiusValue(token, style)
    case None => Failure(ValueError)
    case Some(v) =>
      StripTrailingMark(2 * v, 'm');
      IntToStringRoundTrip(2 * v);
      Success(IntToString(2 * v) + "m")
  }

  /** A character that is neither a digit nor `-` trails a number's text
      and is stripped off again. */
  lemma {:induction false} StripTrailingMark(n: int, c: char)
    requires c != '-' && !IsDigit(c)
    ensures StripSet(IntToString(n) + [c], {c}) == IntToString(n)
  {
    var t := IntToString(n);
    IntToStringChars(n);
    assert t + [c] == "" + t + [c];
    StripSetMargins("", t, [c], {c});
  }

  /** The mail reader's radius, written with thousands commas and `Lm`
      units, is the number without its commas. */
  lemma {:induction false} MailRadiusIgnoresCommas(x: string)
    requires x != [] && x[0] !in {'L', 'm'} && x[|x| - 1] !in {'L', 'm'}
    ensures RadiusValue(x + "Lm", MailRadius) == ParseInt(Remove(x, ','))
  {
    var marks: set<char> := {'L', 'm'};
    assert x + "Lm" == "" + x + "Lm";
    assert forall i :: 0 <= i < |"Lm"| ==> "Lm"[i] in marks;
    StripSetMargins("", x, "Lm", marks);
  }

  /** A radius written with one thousands comma reads as its digits joined. */
  lemma {:induction false} MailRadiusWithComma(high: string, low: string)
    requires high != [] && low != [] && AllDigits(high) && AllDigits(low)
    ensures RadiusValue(high + "," + low + "Lm", MailRadius) == Some(DigitsValue(high + low))
  {
    var x := high + "," + low;
    assert x[0] == high[0] && x[|x| - 1] == low[|low| - 1];
    MailRadiusIgnoresCommas(x);
    RemoveCommaBetween(high, low);
    assert AllDigits(high + low);
    ParseIntOfDigits(high + low);
  }

  lemma {:induction false} DigitsHaveNoComma(d: string)
    requires AllDigits(d)
    ensures ',' !in d
  {
    assert forall i :: 0 <= i < |d| ==> d[i] != ',';
  }

  lemma {:induction false} RemoveCommaBetween(high: string, low: string)
    requires AllDigits(high) && AllDigits(low)
    ensures Remove(high + "," + low, ',') == high + low
  {
    var tail := [','] + low;
    assert high + "," + low == high + tail;
    RemoveConcat(high, tail, ',');
    assert tail[0] == ',' && tail[1..] == low;
    assert Remove(tail, ',') == Remove(low, ',');
    DigitsHaveNoComma(high);
    DigitsHaveNoComma(low);
    RemoveAbsent(high, ',');
    RemoveAbsent(low, ',');
  }

  /** The prevalence token a Biosphere fragment is given reads as 100. */
  lemma {:induction false} FullPrevalence()
    ensures ParseInt(StripSet("100%", {'%'})) == Some(100)
  {
    StripPercent(100);
    IntToStringRoundTrip(100);
    assert IntToString(100) + "%" == "100%";
  }

  /** What one fragment of a zoned line contributes. The fragment's last
      word `None` contributes nothing. In the Biosphere the last word is the
      quality and the prevalence is 100; elsewhere the last two words are
      quality and prevalence. */
  function FragmentResource(name: string, fragment: string, bio: bool): (r: Result<Option<Resource>>)
    ensures r.Success? && r.value.None? <==> Words(fragment) != [] && Last(Words(fragment)) == "None"
    ensures Words(fragment) == [] ==> r == Failure(IndexError)
    ensures r.Success? && r.value.Some? && bio ==>
      && r.value.value.prevalence == 100
      && Some(r.value.value.quality) == ParseInt(StripSet(Last(Words(fragment)), {'Q'}))
    ensures r.Success? && r.value.Some? && !bio ==>
      && |Words(fragment)| >= 2
      && Some(r.value.value.quality) == ParseInt(StripSet(Words(fragment)[|Words(fragment)| - 2], {'Q'}))
      && Some(r.value.value.prevalence) == ParseInt(StripSet(Last(Words(fragment)), {'%'}))
    ensures r.Success? && r.value.Some? ==> r.value.value.name == name
  {
    var a := Words(fragment);
    if a == [] then Failure(IndexError)
    else if Last(a) == "None" then Success(None)
    else if bio then
      FullPrevalence();
      var r :- NewResource(name, Last(a), "100%");
      Success(Some(r))
    else if |a| < 2 then Failure(IndexError)
    else
      var r :- NewResource(name, a[|a| - 2], Last(a));
      Success(Some(r))
  }

  /** The `for z in range(num_zones)` loop: fragment `i` goes to zone `z + i`. */
  function AddZoned(zones: seq<Zone>, name: string, fragments: seq<string>, z: nat, bio: bool): (r: Result<seq<Zone>>)
    ensures r.Success? ==> |r.value| >= |zones|
    decreases |fragments|
  {
    if fragments == [] then Success(zones)
    else
      var c :- FragmentResource(name, fragments[0], bio);
      AddZoned(Contribute(zones, z, c), name, fragments[1..], z + 1, bio)
  }

  /** Every fragment of a zoned line reads without an error. */
  predicate FragmentsRead(name: string, fragments: seq<string>, bio: bool)
  {
    forall i :: 0 <= i < |fragments| ==> FragmentResource(name, fragments[i], bio).Success?
  }

  /** `add_zone_resource(z, r)` when the fragment contributes `r`. */
  function Contribute(zones: seq<Zone>, z: nat, c: Option<Resource>): seq<Zone>
  {
    match c
    case None => zones
    case Some(r) => AddZoneResource(zones, z, r)
  }

  function Added(c: Option<Resource>): seq<Resource>
  {
    match c
    case None => []
    case Some(r) => [r]
  }

  /** What each fragment contributes, once every fragment has been read. */
  function Contributions(name: string, fragments: seq<string>, bio: bool): (cs: seq<Option<Resource>>)
    ensures |cs| == |fragments|
    ensures forall i :: 0 <= i < |fragments| && FragmentResource(name, fragments[i], bio).Success? ==>
      cs[i] == FragmentResource(name, fragments[i], bio).value
    decreases |fragments|
  {
    if fragments == [] then []
    else
      var c := match FragmentResource(name, fragments[0], bio) case Success(c) => c case Failure(_) => None;
      var rest := Contributions(name, fragments[1..], bio);
      assert forall i :: 1 <= i < |fragments| ==> fragments[i] == fragments[1..][i - 1];
      [c] + rest
  }

  /** The zone list after contributions `cs` went to zones `z`, `z+1`, ... */
  function AddContributions(zones: seq<Zone>, cs: seq<Option<Resource>>, z: nat): seq<Zone>
    decreases |cs|
  {
    if cs == [] then zones else AddContributions(Contribute(zones, z, cs[0]), cs[1..], z + 1)
  }

  /** The resources zone `j` receives from contributions starting at zone `z`. */
  function AddedAt(cs: seq<Option<Resource>>, z: nat, j: nat): seq<Resource>
  {
    if z <= j < z + |cs| then Added(cs[j - z]) else []
  }

  function OldResources(zones: seq<Zone>, j: nat): seq<Resource>
  {
    if j < |zones| then zones[j].resources else []
  }

  /** One contribution: zone `z` gains it and no other zone changes. */
  lemma {:induction false} ContributeSpec(zones: seq<Zone>, z: nat, c: Option<Resource>)
    ensures forall j: nat :: OldResources(Contribute(zones, z, c), j)
                             == OldResources(zones, j) + (if j == z then Added(c) else [])
  {
  }

  /** One contribution grows the list only when it must reach zone `z`. */
  lemma {:induction false} ContributeLength(zones: seq<Zone>, z: nat, c: Option<Resource>)
    ensures |Contribute(zones, z, c)| >= |zones|
    ensures c.Some? ==> z < |Contribute(zones, z, c)|
    ensures |Contribute(zones, z, c)| == |zones| || (c.Some? && |Contribute(zones, z, c)| == z + 1)
  {
  }

  /** A zoned line fails exactly when one of its fragments does, and when it
      succeeds it is the contributions of its fragments, added in order. */
  lemma {:induction false} AddZonedSucceeds(zones: seq<Zone>, name: string, fragments: seq<string>, z: nat, bio: bool)
    ensures AddZoned(zones, name, fragments, z, bio).Success?
        <==> FragmentsRead(name, fragments, bio)
    ensures AddZoned(zones, name, fragments, z, bio).Success? ==>
      AddZoned(zones, name, fragments, z, bio).value == AddContributions(zones, Contributions(name, fragments, bio), z)
    decreases |fragments|
  {
    if fragments != [] {
      var c := FragmentResource(name, fragments[0], bio);
      if c.Success? {
        AddZonedSucceeds(Contribute(zones, z, c.value), name, fragments[1..], z + 1, bio);
        assert forall i :: 1 <= i < |fragments| ==> fragments[i] == fragments[1..][i - 1];
        assert Contributions(name, fragments, bio)[1..] == Contributions(name, fragments[1..], bio);
      }
    }
  }

  lemma {:induction false} AddedAtShift(cs: seq<Option<Resource>>, z: nat, j: nat)
    requires cs != []
    ensures AddedAt(cs, z, j) == if j == z then Added(cs[0]) else AddedAt(cs[1..], z + 1, j)
  {
    if z < j < z + |cs| {
      assert cs[j - z] == cs[1..][j - (z + 1)];
    }
  }

  /** Every zone holds its old resources plus the contribution of the same
      index. */
  lemma {:induction false} AddContributionsContents(zones: seq<Zone>, cs: seq<Option<Resource>>, z: nat, j: nat)
    ensures OldResources(AddContributions(zones, cs, z), j) == OldResources(zones, j) + AddedAt(cs, z, j)
    decreases |cs|
  {
    if cs != [] {
      var next := Contribute(zones, z, cs[0]);
      AddContributionsContents(next, cs[1..], z + 1, j);
      ContributeSpec(zones, z, cs[0]);
      AddedAtShift(cs, z, j);
      if j == z {
        assert AddedAt(cs[1..], z + 1, j) == [];
      }
    }
  }

  /** The zone list never shrinks. */
  lemma {:induction false} AddContributionsGrows(zones: seq<Zone>, cs: seq<Option<Resource>>, z: nat)
    ensures |AddContributions(zones, cs, z)| >= |zones|
    decreases |cs|
  {
    if cs != [] {
      AddContributionsGrows(Contribute(zones, z, cs[0]), cs[1..], z + 1);
      ContributeLength(zones, z, cs[0]);
    }
  }

  /** The zone list reaches every zone that gets a resource. */
  lemma {:induction false} AddContributionsReaches(zones: seq<Zone>, cs: seq<Option<Resource>>, z: nat, j: nat)
    requires AddedAt(cs, z, j) != []
    ensures j < |AddContributions(zones, cs, z)|
    decreases |cs|
  {
    var next := Contribute(zones, z, cs[0]);
    AddedAtShift(cs, z, j);
    if j == z {
      ContributeLength(zones, z, cs[0]);
      AddContributionsGrows(next, cs[1..], z + 1);
    } else {
      AddContributionsReaches(next, cs[1..], z + 1, j);
    }
  }

  /** The zone list grows no further than the last zone that gets a
      resource. */
  lemma {:induction false} AddContributionsTight(zones: seq<Zone>, cs: seq<Option<Resource>>, z: nat)
    ensures var n := |AddContributions(zones, cs, z)|;
      n == |zones| || (n > 0 && AddedAt(cs, z, n - 1) != [])
    decreases |cs|
  {
    if cs != [] {
      var next := Contribute(zones, z, cs[0]);
      var n := |AddContributions(next, cs[1..], z + 1)|;
      AddContributionsTight(next, cs[1..], z + 1);
      ContributeLength(zones, z, cs[0]);
      if n > 0 {
        AddedAtShift(cs, z, n - 1);
      }
    }
  }

  /** A line whose resource applies to the whole body: a last word `None`
      adds nothing; otherwise the last two words are the quality and the
      prevalence of a resource named by the line, added to every zone. */
  function GlobalLine(b: Body, line: string, words: seq<string>): (r: Result<Body>)
    requires words == Words(line) && words != []
    ensures r.Success? ==> r.value == b || (r.value == b.(zones := r.value.zones) && |r.value.zones| == |b.zones|)
    ensures Last(words) == "None" ==> r == Success(b)
    ensures Last(words) != "None" && |words| < 2 ==> r == Failure(IndexError)
    ensures Last(words) != "None" && |words| >= 2 ==>
      var res := NewResource(ResourceName(line), words[|words| - 2], Last(words));
      && (r.Success? <==> res.Success?)
      && (r.Failure? ==> r.error == ValueError)
      && (r.Success? ==> r.value == b.(zones := AddGlobalResource(b.zones, res.value)))
  {
    var name := ResourceName(line);
    if Last(words) == "None" then Success(b)
    else if |words| < 2 then Failure(IndexError)
    else
      var r :- NewResource(name, words[|words| - 2], Last(words));
      Success(b.(zones := AddGlobalResource(b.zones, r)))
  }

  /** A zoned line: its `, `-separated fragments go to zones 0, 1, 2, ... */
  function ZonedLine(b: Body, line: string, bio: bool): (r: Result<Body>)
    ensures r.Success? ==> r.value == b.(zones := r.value.zones) && |r.value.zones| >= |b.zones|
    ensures Words(line) == [] ==> r == Failure(IndexError)
  {
    BlankLineIsOneFragment(line);
    var zones :- AddZoned(b.zones, ResourceName(line), SplitOn(line, ZoneSeparator), 0, bio);
    Success(b.(zones := zones))
  }

  /** The kind of a body: the first `, `-separated part of its size line. */
  function KindOfLine(line: string): string
  {
    Strip(SplitOn(line, ZoneSeparator)[0])
  }

  /** One content line of a body's section, applied to that body. Missing
      words are IndexErrors and unreadable numbers ValueErrors, as the
      source's list indexing and `int()` calls raise them. */
  function ApplyLine(b: Body, section: Section, line: string, style: RadiusStyle): (r: Result<Body>)
    ensures section == Unlisted ==> r == Success(b)
    ensures section != Unlisted && Words(line) == [] ==> r == Failure(IndexError)
    ensures r.Success? ==> r.value.name == b.name && r.value.orbits == b.orbits
    ensures r.Success? ==> |r.value.zones| >= |b.zones|
    ensures r.Success? && section in {Photosphere, Fluid} ==> |r.value.zones| == |b.zones|
  {
    match section
    case Unlisted => Success(b)
    case Orbiting => OrbitingLine(b, line)
    case Photosphere => PhotosphereLine(b, line)
    case Geosphere => GeosphereLine(b, line, style)
    case Fluid => FluidLine(b, line)
    case Biosphere => ZonedLine(b, line, true)
  }

  lemma {:induction false} BlankLineIsOneFragment(line: string)
    ensures Words(line) == [] ==> SplitOn(line, ZoneSeparator)[0] == line
  {
    if Words(line) == [] {
      NoSeparatorInBlank(line);
      SplitOnHead(line, ZoneSeparator);
    }
  }

  /** A line without words holds no `, ` (it would be a word). */
  lemma {:induction false} NoSeparatorInBlank(line: string)
    requires Words(line) == []
    ensures Find(line, ZoneSeparator) == -1
  {
    WordsEmptyIffBlank(line);
    forall k | 0 <= k && k + 2 <= |line|
      ensures !OccursAt(line, ZoneSeparator, k)
    {
      assert line[k..k + 2][0] == line[k] && IsSpace(line[k]) && !IsSpace(ZoneSeparator[0]);
    }
  }

  function OrbitingLine(b: Body, line: string): (r: Result<Body>)
    ensures Words(line) == [] ==> r == Failure(IndexError)
    ensures r.Success? ==> r.value.name == b.name && r.value.orbits == b.orbits && r.value.diameter == b.diameter
    ensures r.Success? ==> |r.value.zones| >= |b.zones|
  {
    var words := Words(line);
    if words == [] then Failure(IndexError)
    else if words[0] == "Type" then
      Success(b.(kind := Some("star"), zones := SetZones(b.zones, 1), starType := Some(Join(" ", words[1..]))))
    else if words[0] == "Spectral" then
      if |words| < 3 then Failure(IndexError) else Success(b.(spectralClass := Some(words[2])))
    else if words[0] == "Size" then Success(b.(starSize := Some(Join(" ", words[1..]))))
    else if b.kind != Some("star") then Success(b.(orbitZone := Some(Strip(line))))
    else Success(b)
  }

  function PhotosphereLine(b: Body, line: string): (r: Result<Body>)
    ensures Words(line) == [] ==> r == Failure(IndexError)
    ensures r.Success? ==> r.value == b.(diameter := r.value.diameter, zones := r.value.zones)
    ensures r.Success? ==> |r.value.zones| == |b.zones|
  {
    var words := Words(line);
    if words == [] then Failure(IndexError)
    else if Last(words) == "Diameter" then
      if |words| < 2 then Failure(IndexError) else Success(b.(diameter := Some(words[|words| - 2])))
    else if words[0] == "Type" then
      if |words| < 5 then Failure(IndexError)
      else
        var r :- NewResource(Join(" ", words[..3]), words[3], words[4]);
        Success(b.(zones := AddGlobalResource(b.zones, r)))
    else GlobalLine(b, line, words)
  }

  /** A Geosphere line gives the diameter (directly, or as twice a radius)
      together with the body's kind, or else a zoned resource. */
  function GeosphereLine(b: Body, line: string, style: RadiusStyle): (r: Result<Body>)
    ensures Words(line) == [] ==> r == Failure(IndexError)
    ensures r.Success? ==> r.value.name == b.name && r.value.orbits == b.orbits
    ensures r.Success? ==> |r.value.zones| >= |b.zones|
    ensures |Words(line)| == 1 && Words(line)[0] in {"Diameter", "Radius"} ==> r == Failure(IndexError)
    ensures |Words(line)| >= 2 && Last(Words(line)) == "Diameter" ==>
      r == Success(b.(diameter := Some(Words(line)[|Words(line)| - 2]), kind := Some(KindOfLine(line))))
    ensures |Words(line)| >= 2 && Last(Words(line)) == "Radius" ==>
      var d := DiameterOfRadius(Words(line)[|Words(line)| - 2], style);
      && (r.Success? <==> d.Success?)
      && (r.Failure? ==> r.error == ValueError)
      && (r.Success? ==> r.value == b.(diameter := Some(d.value), kind := Some(KindOfLine(line))))
  {
    var words := Words(line);
    if words == [] then Failure(IndexError)
    else if Last(words) == "Diameter" then
      if |words| < 2 then Failure(IndexError)
      else Success(b.(diameter := Some(words[|words| - 2]), kind := Some(KindOfLine(line))))
    else if Last(words) == "Radius" then
      if |words| < 2 then Failure(IndexError)
      else
        var d :- DiameterOfRadius(words[|words| - 2], style);
        Success(b.(diameter := Some(d), kind := Some(KindOfLine(line))))
    else ZonedLine(b, line, false)
  }

  function FluidLine(b: Body, line: string): (r: Result<Body>)
    ensures Words(line) == [] ==> r == Failure(IndexError)
    ensures r.Success? ==> r.value == b.(zones := r.value.zones) && |r.value.zones| == |b.zones|
  {
    var words := Words(line);
    if words == [] then Failure(IndexError)
    else if words[0] == "No" || Last(words[0]) == '%' || Last(words) == "Density" then Success(b)
    else GlobalLine(b, line, words)
  }

  /** A `Type` line under `Primary`/`Orbiting`, indented or not, marks the
      body as a star named by the remaining words and gives it exactly one
      more, empty, zone. */
  lemma {:induction false} TypeLineAddsOneZone(b: Body, line: string, ws: seq<string>, style: RadiusStyle)
    requires Words(line) == ["Type"] + ws
    ensures ApplyLine(b, Orbiting, line, style).Success?
    ensures var nb := ApplyLine(b, Orbiting, line, style).value;
      && nb.kind == Some("star")
      && nb.starType == Some(Join(" ", ws))
      && |nb.zones| == |b.zones| + 1 && nb.zones[..|b.zones|] == b.zones && Last(nb.zones).resources == []
  {
    assert Words(line)[1..] == ws;
  }

  /** The mail reader's radius line, with a thousands comma and `Lm` units,
      sets the diameter to twice the radius and the kind to the line's first
      part. */
  lemma {:induction false} MailRadiusLine(b: Body, line: string, front: seq<string>, high: string, low: string)
    requires high != [] && low != [] && AllDigits(high) && AllDigits(low)
    requires Words(line) == front + [high + "," + low + "Lm", "Radius"]
    ensures GeosphereLine(b, line, MailRadius)
         == Success(b.(diameter := Some(IntToString(2 * DigitsValue(high + low)) + "m"), kind := Some(KindOfLine(line))))
  {
    var words := Words(line);
    assert words[|words| - 2] == high + "," + low + "Lm" && Last(words) == "Radius";
    MailRadiusWithComma(high, low);
  }

  /** A resource line whose last two words are `Q<q>` and `<p>%` adds that
      resource, named by the line, to every zone. */
  lemma {:induction false} GlobalLineOfTokens(b: Body, line: string, front: seq<string>, q: int, p: int)
    requires Words(line) == front + ["Q" + IntToString(q), IntToString(p) + "%"]
    ensures GlobalLine(b, line, Words(line))
         == Success(b.(zones := AddGlobalResource(b.zones, Resource(ResourceName(line), q, p, q / 8 + 1))))
  {
    var words := Words(line);
    assert Last(words) == IntToString(p) + "%" && words[|words| - 2] == "Q" + IntToString(q);
    assert Last(Last(words)) == '%' != Last("None");
    NewResourceOfTokens(ResourceName(line), q, p);
  }

  /** A Photosphere line that gives neither the diameter nor a `Type`
      resource is a global resource line. */
  lemma {:induction false} PhotosphereResourceLine(b: Body, line: string, style: RadiusStyle)
    requires Words(line) != [] && Last(Words(line)) != "Diameter" && Words(line)[0] != "Type"
    ensures ApplyLine(b, Photosphere, line, style) == GlobalLine(b, line, Words(line))
  {
  }

  /** A Photosphere line ending in `Diameter` sets the diameter to the word
      before it, and changes nothing else. */
  lemma {:induction false} PhotosphereDiameterLine(b: Body, line: string, style: RadiusStyle)
    requires |Words(line)| >= 2 && Last(Words(line)) == "Diameter"
    ensures ApplyLine(b, Photosphere, line, style) == Success(b.(diameter := Some(Words(line)[|Words(line)| - 2])))
  {
  }

  /** A Photosphere `Type` line names a global resource by its first three
      words; its fourth and fifth words are the quality and the prevalence. */
  lemma {:induction false} PhotosphereTypeLine(b: Body, line: string, x: string, y: string, q: int, p: int, rest: seq<string>)
    requires Words(line) == ["Type", x, y, "Q" + IntToString(q), IntToString(p) + "%"] + rest
    requires rest == [] || Last(rest) != "Diameter"
    ensures ApplyLine(b, Photosphere, line, PlainRadius)
         == Success(b.(zones := AddGlobalResource(b.zones, Resource("Type " + x + " " + y, q, p, q / 8 + 1))))
  {
    var words := Words(line);
    assert Last(words) != "Diameter" by {
      if rest == [] {
        assert Last(Last(words)) == '%';
      }
    }
    assert words[..3] == ["Type", x, y];
    assert Join(" ", ["Type", x, y]) == "Type " + x + " " + y by {
      assert ["Type", x, y][1..] == [x, y];
      assert [x, y][1..] == [y];
      assert Join(" ", [x, y]) == x + " " + y;
      assert Join(" ", ["Type", x, y]) == "Type" + " " + (x + " " + y);
    }
    assert words[3] == "Q" + IntToString(q) && words[4] == IntToString(p) + "%";
    NewResourceOfTokens("Type " + x + " " + y, q, p);
  }

  /** A Hydrosphere or Atmosphere line is skipped when it starts with `No`,
      when its first word ends in `%`, or when it ends with `Density`; any
      other line is a global resource line. */
  lemma {:induction false} FluidLineRule(b: Body, line: string, style: RadiusStyle)
    requires Words(line) != []
    ensures var ws := Words(line);
      ApplyLine(b, Fluid, line, style)
        == if ws[0] == "No" || Last(ws[0]) == '%' || Last(ws) == "Density" then Success(b)
           else GlobalLine(b, line, ws)
  {
  }

  /** A Geosphere radius line, as the plain-text reader sees it, sets the
      diameter to twice the radius and the kind to the line's first part. */
  lemma {:induction false} PlainRadiusLine(b: Body, line: string, front: seq<string>, radius: nat)
    requires Words(line) == front + [IntToString(radius) + "m", "Radius"]
    ensures GeosphereLine(b, line, PlainRadius)
         == Success(b.(diameter := Some(IntToString(2 * radius) + "m"), kind := Some(KindOfLine(line))))
  {
    var words := Words(line);
    var token := IntToString(radius) + "m";
    assert words[|words| - 2] == token && Last(words) == "Radius";
    StripTrailingMark(radius, 'm');
    IntToStringRoundTrip(radius);
    assert RadiusValue(token, PlainRadius) == Some(radius);
    assert DiameterOfRadius(token, PlainRadius) == Success(IntToString(2 * radius) + "m");
  }

  /** A zoned line puts what fragment `i` contributes into zone `i` and
      changes nothing else; it fails exactly when a fragment does. This is
      the whole of a Biosphere line (`bio`), and of a Geosphere resource
      line (`!bio`). */
  lemma {:induction false} ZonedLineContents(b: Body, line: string, bio: bool)
    ensures ZonedLine(b, line, bio).Success? <==> FragmentsRead(ResourceName(line), SplitOn(line, ZoneSeparator), bio)
    ensures ZonedLine(b, line, bio).Success? ==>
      ZonedLine(b, line, bio).value
        == b.(zones := AddContributions(b.zones, Contributions(ResourceName(line), SplitOn(line, ZoneSeparator), bio), 0))
  {
    AddZonedSucceeds(b.zones, ResourceName(line), SplitOn(line, ZoneSeparator), 0, bio);
  }

  /** A Biosphere line is a zoned line with one-word fragments. */
  lemma {:induction false} BiosphereLine(b: Body, line: string, style: RadiusStyle)
    ensures ApplyLine(b, Biosphere, line, style) == ZonedLine(b, line, true)
  {
  }

  /** A Geosphere line that gives neither diameter nor radius is a zoned
      line with two-word fragments. */
  lemma {:induction false} GeosphereResourceLine(b: Body, line: string, style: RadiusStyle)
    requires Words(line) != [] && Last(Words(line)) != "Diameter" && Last(Words(line)) != "Radius"
    ensures ApplyLine(b, Geosphere, line, style) == ZonedLine(b, line, false)
  {
  }
}
