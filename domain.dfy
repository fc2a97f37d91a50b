/** The survey tree shared by both readers: a System holds Bodies, a Body
    holds Zones, a Zone holds Resources. Bodies are read line by line, so
    their zone lists grow as resource lines arrive. */
module Domain {
  import opened Errors
  import opened PyStr
  import opened Geo

  // ---------------------------------------------------------------- resources

  datatype Resource = Resource(name: string, quality: int, prevalence: int, tl: int)

  /** Qualities per tech level. */
  const QualityPerLevel: int := 8

  /** `quality/8+1` with Python 2's floor division. */
  function TechLevel(quality: int): (tl: int)
    ensures (tl - 1) * QualityPerLevel <= quality < tl * QualityPerLevel
  {
    quality / QualityPerLevel + 1
  }

  /** `Resource(name, quality, prevalence)`: the quality token loses its
      `Q`s and the prevalence token its `%`s at either end, and both are read
      by `int()`; a token that is not a number is a ValueError. */
  function NewResource(name: string, qualityToken: string, prevalenceToken: string): (r: Result<Resource>)
    ensures r.Success? <==> ParseInt(StripSet(qualityToken, {'Q'})).Some?
                            && ParseInt(StripSet(prevalenceToken, {'%'})).Some?
    ensures r.Success? ==>
      && r.value.name == name
      && Some(r.value.quality) == ParseInt(StripSet(qualityToken, {'Q'}))
      && Some(r.value.prevalence) == ParseInt(StripSet(prevalenceToken, {'%'}))
    ensures r.Success? ==> (r.value.tl - 1) * QualityPerLevel <= r.value.quality < r.value.tl * QualityPerLevel
    ensures r.Failure? ==> r.error == ValueError
  {
    match ParseInt(StripSet(qualityToken, {'Q'}))
    case None => Failure(ValueError)
    case Some(q) =>
      match ParseInt(StripSet(prevalenceToken, {'%'}))
      case None => Failure(ValueError)
      case Some(p) => Success(Resource(name, q, p, TechLevel(q)))
  }

  lemma {:induction false} IntToStringChars(n: int)
    ensures IntToString(n) != []
    ensures forall i :: 0 <= i < |IntToString(n)| ==> IntToString(n)[i] == '-' || IsDigit(IntToString(n)[i])
    ensures IsDigit(IntToString(n)[|IntToString(n)| - 1])
  {
  }

  /** The tokens the game writes, `Q<quality>` and `<prevalence>%`, are read
      back as the numbers they were written from. */
  lemma {:induction false} NewResourceOfTokens(name: string, quality: int, prevalence: int)
    ensures NewResource(name, "Q" + IntToString(quality), IntToString(prevalence) + "%")
         == Success(Resource(name, quality, prevalence, quality / 8 + 1))
  {
    var qt := "Q" + IntToString(quality);
    var pt := IntToString(prevalence) + "%";
    StripQualityMark(quality);
    StripPercent(prevalence);
    IntToStringRoundTrip(quality);
    IntToStringRoundTrip(prevalence);
    NewResourceOfParsed(name, qt, pt, quality, prevalence);
  }

  lemma {:induction false} NewResourceOfParsed(name: string, qt: string, pt: string, q: int, p: int)
    requires ParseInt(StripSet(qt, {'Q'})) == Some(q) && ParseInt(StripSet(pt, {'%'})) == Some(p)
    ensures NewResource(name, qt, pt) == Success(Resource(name, q, p, q / 8 + 1))
  {
  }

  lemma {:induction false} StripQualityMark(n: int)
    ensures StripSet("Q" + IntToString(n), {'Q'}) == IntToString(n)
  {
    var q := IntToString(n);
    IntToStringChars(n);
    assert "Q" + q == "Q" + q + "";
    StripSetMargins("Q", q, "", {'Q'});
  }

  lemma {:induction false} StripPercent(n: int)
    ensures StripSet(IntToString(n) + "%", {'%'}) == IntToString(n)
  {
    var p := IntToString(n);
    IntToStringChars(n);
    assert p + "%" == "" + p + "%";
    StripSetMargins("", p, "%", {'%'});
  }

  /** Quality 228 is tech level 29. */
  lemma {:induction false} AntifluxTechLevel()
    ensures NewResource("Antiflux Particles", "Q228", "20%")
         == Success(Resource("Antiflux Particles", 228, 20, 29))
  {
    assert IntToString(228) == "228";
    assert IntToString(20) == "20";
    assert "Q228" == "Q" + IntToString(228);
    assert "20%" == IntToString(20) + "%";
    NewResourceOfTokens("Antiflux Particles", 228, 20);
  }

  // ---------------------------------------------------------------- zones

  datatype Zone = Zone(resources: seq<Resource>)

  /** `Zone.add_resource` */
  function AddResource(zone: Zone, r: Resource): (z: Zone)
    ensures |z.resources| == |zone.resources| + 1 && Last(z.resources) == r
    ensures z.resources[..|zone.resources|] == zone.resources
  {
    Zone(zone.resources + [r])
  }

  function EmptyZones(n: nat): (zs: seq<Zone>)
    ensures |zs| == n && forall i :: 0 <= i < n ==> zs[i] == Zone([])
  {
    seq(n, _ => Zone([]))
  }

  /** `Body.set_zones(n)`: n new empty zones after the existing ones. */
  function SetZones(zones: seq<Zone>, n: nat): (r: seq<Zone>)
    ensures |r| == |zones| + n && r[..|zones|] == zones
    ensures forall i :: |zones| <= i < |r| ==> r[i].resources == []
  {
    zones + EmptyZones(n)
  }

  /** `Body.add_global_resource(r)`: `r` is appended to every zone that
      exists, and no zone is created. */
  function AddGlobalResource(zones: seq<Zone>, r: Resource): (res: seq<Zone>)
    ensures |res| == |zones|
    ensures forall i :: 0 <= i < |zones| ==> res[i].resources == zones[i].resources + [r]
  {
    if zones == [] then [] else [AddResource(zones[0], r)] + AddGlobalResource(zones[1..], r)
  }

  /** The `while len(self.zones) <= z` loop of `add_zone_resource`: empty zones
      are appended until index `z` exists. */
  function GrowZones(zones: seq<Zone>, z: nat): (res: seq<Zone>)
    ensures |res| == if |zones| > z then |zones| else z + 1
    ensures res[..|zones|] == zones
    ensures forall i :: |zones| <= i < |res| ==> res[i] == Zone([])
    decreases z + 1 - |zones|
  {
    if |zones| > z then zones else GrowZones(zones + [Zone([])], z)
  }

  /** `Body.add_zone_resource(z, r)` */
  function AddZoneResource(zones: seq<Zone>, z: nat, r: Resource): (res: seq<Zone>)
    ensures |res| == if |zones| > z then |zones| else z + 1
    ensures res[z].resources == (if z < |zones| then zones[z].resources else []) + [r]
    ensures forall i :: 0 <= i < |zones| && i != z ==> res[i] == zones[i]
    ensures forall i :: |zones| <= i < |res| && i != z ==> res[i].resources == []
  {
    var grown := GrowZones(zones, z);
    assert forall i :: 0 <= i < |zones| ==> grown[i] == grown[..|zones|][i];
    grown[z := AddResource(grown[z], r)]
  }

  lemma {:induction false} AddGlobalResourceSnoc(zones: seq<Zone>, zone: Zone, r: Resource)
    ensures AddGlobalResource(zones + [zone], r) == AddGlobalResource(zones, r) + [AddResource(zone, r)]
  {
    var lhs := AddGlobalResource(zones + [zone], r);
    var rhs := AddGlobalResource(zones, r) + [AddResource(zone, r)];
    assert |lhs| == |rhs|;
    forall i | 0 <= i < |lhs|
      ensures lhs[i] == rhs[i]
    {
      if i < |zones| {
        assert (zones + [zone])[i] == zones[i];
      }
    }
  }

  /** Resources that apply to the whole body reach every zone that exists at
      that moment, so a body's zone count is fixed by its star and zoned lines
      alone. */
  lemma {:induction false} GlobalResourcesKeepCount(zones: seq<Zone>, rs: seq<Resource>)
    ensures |AddAllGlobal(zones, rs)| == |zones|
    ensures forall i :: 0 <= i < |zones| ==> AddAllGlobal(zones, rs)[i].resources == zones[i].resources + rs
    decreases |rs|
  {
    if rs != [] {
      var once := AddGlobalResource(zones, rs[0]);
      GlobalResourcesKeepCount(once, rs[1..]);
      forall i | 0 <= i < |zones|
        ensures AddAllGlobal(zones, rs)[i].resources == zones[i].resources + rs
      {
        assert zones[i].resources + rs == zones[i].resources + [rs[0]] + rs[1..];
      }
    }
  }

  function AddAllGlobal(zones: seq<Zone>, rs: seq<Resource>): seq<Zone>
    decreases |rs|
  {
    if rs == [] then zones else AddAllGlobal(AddGlobalResource(zones, rs[0]), rs[1..])
  }

  // ---------------------------------------------------------------- bodies and systems

  datatype Body = Body(
    name: string,
    kind: Option<string>,
    starType: Option<string>,
    spectralClass: Option<string>,
    starSize: Option<string>,
    diameter: Option<string>,
    orbits: Option<string>,
    orbitZone: Option<string>,
    zones: seq<Zone>)

  /** `Body()` followed by setting its name. */
  function NewBody(name: string): (b: Body)
    ensures b.name == name && b.zones == [] && b.kind == None
  {
    Body(name, None, None, None, None, None, None, None, [])
  }

  datatype Wormhole = Wormhole(polarity: Option<string>, source: Option<Location>, dest: Option<Location>)

  /** When a system was surveyed: the date line as written (plain text) or
      the seconds after the epoch read from a `UTC:` line (mail). */
  datatype Stamp = Written(text: string) | Utc(seconds: nat)

  datatype System = System(date: Stamp, location: Option<Location>, wormholes: seq<Wormhole>, bodies: seq<Body>)

  function NewSystem(date: Stamp): (s: System)
    ensures s.date == date && s.location == None && s.wormholes == [] && s.bodies == []
  {
    System(date, None, [], [])
  }

  // ---------------------------------------------------------------- resource names

  const QualityMark: string := " Q"
  const NoneMark: string := " None"

  /** `get_resource_name_from_line`: of the stripped text before the first
      ` Q` and the stripped text before the first ` None`, the shorter; the
      ` None` candidate on a tie. */
  function ResourceName(line: string): (r: string)
    ensures r == Strip(Before(line, QualityMark)) || r == Strip(Before(line, NoneMark))
    ensures |r| <= |Strip(Before(line, QualityMark))| && |r| <= |Strip(Before(line, NoneMark))|
    ensures |Strip(Before(line, QualityMark))| == |Strip(Before(line, NoneMark))| ==> r == Strip(Before(line, NoneMark))
    ensures Find(line, QualityMark) == -1 && Find(line, NoneMark) == -1 ==> r == Strip(line)
  {
    var n1 := Strip(Before(line, QualityMark));
    var n2 := Strip(Before(line, NoneMark));
    if |n1| < |n2| then n1 else n2
  }

  /** Stripping keeps every character from the first to the last non-space. */
  lemma {:induction false} StripKeeps(s: string, j: nat)
    requires s != [] && !IsSpace(s[0])
    requires j < |s| && !IsSpace(s[j])
    ensures |Strip(s)| > j
  {
    DropLeadingNoop(s, Spaces);
  }

  /** A mark (a space, then non-spaces) cannot start inside a name that does
      not contain it and run across the space that follows the name. */
  lemma {:induction false} MarkStartsAfter(name: string, sep: string, other: string, rest: string, k: int)
    requires |sep| >= 2 && sep[0] == ' ' && !IsSpace(sep[1])
    requires |other| >= 2 && other[0] == ' ' && other[1] != sep[1]
    requires forall i :: 1 <= i < |other| ==> !IsSpace(other[i])
    requires Find(name, other) == -1
    requires 0 <= k <= |name| + 1
    ensures !OccursAt(name + sep + rest, other, k)
  {
    var line := name + sep + rest;
    if k + |other| <= |name| {
      assert line[k..k + |other|] == name[k..k + |other|];
      assert !OccursAt(name, other, k);
    } else if k + |other| <= |line| {
      var w := line[k..k + |other|];
      if k < |name| {
        assert w[|name| - k] == line[|name|] == ' ' != other[|name| - k];
      } else if k == |name| {
        assert w[1] == sep[1] != other[1];
      } else {
        assert w[0] == sep[1] != other[0];
      }
    }
  }

  lemma {:induction false} CandidateAfter(name: string, sep: string, other: string, rest: string)
    requires name != [] && !IsSpace(name[0])
    requires |sep| >= 2 && sep[0] == ' ' && !IsSpace(sep[1])
    requires |other| >= 2 && other[0] == ' ' && other[1] != sep[1]
    requires forall i :: 1 <= i < |other| ==> !IsSpace(other[i])
    requires Find(name, other) == -1
    ensures |Strip(Before(name + sep + rest, other))| > |name|
  {
    var line := name + sep + rest;
    var k := Find(line, other);
    forall j | 0 <= j <= |name| + 1
      ensures !OccursAt(line, other, j)
    {
      MarkStartsAfter(name, sep, other, rest, j);
    }
    assert k == -1 || k > |name| + 1;
    var b := Before(line, other);
    assert |b| > |name| + 1 && b[..|name| + 2] == line[..|name| + 2];
    assert b[0] == name[0] && b[|name| + 1] == sep[1];
    StripKeeps(b, |name| + 1);
  }

  lemma {:induction false} MarkFacts()
    ensures |QualityMark| == 2 && QualityMark[0] == ' ' && QualityMark[1] == 'Q'
    ensures |NoneMark| == 5 && NoneMark[0] == ' ' && NoneMark[1] == 'N'
    ensures forall i :: 1 <= i < |NoneMark| ==> !IsSpace(NoneMark[i]) && NoneMark[i] != ' '
    ensures forall i :: 1 <= i < |QualityMark| ==> !IsSpace(QualityMark[i]) && QualityMark[i] != ' '
  {
  }

  /** On a resource line `<name> Q<quality> ...` or `<name> None`, where the
      name holds neither mark, the rule yields exactly the name: the
      candidate cut at the other mark is always longer. */
  lemma {:induction false} ResourceNameOfLine(name: string, mark: string, rest: string)
    requires mark == QualityMark || mark == NoneMark
    requires name != [] && Strip(name) == name
    requires Find(name, QualityMark) == -1 && Find(name, NoneMark) == -1
    ensures ResourceName(name + mark + rest) == name
  {
    MarkFacts();
    var line := name + mark + rest;
    assert !IsSpace(name[0]) by {
      assert name == StripSet(name, Spaces);
    }
    FindAfter(name, mark, rest);
    assert Before(line, mark) == name;
    if mark == QualityMark {
      CandidateAfter(name, QualityMark, NoneMark, rest);
    } else {
      CandidateAfter(name, NoneMark, QualityMark, rest);
    }
  }
}
