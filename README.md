# galactiscan survey readers and table printer, modelled in Dafny

galactiscan reads the survey reports of the game Shores of Hazeron into a tree
of star systems. A **System** has a date, a **Location** and lists of
**Wormholes** and **Bodies**. A Body has **Zones**, and a Zone holds the
**Resources** found there. Each resource has a name, a quality, a prevalence
and a tech level.

Two readers build that tree:

- The **plain-text reader** (`process_survey_fh` in Survey.py) walks a list of
  lines.
  - A date line starts a system.
  - A fixed header follows. It gives the location from the two lines before
    the first blank line, then the wormholes in five-line entries.
  - After the header, a `mode` variable tracks the body name and the section
    (Primary/Orbiting, Photosphere, Geosphere, Hydrosphere/Atmosphere,
    Biosphere). Each indented line changes the last body by that section's
    rule.
- The **HTML-mail reader** (survey.py) works in two stages.
  - It unwraps a binary mail envelope: fixed offsets, one-byte and four-byte
    big-endian lengths, UTF-16 texts.
  - It feeds the HTML body to `SurveyHTMLParser`, which sees start tags, end
    tags and text. Text inside `<big>` names a section; text inside `<b>` is a
    heading. Coordinate lines are staged in `tmp_system` and `tmp_sector`
    until a pair is complete.
  - survey.py has its own copies of `Resource`, the zone operations and
    `get_resource_name_from_line` (survey.py:62-95 and 198-205). They match
    those in Survey.py, so each is modelled once and cited there.

The **table printer** (tabulation.py) prints a list of lists or a list of
dicts as an aligned table.

The modules:

- errors.dfy: the Python exceptions that abort a parse, as `Failure` values.
- pystr.dfy: the Python 2 string operations the readers use: `split()`, `split(sep)`, `strip()`, `strip(chars)`, `find`, `rfind`, slicing, `' '.join`, `int()` and the decimal part of `float()`.
- domain.dfy: Resource, Zone, Body, Wormhole and System; the zone-list operations; the resource-name rule.
- zone_list.dfy: a Body's zone list as an object that `set_zones`, `add_global_resource` and `add_zone_resource` change in place.
- geo.dfy: Coords, UniversalCoords and the two variants of Location.
- rules.dfy: the per-section line rules, which both readers share.
- text_survey.dfy: the plain-text reader, as a specification over the remaining lines and a cursor-based method proved equal to it.
- envelope.dfy: the mail envelope.
- mail_survey.dfy: `SurveyHTMLParser` as a class whose handlers are proved against a step function, and `process_survey_file`.
- tabulation.dfy: `tabulate_list`, `print_row`, `tabulate_dict` and `print_row_dict`. Each returns the printed lines, and each loop is proved against a function.

How the model represents the source:

- Every Python exception becomes a `Failure` carrying its kind:
  - `StopIteration` when the line iterator runs past the end;
  - `IndexError` for `words[0]`, `systems[-1]` and `widths[i]`;
  - `ValueError` for `int()` and `float()`;
  - `AttributeError` for a method called on `None`;
  - `KeyError` for a missing dict key;
  - `DecodeError` for an undecodable UTF-16 text.
- The readers rebuild the last system and its last body as values. The source
  changes them in place.
- `float()` coordinates are reals, read from decimal literals.

## Model

| member | source | states |
|---|---|---|
| Domain.TechLevel | Survey.py:94 | the tech level `quality/8+1` (floor division) is the level whose band of 8 qualities contains the quality |
| Domain.NewResource | Survey.py:90-94 | a Resource exists exactly when `int(quality.strip('Q'))` and `int(prevalence.strip('%'))` both parse; it keeps the name and the two numbers, with the tech level of the quality; otherwise ValueError |
| Domain.NewResourceOfTokens | Survey.py:90-94 | tokens `Q<q>` and `<p>%` give quality q, prevalence p and tech level q/8+1, for every integer q and p |
| Domain.NewResourceOfParsed | Survey.py:92-94 | whenever both stripped tokens parse, the Resource holds exactly the parsed values |
| Domain.StripQualityMark | Survey.py:92 | `strip('Q')` removes the leading Q of `Q<n>` and nothing else |
| Domain.StripPercent | Survey.py:93 | `strip('%')` removes the trailing % of `<n>%` and nothing else |
| Domain.AntifluxTechLevel | Survey.py:94 | quality Q228 gives tech level 29 |
| Domain.AddResource | Survey.py:85-86 | `Zone.add_resource` appends the resource and keeps the earlier ones |
| Domain.EmptyZones | Survey.py:62-63 | n new zones, all empty |
| Domain.SetZones | Survey.py:61-63 | `set_zones(n)` appends exactly n empty zones after the old ones |
| Domain.AddGlobalResource | Survey.py:64-67 | `add_global_resource` appends the resource to every zone and keeps the zone count (so it does nothing with no zones) |
| Domain.GrowZones | Survey.py:70-71 | the zone list is grown with empty zones to at least z+1 zones; the old zones are kept |
| Domain.AddZoneResource | Survey.py:68-72 | `add_zone_resource(z, r)`: the zone count becomes max(old count, z+1); zone z gets r after its old resources; every other old zone is unchanged; every other new zone is empty |
| Domain.AddGlobalResourceSnoc | Survey.py:66-67 | adding a global resource works zone by zone |
| Domain.GlobalResourcesKeepCount | Survey.py:64-67 | several global resources in a row keep the zone count and append the resources in order to every zone |
| Domain.NewBody | Survey.py:247-248 | a new Body has the given name, no zones and no kind |
| Domain.NewSystem | Survey.py:198-201 | a new System has the given date, no location, no wormholes and no bodies |
| Domain.ResourceName | Survey.py:177-184 | the name is one of the two stripped candidates (before the first ` Q`, before the first ` None`) and no longer than either; on equal length it is the ` None` candidate; when neither mark occurs it is the whole stripped line |
| Domain.ResourceNameOfLine | Survey.py:177-184 | a stripped name free of both marks, followed by ` Q...` or ` None...`, is read back exactly |
| Domain.CandidateAfter | Survey.py:180-183 | the candidate cut at the other mark is strictly longer than the name, so the shorter candidate wins |
| ZoneLists.ZoneList.constructor | Survey.py:36-38 | a new body has no zones |
| ZoneLists.ZoneList.SetZones | Survey.py:61-63 | the loop leaves the zone list equal to `Domain.SetZones` of the old list |
| ZoneLists.ZoneList.AddGlobalResource | Survey.py:64-67 | the loop over the zones leaves the list equal to `Domain.AddGlobalResource` of the old list |
| ZoneLists.ZoneList.AddZoneResource | Survey.py:68-72 | the grow-then-append loop leaves the list equal to `Domain.AddZoneResource` of the old list |
| Geo.CoordPart | Survey.py:155-161 | the text strictly between the last `(` and the last `)`, or up to the end when there is no `)`; it holds no `(` |
| Geo.ParseCoords | Survey.py:143-147 | coordinates exist only when the coordinate part has at least three `', '`-separated fields; x, y and z are the `float()` values of the first three |
| Geo.UniversalPlacement | Survey.py:129-132 | each universal axis is the system value plus 10 × the sector value: two systems in one sector get the same universal coordinates only when they have the same local coordinates, and one sector step equals ten local units |
| Geo.NewLocation | Survey.py:113-118 | a Location exists exactly when both lines have coordinates; its universal coordinates are derived from them |
| Geo.CoordLineParts | Survey.py:155-161 | for a line `name(a, b, c)tail`, the last `(` ends the name and the coordinate part is `a, b, c` |
| Geo.SplitThreeParts | Survey.py:144 | `split(', ')` of `a, b, c` gives the three fields when they hold no comma |
| Geo.SplitThreeFree | Survey.py:144 | the same, for any fields free of `', '` |
| Geo.NewLocationOfLines | Survey.py:113-118 | from two lines `name (x, y, z)`, the Location has the stripped names, the parsed coordinates and system + 10 × sector |
| Geo.MailSystemName | survey.py:117-120 | the system name fails exactly when the text before the last `(` has no words (`words[-1]`) |
| Geo.MailSystemNameDropsSystem | survey.py:117-120 | a stripped name followed by ` System` loses that word |
| Geo.MailSectorName | survey.py:121-123 | the sector name is the stripped text before the last `S` when that is not empty |
| Geo.MailSectorNameWithoutS | survey.py:121-123 | with no `S` at all, `rfind` gives -1 and the name loses its last character |
| Geo.NewMailLocation | survey.py:114-124 | a mail Location exists exactly when both lines have coordinates and the system name has a word; the system name is `MailSystemName` of the text before the last `(`; the coordinates are those parsed from the two lines; the sector name follows `MailSectorName`; the universal coordinates are derived |
| Geo.NewMailLocationOfLines | survey.py:114-124 | for well-formed lines whose system name is `<base> System`, the mail Location has system name `base`, the parsed system and sector coordinates, and their universal sum |
| SectionRules.DiameterOfRadius | Survey.py:292-294 | a Radius token becomes a diameter exactly when it parses; the diameter reads back as twice the radius after `strip('m')`; otherwise ValueError |
| SectionRules.MailRadiusIgnoresCommas | survey.py:314-316 | the mail reader strips `L` and `m` and drops every thousands comma before `int()` |
| SectionRules.MailRadiusWithComma | survey.py:315 | `1,234Lm` reads as 1234 |
| SectionRules.PlainRadiusLine | Survey.py:292-294 | a line ending in `<n>m Radius` sets the diameter to `<2n>m` and the kind to the stripped first `', '` fragment, and changes nothing else |
| SectionRules.MailRadiusLine | survey.py:314-316 | the mail reader's `<high>,<low>Lm Radius` line sets the diameter to twice the number `<high><low>`, followed by `m`, and the kind to the stripped first fragment |
| SectionRules.FragmentResource | Survey.py:299-317 | a zone fragment whose last word is `None` adds nothing; with no words it is an IndexError; otherwise the last two words are the quality and the prevalence, except in the Biosphere, where the last word is the quality and the prevalence is 100 |
| SectionRules.FullPrevalence | Survey.py:317 | the literal `'100%'` parses as 100 |
| SectionRules.AddZoned | Survey.py:297-302 | the fragment loop never removes zones |
| SectionRules.Contributions | Survey.py:299-302 | fragment i contributes what `FragmentResource` reads from it |
| SectionRules.ContributeSpec | Survey.py:301-302 | one fragment appends its resource to zone z and to no other zone |
| SectionRules.ContributeLength | Survey.py:70-72 | one fragment grows the zone list only up to zone z, and only when it adds a resource |
| SectionRules.AddZonedSucceeds | Survey.py:296-302 | the fragment loop succeeds exactly when every fragment can be read; its result is the contributions added in order |
| SectionRules.AddContributionsContents | Survey.py:299-302 | after the loop, zone j holds its old resources followed by what fragment j contributed |
| SectionRules.AddContributionsGrows | Survey.py:299-302 | the loop never shrinks the zone list |
| SectionRules.AddContributionsReaches | Survey.py:299-302 | every zone that received a resource exists afterwards |
| SectionRules.AddContributionsTight | Survey.py:299-302 | the list grows only up to the last zone that received a resource |
| SectionRules.ZonedLineContents | Survey.py:295-302 | a zoned line succeeds exactly when all its `', '` fragments can be read; fragment z's resource, named by the line's resource name, goes to zone z; nothing else in the body changes |
| SectionRules.BiosphereLine | Survey.py:310-317 | every Biosphere line is read as a zoned line with prevalence 100 |
| SectionRules.GeosphereResourceLine | Survey.py:295-302 | a Geosphere line ending in neither `Diameter` nor `Radius` is read as a zoned line |
| SectionRules.GlobalLine | Survey.py:284-287 | a global resource line whose last word is `None` changes nothing; with fewer than two words it is an IndexError; otherwise it adds `Resource(resource name of the line, words[-2], words[-1])` to every zone when both tokens parse, and is a ValueError when they do not |
| SectionRules.GlobalLineOfTokens | Survey.py:284-287 | a resource line ending in `Q<q> <p>%` adds the resource with quality q, prevalence p and tech level q/8+1, named by the line, to every zone |
| SectionRules.ZonedLine | Survey.py:295-302 | a zoned line changes only the zones and never removes one; a line with no words is an IndexError |
| SectionRules.ApplyLine | Survey.py:266-317 | a section line keeps the body's name and orbit and never removes zones; Photosphere and Hydrosphere/Atmosphere lines keep the zone count; unlisted sections change nothing; a line with no words is an IndexError |
| SectionRules.OrbitingLine | Survey.py:268-278 | an Orbiting/Primary line keeps name, orbit and diameter and never removes zones |
| SectionRules.TypeLineAddsOneZone | Survey.py:269-272 | any line whose words are `Type` followed by ws, indented or not, makes the body a star of type `' '.join(ws)` and adds exactly one empty zone after the old ones |
| SectionRules.PhotosphereLine | Survey.py:279-287 | a Photosphere line changes only the diameter and the resources and keeps the zone count; a line with no words is an IndexError |
| SectionRules.PhotosphereDiameterLine | Survey.py:280-281 | a line ending in `Diameter` sets the diameter to the word before it and changes nothing else |
| SectionRules.PhotosphereTypeLine | Survey.py:282-283 | a `Type x y Q<q> <p>%` line adds the resource `Type x y` with quality q and prevalence p to every zone |
| SectionRules.PhotosphereResourceLine | Survey.py:284-287 | any other Photosphere line is a global resource line |
| SectionRules.GeosphereLine | Survey.py:288-302 | a line ending in `Diameter` sets the diameter to the word before it and the kind to the stripped first `', '` fragment; a line ending in `Radius` does the same with twice the radius, and is a ValueError when the radius does not parse; a one-word such line is an IndexError; any line keeps name and orbit and never removes zones |
| SectionRules.FluidLine | Survey.py:303-309 | a Hydrosphere/Atmosphere line changes only the resources and keeps the zone count; a line with no words is an IndexError |
| SectionRules.FluidLineRule | Survey.py:303-309 | a line starting with `No`, whose first word ends in `%`, or ending with `Density` is skipped; any other line is a global resource line |
| SectionRules.BlankLineIsOneFragment | Survey.py:297 | a line with no words is one fragment, itself |
| TextSurvey.IsDateLine | Survey.py:197 | the date pattern `\d+/\d+/\d+\s+\d+:\d+\s+[AP]M` only matches a line that starts with a digit |
| TextSurvey.DigitRun | Survey.py:197 | `\d+` takes the longest run of digits |
| TextSurvey.SpaceRun | Survey.py:197 | `\s+` takes the longest run of whitespace |
| TextSurvey.BufferScan | Survey.py:207-219 | the location scan consumes at least one line; running out of lines is a StopIteration and an empty line an IndexError |
| TextSurvey.BufferScanFinds | Survey.py:207-219 | when a blank line follows lines that are neither empty nor blank, the scan returns the last two lines before the blank and the lines after it |
| TextSurvey.WormholesFrom | Survey.py:224-236 | each wormhole read leads from the system's location and has a polarity and a destination, and the block consumes at least one line |
| TextSurvey.WormholesEnd | Survey.py:227-229 | an empty or blank lead line ends the wormhole list |
| TextSurvey.WormholeEntry | Survey.py:230-236 | a five-line entry (lead, polarity, two destination lines, one skipped line) adds a wormhole whose polarity is the first word of the polarity line, whose source is the system's location and whose destination is the Location of the two lines |
| TextSurvey.ReadHeader | Survey.py:198-238 | a header consumes at least 11 lines and gives a system with the date, a location, no bodies and wormholes that all leave from that location |
| TextSurvey.HeaderAfterScan | Survey.py:216-238 | after the location scan, the header needs at least four more lines; the location is the Location of the two scanned lines, and the wormholes are read from the fourth line after the blank on |
| TextSurvey.ReadHeaderOfLines | Survey.py:198-238 | the location of a header is the Location of the last two lines before the first blank line (from the fifth line after the date on), and the wormholes are read from the fourth line after that blank |
| TextSurvey.WithLastBody | Survey.py:266-317 | replacing the last body changes nothing else in the survey |
| TextSurvey.TextStep | Survey.py:241-317 | an empty line is an IndexError; a blank line resets the mode to `'name'`; in `'name'` mode the line appends exactly one body named by the stripped line to the last system, or is an IndexError before any system; any other line leaves the survey unchanged or changes only its last body |
| TextSurvey.ScanBuffer | Survey.py:207-219 | the `buff` loop finds the same two lines and stops at the same place as `BufferScan` |
| TextSurvey.ReadWormholesAt | Survey.py:224-236 | the cursor loop reads the same wormholes and stops at the same line as `WormholesFrom` |
| TextSurvey.ReadHeaderAt | Survey.py:198-236 | the cursor reading of a header agrees with `ReadHeader`, failures included |
| TextSurvey.HeaderAfterScanAt | Survey.py:216-236 | the cursor reading after the location scan agrees with `HeaderAfterScan` |
| TextSurvey.ProcessSurveyFh | Survey.py:186-321 | the cursor loop returns exactly `Parse(lines)`, failures included |
| TextSurvey.OptionalLineIgnored | Survey.py:207-219 | an optional line before the two location lines does not change the result of the whole parse |
| TextSurvey.HeaderOptionalLine | Survey.py:207-219 | an optional line before the two location lines does not change the header read |
| TextSurvey.DateLineThenHeader | Survey.py:197-238 | a date line is always followed by a header read |
| TextSurvey.TruncatedHeader | Survey.py:202-236 | a date line with fewer than 6 following lines is a StopIteration; with fewer than 11 the parse fails |
| TextSurvey.BodyBeforeDate | Survey.py:245-247 | a body line before any date line is an IndexError (`systems[-1]`) |
| TextSurvey.StepKeepsHeaders | Survey.py:241-317 | a body or section line never changes any system's date, location or wormholes |
| TextSurvey.StepKeepsWellFormed | Survey.py:241-317 | a body or section line keeps every system well formed |
| TextSurvey.ParseLinesWellFormed | Survey.py:196-317 | the reader loop keeps every system well formed |
| TextSurvey.ParsedSystemsWellFormed | Survey.py:186-321 | every parsed system has a location, and all its wormholes leave from it |
| TextSurvey.StepKeepsModeInvariant | Survey.py:241-264 | outside `'name'` mode there is always a last body |
| TextSurvey.SectionLineHasBody | Survey.py:266-317 | outside `'name'` mode, a section line fails only when its section rule fails, never at `bodies[-1]` |
| TextSurvey.PrimaryHeading | Survey.py:253-256 | a `Primary` heading sets the mode to `Orbiting` and changes nothing else |
| TextSurvey.OrbitingHeading | Survey.py:257-261 | an `Orbiting ... <degrees>` heading sets the mode to `Orbiting` and the last body's orbit to the heading without its last word |
| TextSurvey.OtherHeading | Survey.py:262-264 | any other column-0 heading makes its first word the mode and changes nothing else |
| TextSurvey.ContentLine | Survey.py:266-317 | an indented line applies its section's rule to the last body, failing as that rule fails; in an unlisted section it changes nothing |
| TextSurvey.IndentedTypeLine | Survey.py:268-272 | an indented `Type` line under `Primary`/`Orbiting` makes the last body a star with one more zone |
| Envelope.Read | survey.py:176-183 | `f.read(n)` returns at most n bytes and moves the offset by what it read |
| Envelope.ReadLength | survey.py:177 | a length field is the big-endian value of the bytes read; reading no bytes is a ValueError |
| Envelope.ReadText | survey.py:177-178 | a length-prefixed text advances past its length field |
| Envelope.ParseMail | survey.py:176-183 | a file of 18 bytes or fewer is a ValueError |
| Envelope.BigEndianRoundTrip | survey.py:182 | a k-byte big-endian length reads back as its value |
| Envelope.ReadTextAt | survey.py:177-183 | a length field followed by its text reads back as the decoded text and ends after it |
| Envelope.MailRoundTrip | survey.py:174-183 | the reader recovers the sender, the title and the body of any file laid out as 18 bytes, sender, 13 bytes, title, body, trailing bytes |
| MailSurvey.StartTag | survey.py:221-225 | `<big>` sets `entering_section_header`, `<b>` sets `entering_header`; other tags and fields are unchanged |
| MailSurvey.EndTag | survey.py:227-231 | `</big>` and `</b>` clear those flags; other tags and fields are unchanged |
| MailSurvey.TagPairRestores | survey.py:221-231 | a start tag followed by its end tag restores a state with both flags clear |
| MailSurvey.AnchoredIsCoordLine | survey.py:263-265 | a line that matches the anchored coordinate pattern also matches the unanchored one |
| MailSurvey.PolarityWords | survey.py:274-275 | the first word of a `Positive Wormhole`/`Negative Wormhole` line is its first eight characters |
| MailSurvey.SectionHeaderData | survey.py:235-242 | `Wormholes` switches to the wormhole section without adding a body; any other section heading switches to the body section and appends exactly one body with that name, or is an AttributeError before any system |
| MailSurvey.HeaderData | survey.py:243-255 | a heading is recorded; in the wormhole section it appends one wormhole whose source is the system's location; in the body section a heading with no words is an IndexError |
| MailSurvey.InitData | survey.py:258-269 | a `UTC:<hex>` line starts a system; the first coordinate line is staged as `tmp_system`; other lines change nothing |
| MailSurvey.PairLocation | survey.py:265-269 | a completed pair sets the system's location and clears both staging fields |
| MailSurvey.WormholeData | survey.py:270-285 | a polarity line sets the last wormhole's polarity; a coordinate line is staged; other lines change nothing |
| MailSurvey.SetPolarity | survey.py:274-275 | the polarity is set on the last wormhole only; with no system or no wormhole the line fails |
| MailSurvey.PairDestination | survey.py:278-282 | a completed pair sets the last wormhole's destination and clears both staging fields |
| MailSurvey.MailSection | survey.py:289-332 | a heading selects the Orbiting rules exactly when it is `Primary` or its first word is `Orbiting`; a heading other than `Primary` with no words is an IndexError (`split()[0]`) |
| MailSurvey.BodyData | survey.py:286-339 | body content changes only the system, and fails with IndexError on a heading with no words |
| MailSurvey.InitialValid | survey.py:211-219 | the parser's initial attributes satisfy its invariant |
| MailSurvey.HeaderKeepsValid | survey.py:243-255 | headings keep the invariant |
| MailSurvey.InitKeepsValid | survey.py:258-269 | content before the first section keeps the invariant |
| MailSurvey.PolarityKeepsValid | survey.py:274-275 | polarity lines keep the invariant |
| MailSurvey.PairKeepsValid | survey.py:278-282 | completed destination pairs keep the invariant |
| MailSurvey.WormholeKeepsValid | survey.py:270-285 | wormhole content keeps the invariant |
| MailSurvey.BodyKeepsValid | survey.py:286-339 | body content keeps the invariant |
| MailSurvey.DataStepKeepsValid | survey.py:233-339 | every text event keeps the invariant |
| MailSurvey.RunKeepsValid | survey.py:221-339 | any event sequence keeps the invariant |
| MailSurvey.SetLastWormholeKeepsSources | survey.py:275-280 | changing the last wormhole's polarity or destination keeps every source at the system's location |
| MailSurvey.WormholesLeaveFromLocation | survey.py:245-248 | after any feed, every wormhole of the system leaves from the system's location |
| MailSurvey.SystemLineStaged | survey.py:263-264 | the first coordinate line is staged in `tmp_system` |
| MailSurvey.SectorLineLocates | survey.py:265-269 | the second coordinate line locates the system from the staged pair |
| MailSurvey.PolarityLine | survey.py:274-275 | a polarity line sets the last wormhole's polarity to its first word |
| MailSurvey.EmptyBodyData | survey.py:287-304 | empty content in a body section is an IndexError (`words[0]`) |
| MailSurvey.SurveyHtmlParser.constructor | survey.py:211-219 | a new parser starts from the class attributes |
| MailSurvey.SurveyHtmlParser.HandleStartTag | survey.py:221-225 | the new state is `StartTag` of the old one |
| MailSurvey.SurveyHtmlParser.HandleEndTag | survey.py:227-231 | the new state is `EndTag` of the old one |
| MailSurvey.SurveyHtmlParser.HandleData | survey.py:233-339 | the handler fails exactly when `DataStep` fails, with the same error; otherwise its new state is the one `DataStep` gives |
| MailSurvey.SurveyHtmlParser.HandleHeader | survey.py:243-255 | the heading branch agrees with `HeaderData` |
| MailSurvey.SurveyHtmlParser.HandleInitData | survey.py:258-269 | the init branch agrees with `InitData` |
| MailSurvey.SurveyHtmlParser.LocateSystem | survey.py:265-269 | the location update agrees with `PairLocation` |
| MailSurvey.SurveyHtmlParser.HandleWormholeData | survey.py:270-285 | the wormhole branch agrees with `WormholeData` |
| MailSurvey.SurveyHtmlParser.LocateDestination | survey.py:278-282 | the destination update agrees with `PairDestination` |
| MailSurvey.SurveyHtmlParser.HandleBodyData | survey.py:286-339 | the body branch agrees with `BodyData` |
| MailSurvey.SurveyHtmlParser.Feed | survey.py:192-193 | feeding events one by one agrees with `Run` |
| MailSurvey.ProcessSurveyFile | survey.py:170-195 | the file reader returns `MailSurveys`: the envelope, the title check and the parse |
| MailSurvey.SurveyCount | survey.py:188-195 | a mail gives at most one system, and exactly one when its title starts with `System Survey` |
| MailSurvey.OtherMailIgnored | survey.py:188-189 | a well-formed mail whose title is not a system survey gives no systems |
| Tabulation.Pad | tabulation.py:80 | `n * ' '` is n spaces, or none when n is not positive |
| Tabulation.Cell | tabulation.py:80 | a value no wider than its column gives a cell of width + 3 characters |
| Tabulation.CellRightAligned | tabulation.py:80 | a cell is (width − len + 1) spaces, the value, then ` \|` |
| Tabulation.CellsLength | tabulation.py:78-80 | a row whose values fit their widths is exactly as long as the separator |
| Tabulation.RuleSnoc | tabulation.py:54-56 | each column adds width + 2 dashes and a `+` to the separator |
| Tabulation.ColumnMembers | tabulation.py:49-51 | a column holds exactly the values of the rows long enough to have one |
| Tabulation.MaxLenIsMax | tabulation.py:49-51 | the width is at least every value's length and equals the length of some value |
| Tabulation.WidthOfColumn | tabulation.py:44-51 | each width is the longest value in its column |
| Tabulation.ListWidths | tabulation.py:44-51 | the width pass fails with IndexError exactly when some row is longer than the first; otherwise there is one width per column of the first row and every row fits |
| Tabulation.ListWidthsAreMaxima | tabulation.py:44-51 | every value fits its width, and every width is reached by some value |
| Tabulation.Widen | tabulation.py:50-51 | one row raises each width to that row's value length; a row longer than the widths is an IndexError |
| Tabulation.WidenStep | tabulation.py:49-51 | after k rows the widths are the maxima over those k rows |
| Tabulation.WidthsDone | tabulation.py:49-51 | after all rows the widths are the column maxima |
| Tabulation.ComputeWidths | tabulation.py:44-51 | the two width loops compute `ListWidths` |
| Tabulation.SeparatorLine | tabulation.py:54-56 | the separator loop builds `+` then width + 2 dashes and `+` per column |
| Tabulation.SeparatorOfThree | tabulation.py:54-56 | a three-column separator is `+`, then width + 2 dashes and `+` for each column |
| Tabulation.SeparatorExample | tabulation.py:17-26 | widths 8, 4 and 7 give `+----------+------+---------+` |
| Tabulation.RowLine | tabulation.py:71-81 | `print_row` fails with IndexError exactly when the row has more values than widths |
| Tabulation.PrintRow | tabulation.py:78-81 | the cell loop builds `RowLine` |
| Tabulation.RowLineOfThree | tabulation.py:78-80 | a three-value row line is `\|` followed by its three cells |
| Tabulation.PrintRowExample | tabulation.py:75-76 | `print_row(['Ore','TL32','249'], [8,4,7])` is `\|      Ore \| TL32 \|     249 \|` |
| Tabulation.Rows | tabulation.py:66-67 | one row line per row |
| Tabulation.RowsAt | tabulation.py:66-67 | row line j is the line of row j |
| Tabulation.ListTable | tabulation.py:40-41 | no data gives no lines; the only failure is an IndexError |
| Tabulation.PrintRows | tabulation.py:66-67 | the row loop builds `Rows` |
| Tabulation.TabulateList | tabulation.py:10-68 | `tabulate_list` returns the lines of `ListTable` |
| Tabulation.ListLinesShape | tabulation.py:59-68 | with a header: separator, first row, separator, the other rows, separator; without: separator, every row, separator |
| Tabulation.ListTableShape | tabulation.py:59-68 | the same layout, under the computed widths |
| Tabulation.RowAligned | tabulation.py:78-80 | a row with one value per column is as long as the separator |
| Tabulation.RowsAligned | tabulation.py:66-67 | every row line of such rows is as long as the separator |
| Tabulation.ListLinesAligned | tabulation.py:59-68 | when every row has one value per column and fits, all lines have the same length |
| Tabulation.ListTableAligned | tabulation.py:10-68 | when all rows have as many values as the first, every line of the table has the same length |
| Tabulation.HeadRow | tabulation.py:125-128 | the head dict maps each key of the order to itself |
| Tabulation.MakeHead | tabulation.py:126-128 | the head loop builds `HeadRow` |
| Tabulation.DictWidths | tabulation.py:131-139 | the width pass fails with KeyError exactly when some row lacks a key of the order; otherwise there is one width per key |
| Tabulation.DictWidthsAreMaxima | tabulation.py:131-139 | every value fits its key's width, and every width is reached by some row |
| Tabulation.FirstDictWidths | tabulation.py:132-134 | the first loop sets each width to the first row's value length, or fails with KeyError |
| Tabulation.WidenDict | tabulation.py:138-139 | one row raises each key's width to that row's value length, or fails with KeyError |
| Tabulation.DictWidenStep | tabulation.py:137-139 | after k rows each width is the maximum over those rows |
| Tabulation.DictColumnWiden | tabulation.py:139 | one more row raises a column's maximum by that row's value |
| Tabulation.DictWidthsDone | tabulation.py:137-139 | after all rows the widths are the column maxima |
| Tabulation.DictWidthsMissing | tabulation.py:134 | a row missing a key of the order is a KeyError |
| Tabulation.ComputeDictWidths | tabulation.py:131-139 | the two width loops compute `DictWidths` |
| Tabulation.DictCellsAsCells | tabulation.py:175-177 | a dict row prints as the list row of its values in key order |
| Tabulation.RowDict | tabulation.py:158-178 | `print_row_dict` fails with KeyError exactly when a key of the order (by default the row's own keys) has no value or no width |
| Tabulation.DictCellsSnoc | tabulation.py:176-177 | each key adds one cell |
| Tabulation.PrintRowDict | tabulation.py:172-178 | the key loop builds `RowDict` |
| Tabulation.DictRows | tabulation.py:153-154 | one row line per dict row |
| Tabulation.WithHead | tabulation.py:125-129 | without a header the head dict is put in front of the rows; with one the rows are unchanged |
| Tabulation.DictTable | tabulation.py:117-118 | no data gives no lines; the only failure is a KeyError |
| Tabulation.DictWidthsCover | tabulation.py:137-139 | after the width pass every row has a value and a width for every key |
| Tabulation.RowsTable | tabulation.py:131-155 | the only failure is a KeyError |
| Tabulation.PrintDictRows | tabulation.py:153-154 | the row loop builds `DictRows` |
| Tabulation.PrintDictTable | tabulation.py:131-155 | the width, separator and row loops build `RowsTable` |
| Tabulation.DictList.constructor | tabulation.py:85 | the list object holds the caller's rows |
| Tabulation.DictList.TabulateDict | tabulation.py:85-155 | returns the lines of `DictTable`; with data and no header, the caller's list now starts with the head dict |
| Tabulation.DictCellsLength | tabulation.py:175-177 | a dict row whose values fit is as long as the separator |
| Tabulation.DictHeadingShowsKeys | tabulation.py:125-148 | without a header the table has four more lines than rows, and its second line shows the keys of the order |
| Tabulation.DictLinesAligned | tabulation.py:146-155 | when every row fits, all lines of a dict table have the same length |
| Tabulation.RowsTableAligned | tabulation.py:131-155 | every line of the table under computed widths has the same length |
| Tabulation.DictTableAligned | tabulation.py:85-155 | every line of a `tabulate_dict` table has the same length |
| PyStr.StripSetIdempotent | Survey.py:178 | stripping twice is stripping once |
| PyStr.StripSetMargins | Survey.py:178 | strip removes exactly the margin characters around a core that starts and ends with a kept character |
| PyStr.WordsEmptyIffBlank | Survey.py:267 | `split()` gives no words exactly when the line is all whitespace |
| PyStr.WordsOfJoin | Survey.py:272 | `' '.join` of words splits back into the same words |
| PyStr.WordsAppendToken | survey.py:118-119 | a trailing word after a space is the last word of `split()` |
| PyStr.SplitOnHead | Survey.py:178 | `split(sep)[0]` is the text before the first separator |
| PyStr.SplitOnPartsFree | Survey.py:297 | no part of `split(', ')` contains the separator |
| PyStr.JoinOfSplitOn | Survey.py:297 | joining the parts of `split(sep)` with sep gives the line back |
| PyStr.RFind | Survey.py:157-158 | `rfind` is the last position of the character, or -1 |
| PyStr.FindFrom | Survey.py:178 | `find` is the first occurrence at or after the start, or -1 |
| PyStr.IntToStringRoundTrip | Survey.py:293 | `int(str(n))` is n |
| PyStr.ParseDecimalOfInt | Survey.py:145-147 | `float()` reads an integer literal as its value |

## Left out

- data.py (the SQLite store), gui.py and about.py (the wxPython windows), galactiscan.py (command-line dispatch) and version.py are not part of this model.
- Opening and reading files (`process_survey`, `process_survey_file`'s `open`, `readlines`, `close`): the readers take the lines or the bytes as parameters.
- UTF-16-BE decoding is a parameter `decode` of the mail reader. The `HTMLParser` tokeniser is a parameter too: it maps the body to a sequence of start-tag, end-tag and text events.
- Dates: `datetime.strptime` and `fromtimestamp` are not modelled. A system keeps the stripped date line, or the integer value of the `UTC:` hex digits. The ValueError `strptime` raises at Survey.py:200 is therefore not modelled either. The source fails on a line that matches the date pattern but is not a valid `%m/%d/%y %I:%M %p` stamp, such as `13/40/12 1:00 PM` or a line with text after `PM`; `ParseLines` accepts such a line as a date line.
- Floating point: `float()` is read as an exact decimal (optional sign, digits, optional fraction). Exponents, `inf`/`nan` and rounding are not modelled.
- `__str__` and `__repr__`, and the `print` calls of tabulation.py: the table functions return the lines instead.
- Object identity: a wormhole's `source` is the same object as `system.location` in the source; here it is an equal value. Bodies and systems are values rebuilt by each step, not shared objects.
- State after an exception: a `Failure` ends the parse. The half-updated objects the source leaves behind are not modelled, and neither are the half-computed widths of a failing table.
- `str(v)` of non-string table cells: cells are strings. The dict key order defaults to the first row's key list, which stands for `data[0].keys()`.
- `Body.satellites` and `orbit_distance` are never set by the readers and are not modelled.
- Geo.MailSectorName: the contract states only the common case (the text before the last `S` is not blank); the fallback to the whole stripped line and the no-`S` case follow from the body and from `MailSectorNameWithoutS`.
- PyStr.Spaces: whitespace is that of Python 2 byte strings (space, tab, newline, carriage return, vertical tab, form feed). The mail reader works on decoded unicode text, whose `strip()` and `split()` also treat U+001C to U+001F, U+0085, U+00A0, U+1680, U+2000 to U+200A, U+2028, U+2029, U+202F, U+205F and U+3000 as whitespace. A mail text holding one of those around a heading or a token is split differently from the source.
- SectionRules.OrbitingLine: the `Spectral` and `Size` fields and the `orbit_zone` of a non-star are set by the body; the contract covers what stays unchanged.
- Envelope.ParseMail: the contract states only that a file of 18 bytes or fewer is a ValueError; how the fields are read is stated by `MailRoundTrip`.
- Envelope.ReadText: the contract states only how far the offset moves; `ReadTextAt` states what is read.
- MailSurvey.BodyData: the contract states only that body content changes the system alone; how it changes the last body is `SectionRules.ApplyLine`.
- The sector name of a mail Location: when the line has no capital `S`, the source drops the line's last character (usually the closing parenthesis). This model keeps that behaviour.
