# Circuit IQ — a Dafny model of the design pipeline

Circuit IQ turns a natural-language description of a circuit, plus component datasheets,
into a printed-circuit-board design: Gerber layer files, an Excellon drill file and a zip
archive, served over a small HTTP API. This project models the core of that pipeline and
proves properties of the model:

- **the PCB designer** (`PCBDesigner`), a class whose component list, board parameters and
  requirements text the operations update in place. It covers:
  - the keyword analysis of the requirements and the stock components it appends;
  - enrichment of components from the component library;
  - the netlist;
  - the eleven-row layer stack-up, written file by file through a line buffer: header,
    aperture table, outline, planes, pads, star-routed traces and `M02*`;
  - the drill file: tools, mounting holes, component holes and vias;
  - `generate_design`;
- **the datasheet extractor**:
  - component-type detection from a declared type or from keyword scores;
  - pin-count extraction with its three fallbacks;
  - validation of the extracted parameters;
  - pin-connection detection, with a stable sort by pin number and grouping by category;
  - the empty-source guard of `process_datasheet`;
- **the design-rule checks**: the high-speed signal check and the pin-count branch of the
  parameter check;
- **the web service's bookkeeping**:
  - configuration loading, with precedence environment > YAML > defaults;
  - the API-key gate and its usage log;
  - the usage statistics;
  - the Gerber file listing and the archive URL.

Regular-expression matching, file I/O, the clock, PDF reading and the position helpers
that the program calls but does not define are not computed in the model. They are inputs:
the captures a pattern produced, the directory listing, the timestamp, and a `Helpers`
value holding the two position functions.

Modules:
- `Wrappers`, `Text` and `Units` model the Python built-ins the core relies on. `Units` holds
  `int()` on floats and the 10⁴ coordinate scale.
- `Components`, `Requirements`, `Netlist`, `Board`, `Gerber`, `Layers`, `Drill` and
  `Designer` model `pcb_designer.py`.
- `ComponentTypes`, `Parameters` and `PinDetection` model `datasheet_extractor.py`.
- `SignalChecks` models `test_extractor.py`.
- `Config` and `Api` model `app.py`.

Every writer method is proved to append exactly the lines of a specification function. The
lemmas state what those functions guarantee.

## Model

| member | source | states |
|---|---|---|
| Wrappers.FirstSome | Circuit_IQ_5/datasheet_extractor.py:237-240 | the first match found is one of the pattern results |
| Wrappers.FirstSomeSpec | Circuit_IQ_5/datasheet_extractor.py:237-240 | a result exists exactly when some pattern matched, and every earlier pattern did not match |
| Text.LowerChar | Circuit_IQ_5/datasheet_extractor.py:390 | a lower-cased character is never a capital, and other characters are unchanged |
| Text.Lower | Circuit_IQ_5/datasheet_extractor.py:390 | `lower()` keeps the length, maps each character, and leaves no capital letter |
| Text.OccursContains | Circuit_IQ_5/datasheet_extractor.py:392 | an occurrence at some offset makes `t in s` true |
| Text.ContainsOccurs | Circuit_IQ_5/datasheet_extractor.py:392 | `t in s` holds only through an occurrence at a returned offset |
| Text.ContainsAt | Circuit_IQ_5/datasheet_extractor.py:392 | the substring test is equivalent to an occurrence at some offset |
| Text.CharsOfContained | Circuit_IQ_5/datasheet_extractor.py:327 | every character of a contained keyword occurs in the text |
| Text.ContainsChar | Circuit_IQ_5/datasheet_extractor.py:327 | a one-letter keyword is contained exactly when its character occurs |
| Text.LowerNeverContainsUpper | Circuit_IQ_5/pcb_designer.py:152-156 | a keyword holding a capital letter never occurs in lower-cased text |
| Text.NatToString | Circuit_IQ_5/test_extractor.py:55 | `str(n)` of a natural number is a non-empty string of digits |
| Text.IntToString | Circuit_IQ_5/test_extractor.py:55 | `str(n)` of an integer is non-empty |
| Text.ParseInt | Circuit_IQ_5/app.py:66 | `int(s)` succeeds only on a non-empty string |
| Text.NatToStringValue | Circuit_IQ_5/test_extractor.py:55 | the digits of `str(n)` read back as n |
| Text.ParseIntToString | Circuit_IQ_5/app.py:66 | round trip: `int(str(n)) == n` for every integer |
| Text.StripLeft | Circuit_IQ_5/datasheet_extractor.py:324 | it removes exactly the leading whitespace, as a suffix of the input |
| Text.StripRight | Circuit_IQ_5/datasheet_extractor.py:324 | it removes exactly the trailing whitespace, as a prefix of the input |
| Text.StripSpec | Circuit_IQ_5/datasheet_extractor.py:324 | the stripped text is a slice of the input with no whitespace at either end |
| Text.RemoveChar | Circuit_IQ_5/datasheet_extractor.py:277 | `replace(c, '')` leaves no c, never lengthens, and changes nothing when c is absent |
| Text.IndexOf | Circuit_IQ_5/app.py:358 | the index is that of the first occurrence of the separator |
| Text.IndexOfFirst | Circuit_IQ_5/app.py:358 | the first occurrence is unique: any position holding c with no earlier c is that index |
| Text.Split | Circuit_IQ_5/app.py:70 | `split(sep)` gives at least one piece, and no piece holds the separator |
| Text.JoinSplit | Circuit_IQ_5/app.py:70 | joining the pieces of a split gives the original string back |
| Text.SplitJoin | Circuit_IQ_5/app.py:70 | splitting a join of separator-free pieces gives the pieces back |
| Units.TruncBounds | Circuit_IQ_5/pcb_designer.py:535 | `int(v)` truncates toward zero by less than one |
| Units.EncodeExact | Circuit_IQ_5/pcb_designer.py:535 | a coordinate that is a multiple of 10⁻⁴ mm is written exactly |
| Units.EncodeBounds | Circuit_IQ_5/pcb_designer.py:535 | the written integer is v·10⁴ truncated toward zero, off by less than one unit |
| Units.EncodeMonotone | Circuit_IQ_5/pcb_designer.py:584 | writing coordinates preserves their order |
| Units.EncodeStrict | Circuit_IQ_5/pcb_designer.py:584 | coordinates at least two units apart stay strictly ordered when written |
| Units.ISqrtSpec | Circuit_IQ_5/pcb_designer.py:486 | the integer square root is the largest r with r² ≤ n |
| Units.SqrtStep | Circuit_IQ_5/pcb_designer.py:486 | doubling the root of n/4 brackets the root of n |
| Units.Cols | Circuit_IQ_5/pcb_designer.py:486 | the placement grid has at least one column |
| Units.ColsSpec | Circuit_IQ_5/pcb_designer.py:486 | with components the grid has ⌊√n⌋ columns, and with none it has one |
| Units.PinXLayout | Circuit_IQ_5/pcb_designer.py:576 | consecutive pins are one 2.54 mm pitch apart and sit symmetrically about the centre |
| Components.PinRefs | Circuit_IQ_5/pcb_designer.py:597-598 | iterating a connection value visits one element per pin number, per name, or per character of a string; a single number gives none, so routing raises on it as on an empty list |
| Components.Lookup | Circuit_IQ_5/pcb_designer.py:579 | `connections.get(key)` returns a value stored under that key, and None only when no entry has it |
| Components.LibraryGetFromSpec | Circuit_IQ_5/pcb_designer.py:568 | the scan from any index finds an entry exactly when one there has the key, and that entry has it |
| Components.LibraryGetSpec | Circuit_IQ_5/pcb_designer.py:568 | `component_library.get(key)` is an exact-key lookup: found exactly when some entry has the key |
| Components.FirstMatchFrom | Circuit_IQ_5/pcb_designer.py:155-156 | the chosen library entry matches, no earlier entry does, and none is chosen when none matches |
| Components.EnrichedSpec | Circuit_IQ_5/pcb_designer.py:144-170 | the first entry whose key occurs in the lower-cased type supplies footprint and symbol, and pins only when missing; otherwise only the generic defaults fill gaps; type, name and connections are kept |
| Components.LedNeverMatches | Circuit_IQ_5/pcb_designer.py:35-39 | the library key "LED" is upper-case, so it never matches a lower-cased type |
| Components.EnrichComponent | Circuit_IQ_5/pcb_designer.py:152-170 | the library scan with its `break` yields the enriched component |
| Components.EnrichComponents | Circuit_IQ_5/pcb_designer.py:151-170 | every element of the list is replaced in place by its enriched form |
| Requirements.Analyze | Circuit_IQ_5/pcb_designer.py:186-207 | the needs dictionary is empty exactly when the requirements text is empty |
| Requirements.AnyVMeansPower | Circuit_IQ_5/pcb_designer.py:195-196 | any text holding a `v` or `V` asks for power regulation |
| Requirements.Stock | Circuit_IQ_5/pcb_designer.py:213-275 | an appended component carries its library type, footprint and symbol, the given name and pins, and no connections |
| Requirements.HasKindAppend | Circuit_IQ_5/pcb_designer.py:213 | appending components of other types does not change whether a type is present |
| Requirements.AppendedSpec | Circuit_IQ_5/pcb_designer.py:213-275 | each block (regulator with capacitors, microcontroller with capacitor, LED with resistor) is appended exactly when its flag is set and the original list has no component of exactly that type |
| Requirements.StockIsStock | Circuit_IQ_5/pcb_designer.py:213-275 | a component built from a library row is a stock component |
| Requirements.StockBlocks | Circuit_IQ_5/pcb_designer.py:213-275 | the three appended blocks consist of stock components |
| Requirements.AllStockConcat | Circuit_IQ_5/pcb_designer.py:213-275 | stock lists stay stock when concatenated |
| Requirements.AppendedAreStock | Circuit_IQ_5/pcb_designer.py:213-275 | at most seven components are appended, all with library footprint and symbol and no connections |
| Requirements.Suggestions | Circuit_IQ_5/pcb_designer.py:335-354 | the suggestion step raises exactly when the needs dictionary is empty |
| Requirements.AdviceDistinct | Circuit_IQ_5/pcb_designer.py:340-354 | each flag's first advisory appears in no other flag's pair |
| Requirements.SuggestionsShape | Circuit_IQ_5/pcb_designer.py:338-354 | two advisories per set flag, opening with the power pair and closing with the motor pair when those flags are set |
| Requirements.SuggestionsMembers | Circuit_IQ_5/pcb_designer.py:338-354 | each flag's advisory appears in the suggestions exactly when the flag is set |
| Requirements.SuggestionsIgnoreLedAndConnectivity | Circuit_IQ_5/pcb_designer.py:338-354 | the LED and connectivity flags never change the suggestions |
| Netlist.NetsOf | Circuit_IQ_5/pcb_designer.py:523-529 | a component contributes one net per connection entry, with that entry's key and value, owned by it |
| Netlist.OffsetMonotone | Circuit_IQ_5/pcb_designer.py:522-529 | each component's block of nets comes after those of the components before it |
| Netlist.NetlistUpToSpec | Circuit_IQ_5/pcb_designer.py:522-529 | the nets of the first n components are exactly their connection entries, block by block |
| Netlist.NetsSpec | Circuit_IQ_5/pcb_designer.py:518-530 | exactly one net per (component, key): the size is the entry count, each net carries its entry, and owners never decrease |
| Netlist.NetAt | Circuit_IQ_5/pcb_designer.py:518-530 | entry j of component i is the net at position Offset(i)+j |
| Gerber.Buffer.constructor | Circuit_IQ_5/pcb_designer.py:444 | a freshly opened file is empty |
| Gerber.Buffer.Write | Circuit_IQ_5/pcb_designer.py:446 | `write` appends exactly one line |
| Gerber.Then | Circuit_IQ_5/pcb_designer.py:438-507 | lines written before a stage keep their place and do not change whether the stage finished |
| Gerber.Seq | Circuit_IQ_5/pcb_designer.py:438-507 | two stages finish only when both do, and the first stage's lines come first |
| Gerber.ConcatGeometry | Circuit_IQ_5/pcb_designer.py:478-495 | geometry built from clean pieces stays clean |
| Layers.SkippedRows | Circuit_IQ_5/pcb_designer.py:440-441 | a single-layer board skips exactly the bottom and internal rows |
| Layers.SelectedLayers | Circuit_IQ_5/pcb_designer.py:418-441 | a single-layer board gets front copper, mask, paste, silkscreen and outline in table order, and any other board gets all eleven |
| Layers.SingleLayerFront | Circuit_IQ_5/pcb_designer.py:440-441 | of the first five rows a single-layer board keeps exactly F.Cu and F.Mask |
| Layers.SingleLayerRows | Circuit_IQ_5/pcb_designer.py:418-441 | a single-layer board keeps exactly F.Cu, F.Mask, F.Paste, F.SilkS and Edge.Cuts, in that order |
| Layers.SelectedPrefix | Circuit_IQ_5/pcb_designer.py:438-441 | the layers chosen from more rows extend those chosen from fewer |
| Layers.DeclsUpTo | Circuit_IQ_5/pcb_designer.py:456-467 | one declaration per aperture visited |
| Layers.DeclsUpToSpec | Circuit_IQ_5/pcb_designer.py:456-467 | aperture k is declared at position k, in table order |
| Layers.OutlineUpTo | Circuit_IQ_5/pcb_designer.py:538-550 | each side of the outline writes four lines |
| Layers.RoundedRectangleSpec | Circuit_IQ_5/pcb_designer.py:532-550 | a move to (x, y+r), then for each side a straight draw, G75, G03 and an arc ending r right of the corner the program picks |
| Layers.RoundedRectangleGeometry | Circuit_IQ_5/pcb_designer.py:532-550 | the outline selects no aperture and holds only geometry |
| Layers.PlaneSpec | Circuit_IQ_5/pcb_designer.py:552-563 | the plane is one closed G36/G37 region through four corners 0.4 mm inside the board |
| Layers.PadsUpTo | Circuit_IQ_5/pcb_designer.py:575-584 | two lines per pin |
| Layers.PadsUpToSpec | Circuit_IQ_5/pcb_designer.py:575-584 | pin k selects D16 or D12, then flashes at its pin position |
| Layers.PadsSpec | Circuit_IQ_5/pcb_designer.py:565-584 | pads appear only for a type that is exactly a library key; pin k uses D16 when wired to VCC or GND and D12 otherwise, at x+(k−pins/2)·2.54 |
| Layers.PadsIncreasing | Circuit_IQ_5/pcb_designer.py:576-584 | successive pad positions strictly increase when written |
| Layers.PadsUpToGeometry | Circuit_IQ_5/pcb_designer.py:575-584 | the pads written so far select only D12 and D16 and hold only geometry |
| Layers.PadsGeometry | Circuit_IQ_5/pcb_designer.py:565-584 | a component's pads select only D12 and D16 and hold only geometry |
| Layers.AllPadsGeometry | Circuit_IQ_5/pcb_designer.py:486-492 | the pads of all components select only D12 and D16 |
| Layers.SegmentsUpTo | Circuit_IQ_5/pcb_designer.py:598-601 | two lines per segment |
| Layers.SegmentsUpToSpec | Circuit_IQ_5/pcb_designer.py:598-601 | segment j moves to the first pin and draws to pin j+1 |
| Layers.RouteNetSpec | Circuit_IQ_5/pcb_designer.py:586-601 | star routing: D11 for VCC/GND and D10 otherwise, then len(pins)−1 segments from pin 0; an empty pin list raises after the select |
| Layers.SegmentsGeometry | Circuit_IQ_5/pcb_designer.py:598-601 | segments hold only geometry and select nothing |
| Layers.RouteNetGeometry | Circuit_IQ_5/pcb_designer.py:588-601 | a net's traces select only D10 or D11 and hold only geometry |
| Layers.RoutesGeometry | Circuit_IQ_5/pcb_designer.py:588-601 | all traces select only D10 or D11 and hold only geometry |
| Layers.RoutesOk | Circuit_IQ_5/pcb_designer.py:588-601 | routing finishes exactly when every net has at least one pin |
| Layers.GeometrySpec | Circuit_IQ_5/pcb_designer.py:470-505 | the geometry of every layer selects only D10, D11, D12 and D16, given clean mask and silkscreen helpers |
| Layers.FramedSpec | Circuit_IQ_5/pcb_designer.py:446-507 | a layer file opens with the eight header lines and D10..D17 in table order, then its geometry, and ends with `M02*` exactly when the geometry finished |
| Layers.ConcatSlices | Circuit_IQ_5/pcb_designer.py:446-507 | the header, table and geometry are slices of the file |
| Layers.SelectedCodeEntry | Circuit_IQ_5/pcb_designer.py:406-415 | the selected codes D10, D11, D12 and D16 are table entries |
| Layers.FramedShape | Circuit_IQ_5/pcb_designer.py:446-507 | a framed file has the layout stated without header texts |
| Layers.FramedEnd | Circuit_IQ_5/pcb_designer.py:507 | `M02*` is the last line exactly when the writer finished, and appears nowhere else |
| Layers.ShapeEnd | Circuit_IQ_5/pcb_designer.py:507 | `M02*` appears only as the last line of a finished file |
| Layers.FramedSelects | Circuit_IQ_5/pcb_designer.py:456-495 | declare before use: every selected aperture was declared earlier in the same file |
| Layers.ShapeSelects | Circuit_IQ_5/pcb_designer.py:456-495 | every select in a framed file comes after its declaration |
| Layers.LayerFileSpec | Circuit_IQ_5/pcb_designer.py:438-507 | each layer file has its header and table, ends with `M02*` exactly when finished, and declares every aperture it selects |
| Layers.InternalLayerStartsWithPlane | Circuit_IQ_5/pcb_designer.py:478-483 | internal layers open with the plane region right after the aperture table |
| Layers.InternalGeometry | Circuit_IQ_5/pcb_designer.py:478-495 | internal geometry is the plane region followed by the pads and routes |
| Layers.FramedPrefix | Circuit_IQ_5/pcb_designer.py:446-507 | geometry that opens with p puts p right after the aperture table |
| Layers.PasteLayerEmpty | Circuit_IQ_5/pcb_designer.py:470-507 | paste layers hold only the header, the aperture table and `M02*` |
| Drill.PinHolesUpTo | Circuit_IQ_5/pcb_designer.py:659-661 | one hole per pin visited |
| Drill.ViaHolesUpTo | Circuit_IQ_5/pcb_designer.py:676-679 | one via per pin visited |
| Drill.NetsOwned | Circuit_IQ_5/pcb_designer.py:666-669 | every net's owner indexes the component list, so `self.components[net['component']]` never fails |
| Drill.ToolLines | Circuit_IQ_5/pcb_designer.py:612-625 | the tools read T1C0.8;PLATED, T2C1.0;PLATED, T3C3.2; and T4C0.3;PLATED |
| Drill.MountingHolesSpec | Circuit_IQ_5/pcb_designer.py:632-641 | T3, then four corner holes 5 mm in from each edge |
| Drill.PinHolesUpToSpec | Circuit_IQ_5/pcb_designer.py:659-661 | hole k sits at x+(k−pins/2)·2.54 on the component's row |
| Drill.ComponentBlockSpec | Circuit_IQ_5/pcb_designer.py:644-661 | T2 exactly for type "microcontroller" and T1 otherwise, then one hole per pin whether or not the library knows the part |
| Drill.ViaHolesUpToSpec | Circuit_IQ_5/pcb_designer.py:676-679 | each via sits 1 mm right of and 1 mm above its pin |
| Drill.NetViasSpec | Circuit_IQ_5/pcb_designer.py:666-679 | only VCC and GND nets get vias, one per pin; a power net whose value is a non-empty string, a non-empty list of names or a single number raises |
| Drill.ViasUpToOk | Circuit_IQ_5/pcb_designer.py:664-679 | the vias finish exactly when no VCC or GND net holds a value the via arithmetic rejects |
| Drill.DrillFileSpec | Circuit_IQ_5/pcb_designer.py:603-679 | header and mounting block first, the via tool after the component holes, and `M30` at the end exactly when no power net raised |
| Drill.NamedPowerPinsRaise | Circuit_IQ_5/pcb_designer.py:666-679 | a VCC or GND connection listing pin names, such as `{"VCC": ["pin_2"]}`, makes the drill file fail without `M30` |
| Designer.PCBDesigner.constructor | Circuit_IQ_5/pcb_designer.py:17-21 | a new designer has no components, no board parameters and empty requirements |
| Designer.PCBDesigner.AnalyzeRequirements | Circuit_IQ_5/pcb_designer.py:172-280 | records the text, returns the needs, and appends exactly the stock blocks the needs call for |
| Designer.PCBDesigner.AppendMissing | Circuit_IQ_5/pcb_designer.py:213-275 | a block is appended exactly when its flag is set and no component has the type |
| Designer.PCBDesigner.GenerateNetlist | Circuit_IQ_5/pcb_designer.py:518-530 | the loop returns the netlist specified by the entries of each component |
| Designer.PCBDesigner.WriteLines | Circuit_IQ_5/pcb_designer.py:446-453 | the file gains exactly the given lines, in order |
| Designer.PCBDesigner.WriteFrameStart | Circuit_IQ_5/pcb_designer.py:446-467 | the file gains exactly the eight header lines and then the aperture table |
| Designer.PCBDesigner.DrawRoundedRectangle | Circuit_IQ_5/pcb_designer.py:532-550 | the file gains exactly the outline |
| Designer.PCBDesigner.AddPlaneLayer | Circuit_IQ_5/pcb_designer.py:552-563 | the file gains exactly the plane region, whatever the plane type |
| Designer.PCBDesigner.PlaceComponent | Circuit_IQ_5/pcb_designer.py:565-584 | the file gains exactly the component's pads |
| Designer.PCBDesigner.RouteTraces | Circuit_IQ_5/pcb_designer.py:586-601 | the file gains the traces of every net up to the first that raises, and the result says whether one raised |
| Designer.PCBDesigner.RouteOne | Circuit_IQ_5/pcb_designer.py:589-601 | one net's select and segments |
| Designer.PCBDesigner.WriteAllPads | Circuit_IQ_5/pcb_designer.py:486-492 | every component's pads at its grid position |
| Designer.PCBDesigner.WriteCopper | Circuit_IQ_5/pcb_designer.py:478-495 | the plane on internal layers, then the pads, then the traces |
| Designer.PCBDesigner.WriteGeometry | Circuit_IQ_5/pcb_designer.py:469-505 | the layer-specific geometry |
| Designer.PCBDesigner.WriteLayer | Circuit_IQ_5/pcb_designer.py:443-507 | one complete layer file, as LayerFileSpec describes it |
| Designer.PCBDesigner.GenerateGerberFiles | Circuit_IQ_5/pcb_designer.py:381-516 | one file per selected layer until a failure; the drill file only when all were finished; True exactly when everything finished |
| Designer.PCBDesigner.WriteDrillHeader | Circuit_IQ_5/pcb_designer.py:607-630 | the drill file gains exactly its ten header lines: comment, `M48`, `METRIC,TZ`, the four tools, `%`, `G90`, `G05` |
| Designer.PCBDesigner.WriteMountingHoles | Circuit_IQ_5/pcb_designer.py:632-641 | the drill file gains exactly the mounting tool and the four corner holes |
| Designer.PCBDesigner.WriteComponentBlock | Circuit_IQ_5/pcb_designer.py:644-657 | the drill file gains exactly one component's tool and pin holes |
| Designer.PCBDesigner.WriteComponentHoles | Circuit_IQ_5/pcb_designer.py:644-661 | each component's tool and holes |
| Designer.PCBDesigner.WriteNetVias | Circuit_IQ_5/pcb_designer.py:667-679 | one net's vias |
| Designer.PCBDesigner.WriteVias | Circuit_IQ_5/pcb_designer.py:664-679 | the vias of every net up to the first that raises |
| Designer.PCBDesigner.GenerateDrillFile | Circuit_IQ_5/pcb_designer.py:603-679 | the whole drill file, as DrillFileSpec describes it |
| Designer.PCBDesigner.GenerateDesign | Circuit_IQ_5/pcb_designer.py:314-379 | empty requirements raise before any file is written; otherwise the Gerber run happens, its result is ignored, and the returned paths, count, dimensions and suggestions are those of the analysed list |
| Designer.AllPadsStep | Circuit_IQ_5/pcb_designer.py:487-492 | one more component's pads extend those written so far |
| Designer.PadsStep | Circuit_IQ_5/pcb_designer.py:575-584 | one more pin's pad extends those written so far |
| Designer.RoutesStep | Circuit_IQ_5/pcb_designer.py:588-601 | one more net's traces extend those written so far |
| Designer.RoutesStopAt | Circuit_IQ_5/pcb_designer.py:597 | once a net raised, later nets add nothing |
| Designer.FilesSkip | Circuit_IQ_5/pcb_designer.py:440-441 | a skipped row writes no file |
| Designer.FilesStep | Circuit_IQ_5/pcb_designer.py:443-507 | a written row adds its file, and its result becomes the loop's |
| Designer.FilesStop | Circuit_IQ_5/pcb_designer.py:514-516 | once a layer file was left unfinished, no later layer is written |
| Designer.ViasStep | Circuit_IQ_5/pcb_designer.py:666-679 | one more net's vias extend those written so far |
| Designer.ViasStop | Circuit_IQ_5/pcb_designer.py:666-679 | once a net's vias raised, no later net adds a via |
| Designer.MaskRaisesNoDrill | Circuit_IQ_5/pcb_designer.py:498-500 | with a mask helper that raises, as the undefined one does, the F.Mask row is never skipped, so a run that gets that far fails and never writes the drill file |
| Designer.RowFinishes | Circuit_IQ_5/pcb_designer.py:438-507 | with finishing helpers every row gives a finished layer file |
| Designer.FilesFinish | Circuit_IQ_5/pcb_designer.py:438-507 | with finishing helpers the loop writes one file per selected row, in table order |
| Designer.GerberRunComplete | Circuit_IQ_5/pcb_designer.py:381-516 | with mask and silkscreen helpers that finish, every selected layer is written in order and the drill file follows; the run succeeds exactly when the drill file finishes |
| ComponentTypes.MatchFrom | Circuit_IQ_5/datasheet_extractor.py:326-328 | the match lies in the scanned part of the table |
| ComponentTypes.MatchFromSpec | Circuit_IQ_5/datasheet_extractor.py:326-328 | the declared text maps to the first entry in table order with a keyword in it, and to none only when no entry has one |
| ComponentTypes.MatchDeclared | Circuit_IQ_5/datasheet_extractor.py:326-328 | the table loop returns the first matching entry |
| ComponentTypes.DeclaredWithU | Circuit_IQ_5/datasheet_extractor.py:47 | the one-letter keyword `U` makes any declared type containing `u` a regulator |
| ComponentTypes.MissingChar | Circuit_IQ_5/datasheet_extractor.py:327 | a keyword with a character the text lacks does not occur in it |
| ComponentTypes.LetterIn | Circuit_IQ_5/datasheet_extractor.py:327 | a one-letter keyword occurs in any text holding its lower-case letter |
| ComponentTypes.NotRegulator | Circuit_IQ_5/datasheet_extractor.py:47 | no regulator keyword occurs in a text without `g`, `d`, `u` or `7` |
| ComponentTypes.DeclaredWithR | Circuit_IQ_5/datasheet_extractor.py:46-48 | a declared type with `r` and without `g`, `d`, `u`, `7` is read as a resistor ("microcontroller" and "connector" among them) |
| ComponentTypes.NotFirstThree | Circuit_IQ_5/datasheet_extractor.py:47-49 | without the listed characters no regulator, resistor or capacitor keyword occurs |
| ComponentTypes.NoKeywordOf | Circuit_IQ_5/datasheet_extractor.py:327 | keywords each missing a character of the text do not occur in it |
| ComponentTypes.DeclaredWithL | Circuit_IQ_5/datasheet_extractor.py:46-52 | a declared type with `l` and none of those characters ("led" among them) is read as an inductor |
| ComponentTypes.DeclaredOf | Circuit_IQ_5/datasheet_extractor.py:322-328 | a capture that maps names an entry of the table |
| ComponentTypes.DeclaredEach | Circuit_IQ_5/datasheet_extractor.py:321-328 | the mapping of each capture, in pattern order |
| ComponentTypes.DeclaredType | Circuit_IQ_5/datasheet_extractor.py:321-328 | a declared result names an entry of the table |
| ComponentTypes.DeclaredTypeStep | Circuit_IQ_5/datasheet_extractor.py:321-328 | the first capture decides when it maps, and the rest decide otherwise |
| ComponentTypes.DeclaredTypeSpec | Circuit_IQ_5/datasheet_extractor.py:321-328 | the result is the mapping of the first capture that maps, and there is none only when none maps |
| ComponentTypes.ScoreUpToSpec | Circuit_IQ_5/datasheet_extractor.py:333 | a score is positive exactly when some keyword occurs, and is at most the keyword count |
| ComponentTypes.BestUpTo | Circuit_IQ_5/datasheet_extractor.py:338-339 | the chosen entry is among those considered |
| ComponentTypes.BestUpToSpec | Circuit_IQ_5/datasheet_extractor.py:331-341 | the best entry has the highest score, strictly higher than every earlier entry; there is none exactly when all scores are zero |
| ComponentTypes.Scores | Circuit_IQ_5/datasheet_extractor.py:332-335 | one score per table entry |
| ComponentTypes.ScoringFallback | Circuit_IQ_5/datasheet_extractor.py:330-341 | without a usable declaration, the earliest entry with the highest keyword score wins, and none when no keyword occurs |
| ComponentTypes.DetermineComponentType | Circuit_IQ_5/datasheet_extractor.py:311-341 | the declaration loop first, then the scoring, agreeing with the specification |
| ComponentTypes.FirstDeclared | Circuit_IQ_5/datasheet_extractor.py:321-328 | the declaration loop stops at the first capture that maps |
| ComponentTypes.ScoreAll | Circuit_IQ_5/datasheet_extractor.py:331-335 | the scoring loop computes every entry's score |
| ComponentTypes.PickBest | Circuit_IQ_5/datasheet_extractor.py:338-339 | the `max` keeps the earliest entry among equal scores |
| ComponentTypes.CountKeywords | Circuit_IQ_5/datasheet_extractor.py:333 | the count of keywords occurring in the text |
| Parameters.MaxOf | Circuit_IQ_5/datasheet_extractor.py:245 | the maximum is one of the references and bounds all of them |
| Parameters.PinCountSpec | Circuit_IQ_5/datasheet_extractor.py:226-252 | the first explicit statement wins; otherwise the largest `Pin N` reference; otherwise the package number |
| Parameters.ExtractPinCount | Circuit_IQ_5/datasheet_extractor.py:237-252 | the pattern loop returns at the first match, agreeing with the specification |
| Parameters.NoTInDecimal | Circuit_IQ_5/datasheet_extractor.py:278 | a decimal number holds no `t` |
| Parameters.NoTInPart | Circuit_IQ_5/datasheet_extractor.py:278-296 | a number with its unit holds no `t`, so a range splits at its first `t` |
| Parameters.RangeFormat | Circuit_IQ_5/datasheet_extractor.py:278-296 | two parts joined by `to` match the range format |
| Parameters.RemoveCharConcat | Circuit_IQ_5/datasheet_extractor.py:277 | removing spaces distributes over concatenation |
| Parameters.DecimalNoSpace | Circuit_IQ_5/datasheet_extractor.py:277 | removing spaces leaves a decimal number unchanged |
| Parameters.NoSpaceConcat | Circuit_IQ_5/datasheet_extractor.py:277 | removing spaces leaves a space-free concatenation unchanged |
| Parameters.RemoveAround | Circuit_IQ_5/datasheet_extractor.py:277 | removing a character touches only the middle when the ends lack it |
| Parameters.SpacesAroundTo | Circuit_IQ_5/datasheet_extractor.py:277 | removing the spaces of `a to b` gives `atob` |
| Parameters.RemoveSpacesOfTo | Circuit_IQ_5/datasheet_extractor.py:277 | `" to "` without spaces is `to` |
| Parameters.StoredValid | Circuit_IQ_5/datasheet_extractor.py:274-298 | a stored single value or range of space-free parts passes validation |
| Parameters.WithUnit | Circuit_IQ_5/datasheet_extractor.py:195-208 | a number followed by its unit is a valid part |
| Parameters.VoltageTextValid | Circuit_IQ_5/datasheet_extractor.py:197-205 | the voltage text the extractor stores from well-formed captures passes validation |
| Parameters.TemperatureTextValid | Circuit_IQ_5/datasheet_extractor.py:195-203 | likewise for a temperature, whose captures may carry a minus sign |
| Parameters.CurrentTextValid | Circuit_IQ_5/datasheet_extractor.py:199-208 | likewise for a current, in mA or A |
| Parameters.MalformedVoltageDropped | Circuit_IQ_5/datasheet_extractor.py:76-78 | a voltage captured by `[\d\.]+` but not a well-formed number is stored and then dropped |
| Parameters.MalformedCaptures | Circuit_IQ_5/datasheet_extractor.py:76-78 | "1.2.3" and ".5" are captures of that kind |
| Parameters.ChecksLocal | Circuit_IQ_5/datasheet_extractor.py:260-309 | each check touches only its own key |
| Parameters.Stages | Circuit_IQ_5/datasheet_extractor.py:260-309 | seven dictionaries lead from the input to the validated one, one check at a time |
| Parameters.CarriedThrough | Circuit_IQ_5/datasheet_extractor.py:260-309 | a key is carried unchanged through every check but its own |
| Parameters.ValidatedOthers | Circuit_IQ_5/datasheet_extractor.py:254-309 | keys validation does not look at are left as they were |
| Parameters.ValidatedPins | Circuit_IQ_5/datasheet_extractor.py:300-309 | `pins` survives exactly when it reads as an integer from 1 to 1000, and is then stored as that integer |
| Parameters.ValidatedNames | Circuit_IQ_5/datasheet_extractor.py:260-270 | part number and package survive, unchanged, exactly when they are strings of at least two characters |
| Parameters.ValidatedQuantities | Circuit_IQ_5/datasheet_extractor.py:272-298 | a quantity survives exactly when it is not a string or its space-free form matches, and keeps its spaces |
| Parameters.ValidatedIdempotent | Circuit_IQ_5/datasheet_extractor.py:254-309 | validating twice changes nothing more |
| Parameters.ParameterSet.constructor | Circuit_IQ_5/datasheet_extractor.py:178 | the dictionary starts with the given entries |
| Parameters.ParameterSet.Validate | Circuit_IQ_5/datasheet_extractor.py:254-309 | the in-place deletions leave the validated dictionary |
| Parameters.ParameterSet.DropBadName | Circuit_IQ_5/datasheet_extractor.py:260-270 | one name check, in place |
| Parameters.ParameterSet.DropMalformed | Circuit_IQ_5/datasheet_extractor.py:272-298 | one quantity check, in place |
| Parameters.ParameterSet.NormalizePins | Circuit_IQ_5/datasheet_extractor.py:300-309 | the pin check, in place |
| Parameters.ProcessDatasheetSpec | Circuit_IQ_5/datasheet_extractor.py:401-435 | an empty source is an error whatever extraction would give; any other source reports the extraction's outcome |
| PinDetection.LowerIdempotent | Circuit_IQ_5/datasheet_extractor.py:390 | lower-casing twice is lower-casing once |
| PinDetection.CategorizeIgnoresCase | Circuit_IQ_5/datasheet_extractor.py:388-399 | the category does not depend on letter case |
| PinDetection.VccIsPower | Circuit_IQ_5/datasheet_extractor.py:392-393 | a description naming a supply is a power pin, whatever else it says |
| PinDetection.CategoryPriority | Circuit_IQ_5/datasheet_extractor.py:388-399 | ground only without power terms, io only without power or ground terms, other only without any term |
| PinDetection.MapSeq | Circuit_IQ_5/datasheet_extractor.py:356-371 | the mapped list keeps length and order |
| PinDetection.CollectedSpec | Circuit_IQ_5/datasheet_extractor.py:355-371 | the alternative format is used only when the primary one found nothing; the entries are exactly the captures in order |
| PinDetection.Insert | Circuit_IQ_5/datasheet_extractor.py:374 | insertion adds one entry |
| PinDetection.SortByNumber | Circuit_IQ_5/datasheet_extractor.py:374 | the sort keeps the length |
| PinDetection.WithNumberCons | Circuit_IQ_5/datasheet_extractor.py:374 | the entries with a given number, split at the head |
| PinDetection.WithNumberConcat | Circuit_IQ_5/datasheet_extractor.py:374 | the entries with a given number, split at any point |
| PinDetection.WithNumberNone | Circuit_IQ_5/datasheet_extractor.py:374 | a list in which no entry has number n contributes none |
| PinDetection.InsertMultiset | Circuit_IQ_5/datasheet_extractor.py:374 | insertion adds exactly the new entry |
| PinDetection.InsertSorted | Circuit_IQ_5/datasheet_extractor.py:374 | inserting into a sorted list keeps it sorted |
| PinDetection.InsertStable | Circuit_IQ_5/datasheet_extractor.py:374 | an inserted entry lands after the entries with its number |
| PinDetection.SortByNumberSpec | Circuit_IQ_5/datasheet_extractor.py:374 | ascending pin numbers, the same entries, and equal numbers in their original order |
| PinDetection.OfCategorySpec | Circuit_IQ_5/datasheet_extractor.py:377-379 | a group holds exactly the entries of its category |
| PinDetection.OfCategoryConcat | Circuit_IQ_5/datasheet_extractor.py:377-379 | grouping a concatenation groups each part and keeps them in order, so a group is an order-preserving filter of the list |
| PinDetection.OfCategoryBound | Circuit_IQ_5/datasheet_extractor.py:377-379 | a lower bound on the pin numbers of the list bounds those of each group |
| PinDetection.OfCategorySorted | Circuit_IQ_5/datasheet_extractor.py:374-379 | a group of a list sorted by pin number is itself sorted by pin number |
| PinDetection.OfCategorySub | Circuit_IQ_5/datasheet_extractor.py:377-379 | a group takes nothing that is not in the list, and nothing more often |
| PinDetection.GroupsPartition | Circuit_IQ_5/datasheet_extractor.py:377-379 | the four categories' group sizes add up to the list length |
| PinDetection.DetectedSpec | Circuit_IQ_5/datasheet_extractor.py:343-386 | `all_pins` is the collected list sorted stably; each group holds exactly its category's pins and is sorted by pin number, as a filter of `all_pins`; other pins are only in `all_pins` |
| PinDetection.CollectPrimary | Circuit_IQ_5/datasheet_extractor.py:356-361 | the primary loop appends one entry per capture |
| PinDetection.CollectAlt | Circuit_IQ_5/datasheet_extractor.py:364-371 | the alternative loop appends one named entry per capture |
| PinDetection.DetectConnections | Circuit_IQ_5/datasheet_extractor.py:343-386 | collection, sort and grouping agree with the specification |
| SignalChecks.HighSpeedConcat | Circuit_IQ_5/test_extractor.py:49-52 | the flagged labels keep the pin list's order |
| SignalChecks.HighSpeedLabelsBound | Circuit_IQ_5/test_extractor.py:49-52 | there are never more labels than pins |
| SignalChecks.HighSpeedLabelsSpec | Circuit_IQ_5/test_extractor.py:46-52 | there is a label exactly when some pin description holds a high-speed keyword |
| SignalChecks.LabelSpec | Circuit_IQ_5/test_extractor.py:52-55 | a flagged pin's label is its number in decimal (parsing back to it), or `unknown` |
| SignalChecks.SignalWarningsSpec | Circuit_IQ_5/test_extractor.py:39-58 | at most one warning; none unless the type is microcontroller, processor or fpga; one exactly when such a part has a high-speed pin |
| SignalChecks.CheckSignalIntegrity | Circuit_IQ_5/test_extractor.py:39-58 | the loop agrees with the specification |
| SignalChecks.ComponentWarningsSpec | Circuit_IQ_5/test_extractor.py:3-37 | the pin warning appears exactly when `pins` is a number above 100, between the voltage and current warnings |
| SignalChecks.ValidateComponentParams | Circuit_IQ_5/test_extractor.py:3-37 | the checks in order agree with the specification |
| Config.EnvVar | Circuit_IQ_5/app.py:46-59 | each variable is the key with the `CIRCUIT_IQ_` prefix |
| Config.ConvertInt | Circuit_IQ_5/app.py:65-66 | an integer key converts exactly when its text parses, and `str(n)` converts back to n |
| Config.ConvertDebug | Circuit_IQ_5/app.py:67-68 | DEBUG never fails and is true only for a case-insensitive `true` |
| Config.ConvertOrigins | Circuit_IQ_5/app.py:69-70 | ALLOWED_ORIGINS becomes a non-empty list of comma-free pieces that join back to the text |
| Config.ApplyEnvFails | Circuit_IQ_5/app.py:61-71 | the overrides fail exactly when some present variable fails to convert |
| Config.ApplyEnvKeeps | Circuit_IQ_5/app.py:61-71 | a key without a set variable keeps its value |
| Config.ApplyEnvSets | Circuit_IQ_5/app.py:61-71 | a key with a set variable gets that variable's converted value |
| Config.KeysDistinct | Circuit_IQ_5/app.py:46-59 | no two overridable keys coincide |
| Config.LoadedPrecedence | Circuit_IQ_5/app.py:17-71 | an environment variable wins; otherwise a non-empty YAML's value; otherwise the default; no other key appears |
| Config.ConvertFails | Circuit_IQ_5/app.py:64-70 | only an integer key's conversion fails, and only on a non-integer |
| Config.ApplyEnvFailsInt | Circuit_IQ_5/app.py:61-71 | the overrides fail exactly when an integer key's variable holds a non-integer |
| Config.LoadedFails | Circuit_IQ_5/app.py:17-71 | the load fails exactly when an integer key's variable is set to a non-integer |
| Config.OverrideFromEnv | Circuit_IQ_5/app.py:61-71 | the loop agrees with the specification |
| Config.LoadConfig | Circuit_IQ_5/app.py:17-71 | defaults, YAML and environment combine as specified |
| Api.DecideSpec | Circuit_IQ_5/app.py:146-165 | 401 "API key required" for a missing or empty key, 401 "Invalid API key" for an unknown one; otherwise the endpoint runs and exactly one usage record is logged, successful exactly when it returned |
| Api.UsageLog.constructor | Circuit_IQ_5/app.py:132-143 | a log with the given records |
| Api.UsageLog.Append | Circuit_IQ_5/app.py:141-142 | a record is appended at the end |
| Api.RequireApiKey | Circuit_IQ_5/app.py:146-165 | the reply is the gate's decision, and the log gains exactly its usage record |
| Api.Bump | Circuit_IQ_5/app.py:505-511 | counting a call leaves at least one endpoint |
| Api.BumpSums | Circuit_IQ_5/app.py:505-511 | one call adds one to the total and, when it succeeded, one to the successful sum |
| Api.BumpBounds | Circuit_IQ_5/app.py:505-511 | every endpoint keeps 1 ≤ total and successful ≤ total |
| Api.BumpNames | Circuit_IQ_5/app.py:506-507 | a new endpoint is added at the end, and a known one adds no name |
| Api.BumpTotal | Circuit_IQ_5/app.py:509 | only the called endpoint's total grows, by one |
| Api.DistinctAppend | Circuit_IQ_5/app.py:506-507 | appending a new name keeps the names distinct |
| Api.TallyConsistent | Circuit_IQ_5/app.py:494-511 | the statistics are consistent: bounded counts, distinct endpoints, endpoint sums equal to the totals |
| Api.TallyCounts | Circuit_IQ_5/app.py:494-511 | the totals count exactly the key's calls, its successful calls and its calls per endpoint |
| Api.GetUsage | Circuit_IQ_5/app.py:497-511 | the loop agrees with the tally |
| Api.UsageReply | Circuit_IQ_5/app.py:496-519 | an error exactly when the log cannot be read; otherwise consistent statistics counting the key's calls |
| Api.ListingConcat | Circuit_IQ_5/app.py:354-360 | the listing keeps the directory's order |
| Api.ListingSpec | Circuit_IQ_5/app.py:354-360 | every listed file is a `.gbr`/`.drl` name from the directory with its URL, and every such name is listed |
| Api.UpperEndNotListed | Circuit_IQ_5/app.py:355 | a name ending in a capital letter is never listed |
| Api.LayerFilesUpper | Circuit_IQ_5/pcb_designer.py:418-443 | every layer file name ends in an upper-case letter |
| Api.GeneratedListing | Circuit_IQ_5/app.py:350-360 | in a directory the generator filled, only `board.drl` is listed |
| Api.SplitHead | Circuit_IQ_5/app.py:358 | the first piece of a split is the text before the separator |
| Api.DescribedEntry | Circuit_IQ_5/app.py:356-359 | the frontend describes `stem.ext` as "Gerber file for stem layer", and the API listing gives no description |
| Api.ListGerberFiles | Circuit_IQ_5/app.py:350-360 | the loop builds the listing of the directory, or none without one |
| Api.Basename | Circuit_IQ_5/app.py:347 | `basename` is a slash-free suffix of the path |
| Api.NotInConcat | Circuit_IQ_5/app.py:347 | a character absent from both parts is absent from their concatenation |
| Api.BasenameOfJoin | Circuit_IQ_5/app.py:347 | the basename of `dir/name` is `name` |
| Api.ZipUrlSpec | Circuit_IQ_5/app.py:345-348 | no archive URL exactly when the archive path is missing or empty; the generator's archive links as `/results/<id>/<project>_gerber.zip` |

## Left out

- The Flask routes, request parsing, JSON responses, CORS, caching, compression, `/register`,
  `/health`, preview images and the HTML frontend are not modelled: they are I/O around the core.
- `_create_gerber_zip` (`os.walk`, `zipfile`) is reduced to its outcome, `archiveOk`.
- `_generate_preview`, `_generate_silkscreen`, `_get_component_position` and `_get_pin_position`
  are not defined in the repository. The position helpers are parameters (`Helpers`). The
  preview's failure is an input. What the silkscreen writes is an input guarded by `HelpersClean`.
- As written, the position helpers raise AttributeError as well: `_get_component_position` at the first
  component of F.Cu (pcb_designer.py:489) and `_get_pin_position` at the first routed net. The model
  takes them as supplied functions, so it does not capture those raises.
- `_generate_solder_mask` is not defined either; see the finding below.
- Designer.PCBDesigner.GenerateDesign: the preview's failure is the input `preview`. As written,
  `_generate_preview` is undefined, so every call with non-empty requirements raises there.
- Designer.PCBDesigner.GenerateDesign: the dimensions are returned as two reals. The source formats
  them with an f-string, which prints `100mm` for an int and `100.0mm` for a float; that text is not
  modelled.
- `Components.ConnValue`: lists of pin dicts (as `detect_component_connections` groups them), floats,
  mixed lists and None have no case. A list of dicts behaves like `Names`: routing hands its
  elements to the pin helper, and the via arithmetic raises TypeError on the first.
- The creation timestamp (`datetime.now()`) and the result identifiers (`time.time()`) are inputs.
  One timestamp serves every layer file, while the source reads the clock once per file
  (pcb_designer.py:447): the model takes those timestamps as equal.
- Regular-expression matching is not modelled. The captures are inputs to the extractor
  functions:
  - the declared type, the pin-count captures, the `Pin N` references, the package number;
  - the pin-description matches;
  - the parameter captures of `extract_parameters`.
- `extract_parameters`'s outer pattern loop and `process_datasheets` (file discovery and merging
  results) are not modelled. PDF reading, spaCy, the text cache and text cleaning are not
  modelled either.
- Floating point: board sizes and coordinates are reals, and `int(v*1e4)` is truncation of the
  exact product. Binary rounding of `1e4` products is not modelled.
- The float parsing in `validate_component_params` is not modelled: the voltage and current
  warnings are inputs.
- `Text.Lower`: lower-cases ASCII capitals only. Python's Unicode case mapping (for `µ` and `Ω`
  in the keyword tables) is not modelled.
- `Text.Strip` and the `Parameters` formats: whitespace (`IsSpace`) and digits (`IsDigit`, `\d`)
  are ASCII only. Python's `str.strip()` also removes Unicode spaces such as U+00A0 and
  U+2000–U+200A, and `\d` matches every Unicode decimal digit, so a voltage such as "５V"
  (fullwidth 5) survives validation in the source but is dropped by `Parameters.Validated`.
- `Text.ParseInt`: accepts an optional sign followed by ASCII digits. Python's `int()` also
  strips surrounding whitespace and allows `_` separators; those inputs count as failures here.
- `Parameters.CurrentTextValid`: the unit is "mA" when the whole match holds `mA`, and "A"
  otherwise. A `µA` or `uA` reading is therefore stored as "A", as the source does.
- The `$` anchor of the validation patterns also accepts a trailing newline. The model's formats
  reject it.
- `Config`: YAML parsing is not modelled. The parsed mapping is an input, and a parse error
  counts as no file.
- `Api`: the API key file's JSON is an input (a set of keys). A read error gives the empty set,
  as `load_api_keys` does. Errors while writing the usage log are swallowed by the source and
  not modelled. The log is read as records: a malformed line is an unreadable log.
- `Api.Tally`: the endpoints dictionary is modelled as a sequence in first-seen order, which
  is the order Python dictionaries keep.
- `Api.ListGerberFiles`: the order of `os.listdir` is an input.
- The Gerber and Excellon texts are modelled line by line. Conformance to the Gerber X2 and
  Excellon standards beyond the lines written is not modelled.

## Findings

| source | as written | input that shows it | evidently intended | confidence | as-written member | corrected member |
|---|---|---|---|---|---|---|
| Circuit_IQ_5/pcb_designer.py:498-500 | the F.Mask and B.Mask rows call `self._generate_solder_mask`, which `PCBDesigner` does not define. F.Cu comes first and calls the equally undefined `_get_component_position` for each component (pcb_designer.py:489), so an AttributeError ends the layer loop at F.Cu when there is any component, and at F.Mask otherwise. Either way `_generate_gerber_files` returns False and `board.drl` is never written; `generate_design` then raises at the undefined `_generate_preview` (pcb_designer.py:366) and never returns its dictionary | `generate_design` with the requirements "abc" (no keyword matches, so nothing is appended), default board parameters and no components: F.Cu holds only its frame and the loop stops at F.Mask | a solder-mask writer (and position and preview helpers) that finish, so that all selected layers and the drill file are written | not executed | Designer.MaskRaisesNoDrill | Designer.GerberRunComplete |
