/**
 Searching a buffer for device trees (src/plugins/analysis/device_tree/internal/device_tree_utils.py,
 Devicetree Specification sections 5.2 and 5.4).
 */
module DeviceTree {
  import opened Basics
  import opened Strings

  type Byte = n: nat | n < 256

  type Bytes = seq<Byte>

  const MAGIC: Bytes := [0xD0, 0x0D, 0xFE, 0xED]
  const HEADER_SIZE := 40
  const FDT_PROP: Bytes := [0, 0, 0, 3]

  // ----- Python's slices and searches -----

  /** `raw[n:]`, one byte after the other. */
  function Drop(raw: Bytes, n: nat): (rest: Bytes)
    ensures |rest| == if n <= |raw| then |raw| - n else 0
  {
    if n == 0 || raw == [] then raw else Drop(raw[1..], n - 1)
  }

  lemma {:induction false} DropIsSlice(raw: Bytes, n: nat)
    ensures Drop(raw, n) == if n <= |raw| then raw[n..] else []
    decreases n
  {
    if n > 0 && raw != [] {
      DropIsSlice(raw[1..], n - 1);
    }
  }

  lemma {:induction false} DropTwice(raw: Bytes, a: nat, b: nat)
    ensures Drop(Drop(raw, a), b) == Drop(raw, a + b)
    decreases a
  {
    if a > 0 && raw != [] {
      DropTwice(raw[1..], a - 1, b);
    }
  }

  predicate IsAt(raw: Bytes, pattern: Bytes, i: int) {
    0 <= i && i + |pattern| <= |raw| && pattern <= Drop(raw, i)
  }

  /** `raw.find(pattern)`: the first position, or -1. */
  function Find(raw: Bytes, pattern: Bytes): (i: int)
    ensures i == -1 || IsAt(raw, pattern, i)
    ensures forall j :: IsAt(raw, pattern, j) ==> 0 <= i <= j
  {
    FindFromIsFirst(raw, pattern, 0);
    FindFrom(raw, pattern, 0)
  }

  function FindFrom(raw: Bytes, pattern: Bytes, start: nat): (i: int)
    ensures i == -1 || start <= i <= |raw| - |pattern|
    decreases |raw| - start
  {
    if start + |pattern| > |raw| then -1
    else if IsAt(raw, pattern, start) then start
    else FindFrom(raw, pattern, start + 1)
  }

  lemma {:induction false} FindFromIsFirst(raw: Bytes, pattern: Bytes, start: nat)
    ensures var i := FindFrom(raw, pattern, start);
            && (i == -1 || IsAt(raw, pattern, i))
            && forall j :: IsAt(raw, pattern, j) && start <= j ==> start <= i <= j
    decreases |raw| - start
  {
    if start + |pattern| <= |raw| && !IsAt(raw, pattern, start) {
      FindFromIsFirst(raw, pattern, start + 1);
    }
  }

  /** `raw[lo:hi]` */
  function Slice(raw: Bytes, lo: nat, hi: nat): Bytes {
    var rest := Drop(raw, lo);
    if hi <= lo then [] else if hi - lo <= |rest| then rest[..hi - lo] else rest
  }

  /** `int.from_bytes(raw, byteorder='big')` */
  function BytesToInt(raw: Bytes): nat {
    FirstBytesToInt(raw, |raw|)
  }

  function FirstBytesToInt(raw: Bytes, n: nat): nat
    requires n <= |raw|
  {
    if n == 0 then 0 else FirstBytesToInt(raw, n - 1) * 256 + raw[n - 1]
  }

  // ----- Scanning -----

  /** `get_size()` of the property that `raw` starts with. */
  function PropertySize(raw: Bytes): nat {
    BytesToInt(Slice(raw, 4, 8)) + 12
  }

  /** What is looked for, and how far the scan goes on after each find. */
  datatype Target = Trees | Props

  function Pattern(t: Target): (p: Bytes)
    ensures |p| == 4
  {
    if t.Trees? then MAGIC else FDT_PROP
  }

  function Skip(t: Target, raw: Bytes): (n: nat)
    ensures n >= 12
  {
    if t.Trees? then HEADER_SIZE else PropertySize(raw)
  }

  /** Where the scan goes on after a position. */
  function Next(raw: Bytes, t: Target, v: nat): (n: nat)
    ensures n >= v + 12
  {
    v + Skip(t, Drop(raw, v))
  }

  /** The positions that are found when the search starts at `base` and goes on behind each find. */
  function Scan(raw: Bytes, t: Target, base: nat): (found: seq<nat>)
    decreases |raw| - base
  {
    var i := FindFrom(raw, Pattern(t), base);
    if i == -1 then [] else [i] + Scan(raw, t, Next(raw, t, i))
  }

  /** From `base` on, every position found is the first one of the pattern since the scan went on. */
  ghost predicate IsScan(raw: Bytes, t: Target, found: seq<nat>, base: nat)
    decreases |found|
  {
    if found == [] then NoneBetween(raw, Pattern(t), base, |raw|)
    else
      && base <= found[0] && IsAt(raw, Pattern(t), found[0]) && NoneBetween(raw, Pattern(t), base, found[0])
      && IsScan(raw, t, found[1..], Next(raw, t, found[0]))
  }

  ghost predicate NoneBetween(raw: Bytes, pattern: Bytes, lo: nat, hi: nat) {
    forall i :: lo <= i < hi ==> !IsAt(raw, pattern, i)
  }

  lemma IsAtDropped(raw: Bytes, pattern: Bytes, n: nat, i: nat)
    requires pattern != []
    ensures IsAt(Drop(raw, n), pattern, i) <==> IsAt(raw, pattern, n + i)
  {
    DropTwice(raw, n, i);
  }

  /** Searching in the rest of a buffer, in terms of the whole buffer. */
  lemma FindInDropped(whole: Bytes, raw: Bytes, pattern: Bytes, base: nat, i: int)
    requires pattern != [] && raw == Drop(whole, base) && i == Find(raw, pattern)
    ensures FindFrom(whole, pattern, base) == if i == -1 then -1 else base + i
    ensures i != -1 ==> 0 <= i < |raw|
  {
    var j := FindFrom(whole, pattern, base);
    FindFromIsFirst(whole, pattern, base);
    if j != -1 {
      IsAtDropped(whole, pattern, base, j - base);
    }
    if i != -1 {
      IsAtDropped(whole, pattern, base, i);
    }
  }

  lemma {:induction false} ScanIsScan(raw: Bytes, t: Target, base: nat)
    ensures IsScan(raw, t, Scan(raw, t, base), base)
    decreases |raw| - base
  {
    var i := FindFrom(raw, Pattern(t), base);
    FindFromIsFirst(raw, Pattern(t), base);
    if i != -1 {
      ScanIsScan(raw, t, Next(raw, t, i));
      assert Scan(raw, t, base)[1..] == Scan(raw, t, Next(raw, t, i));
    }
  }

  /** There is only one such list of positions. */
  lemma {:induction false} ScanIsUnique(raw: Bytes, t: Target, a: seq<nat>, b: seq<nat>, base: nat)
    requires IsScan(raw, t, a, base) && IsScan(raw, t, b, base)
    ensures a == b
    decreases |a|
  {
    if a != [] && b != [] {
      assert a[0] == b[0];
      ScanIsUnique(raw, t, a[1..], b[1..], Next(raw, t, a[0]));
      assert a == [a[0]] + a[1..] && b == [b[0]] + b[1..];
    }
  }

  /** Each position found is one of the pattern, and the next one keeps its distance. */
  lemma {:induction false} ScanPosition(raw: Bytes, t: Target, found: seq<nat>, base: nat, k: nat)
    requires IsScan(raw, t, found, base) && k < |found|
    ensures base <= found[k] && IsAt(raw, Pattern(t), found[k])
    ensures k + 1 < |found| ==> Next(raw, t, found[k]) <= found[k + 1]
    decreases k
  {
    if k > 0 {
      ScanPosition(raw, t, found[1..], Next(raw, t, found[0]), k - 1);
    }
  }

  lemma ScanTail(raw: Bytes, t: Target, found: seq<nat>, base: nat, i: nat)
    requires IsScan(raw, t, found, base) && IsAt(raw, Pattern(t), i) && base <= i
    ensures found != [] && found[0] <= i && IsScan(raw, t, found[1..], Next(raw, t, found[0]))
  {
    assert i < |raw|;
  }

  /** A pattern that is not found lies in what was skipped after one that was. */
  lemma {:induction false} ScanCovers(raw: Bytes, t: Target, found: seq<nat>, base: nat, i: nat)
    returns (v: nat)
    requires IsScan(raw, t, found, base) && IsAt(raw, Pattern(t), i) && base <= i
    ensures v in found && v <= i < Next(raw, t, v)
    decreases |found|
  {
    ScanTail(raw, t, found, base, i);
    v := found[0];
    if Next(raw, t, v) <= i {
      v := ScanCovers(raw, t, found[1..], Next(raw, t, v), i);
    }
  }

  // ----- Device trees in a buffer -----

  /** The nine fields after the magic. */
  datatype Header = Header(size: nat, structBlockOffset: nat, stringsBlockOffset: nat, memoryMapOffset: nat, version: nat,
                           oldestCompatibleVersion: nat, bootCpuId: nat, stringsBlockSize: nat, structBlockSize: nat)

  datatype Result<T> = Ok(value: T) | TypeError

  /** `chunked(raw, 4)`: the last chunk may be shorter. */
  function Chunked(raw: Bytes): (chunks: seq<Bytes>)
    ensures |chunks| == (|raw| + 3) / 4
  {
    if raw == [] then [] else if |raw| <= 4 then [raw] else [raw[..4]] + Chunked(raw[4..])
  }

  /** The constructor takes nine arguments, one per chunk. */
  function ParseDtbHeader(raw: Bytes): (r: Result<Header>)
    ensures r.Ok? <==> |raw| >= 37
  {
    var chunks := Chunked(Slice(raw, 4, HEADER_SIZE));
    if |chunks| != 9 then TypeError
    else
      var n := seq(9, i requires 0 <= i < 9 => BytesToInt(chunks[i]));
      Ok(Header(n[0], n[1], n[2], n[3], n[4], n[5], n[6], n[7], n[8]))
  }

  predicate HeaderHasIllegalValues(h: Header, maxSize: nat) {
    var values := [h.structBlockOffset, h.stringsBlockOffset, h.structBlockSize, h.stringsBlockSize];
    h.version > 20 || (exists n :: n in values && (n > maxSize || n > h.size)) || h.size > maxSize
  }

  /** What is reported about a device tree; its text comes from the device tree compiler. */
  datatype DeviceTree = DeviceTree(header: Header, text: string, model: Option<Bytes>, description: Option<Bytes>)

  /** A device tree compiler: it fails or returns a text. */
  type Compiler = Bytes -> Option<string>

  /** The blocks of a header that was accepted lie within the buffer. */
  lemma AcceptedSizes(h: Header, maxSize: nat)
    requires !HeaderHasIllegalValues(h, maxSize)
    ensures h.structBlockOffset <= h.size <= maxSize && h.stringsBlockOffset <= h.size && h.version <= 20
    ensures h.structBlockSize <= h.size && h.stringsBlockSize <= h.size
  {
    var values := [h.structBlockOffset, h.stringsBlockOffset, h.structBlockSize, h.stringsBlockSize];
    assert values[0] in values && values[1] in values && values[2] in values && values[3] in values;
  }

  // ----- The structure block -----

  datatype Property = Property(length: nat, nameOffset: nat, name: Option<Bytes>, value: Bytes)

  function Strip(raw: Bytes): Bytes {
    if raw == [] then []
    else if raw[0] == 0 then Strip(raw[1..])
    else if raw[|raw| - 1] == 0 then Strip(raw[..|raw| - 1])
    else raw
  }

  function PropertyAt(raw: Bytes, strings: map<int, Bytes>): Property {
    var length, nameOffset := BytesToInt(Slice(raw, 4, 8)), BytesToInt(Slice(raw, 8, 12));
    Property(length, nameOffset, if nameOffset in strings then Some(strings[nameOffset]) else None,
             Strip(Slice(raw, 12, 12 + length)))
  }

  /** The properties that a structure block yields, whatever the length fields say. */
  function Properties(raw: Bytes, strings: map<int, Bytes>): seq<Property>
    decreases |raw|
  {
    var i := Find(raw, FDT_PROP);
    if i == -1 then []
    else [PropertyAt(Drop(raw, i), strings)] + Properties(Drop(raw, i + PropertySize(Drop(raw, i))), strings)
  }

  class StructureBlock {
    var raw: Bytes
    const stringsByOffset: map<int, Bytes>

    constructor (raw: Bytes, stringsByOffset: map<int, Bytes>)
      ensures this.raw == raw && this.stringsByOffset == stringsByOffset
    {
      this.raw, this.stringsByOffset := raw, stringsByOffset;
    }

    /** One round of the iteration: it consumes the property, at least 12 bytes unless the buffer ends. */
    method Advance() returns (prop: Option<Property>)
      modifies this
      ensures var i := Find(old(raw), FDT_PROP);
              if i == -1 then prop == None && raw == old(raw)
              else prop == Some(PropertyAt(Drop(old(raw), i), stringsByOffset))
                   && raw == Drop(old(raw), i + PropertySize(Drop(old(raw), i)))
      ensures prop.Some? ==> raw == [] || |raw| + 12 <= |old(raw)|
    {
      var nextPropertyOffset := Find(raw, FDT_PROP);
      if nextPropertyOffset == -1 {
        return None;
      }
      var p := PropertyAt(Drop(raw, nextPropertyOffset), stringsByOffset);
      raw := Drop(raw, nextPropertyOffset + p.length + 12);
      prop := Some(p);
    }

    /** The whole iteration, which uses the block up. */
    method Iterate() returns (props: seq<Property>)
      modifies this
      ensures props == Properties(old(raw), stringsByOffset)
      ensures Find(raw, FDT_PROP) == -1
    {
      props := [];
      ghost var all := Properties(raw, stringsByOffset);
      while true
        invariant props + Properties(raw, stringsByOffset) == all
        decreases |raw|
      {
        ghost var before := raw;
        var prop := Advance();
        if prop.None? {
          break;
        }
        ConcatThree(props, [prop.value], Properties(raw, stringsByOffset));
        props := props + [prop.value];
      }
    }
  }

  /** A find in the rest of a buffer, and what follows it, in terms of the whole buffer. */
  lemma RestAdvances(raw: Bytes, rest: Bytes, t: Target, base: nat, i: nat)
    requires rest == Drop(raw, base) && i == Find(rest, Pattern(t))
    ensures FindFrom(raw, Pattern(t), base) == base + i && i < |rest| && Drop(rest, i) == Drop(raw, base + i)
    ensures Drop(rest, i + Skip(t, Drop(rest, i))) == Drop(raw, Next(raw, t, base + i))
  {
    FindInDropped(raw, rest, Pattern(t), base, i);
    DropTwice(raw, base, i);
    DropTwice(raw, base, i + Skip(t, Drop(rest, i)));
  }

  lemma ScanUnfold(raw: Bytes, t: Target, base: nat, v: nat)
    requires v == FindFrom(raw, Pattern(t), base)
    ensures Scan(raw, t, base) == [v] + Scan(raw, t, Next(raw, t, v))
  {
  }

  lemma PropertiesUnfold(raw: Bytes, i: nat, strings: map<int, Bytes>, head: Bytes, later: Bytes)
    requires i == Find(raw, FDT_PROP) && head == Drop(raw, i) && later == Drop(raw, i + PropertySize(head))
    ensures Properties(raw, strings) == [PropertyAt(head, strings)] + Properties(later, strings)
  {
  }

  /** The properties at the given positions. */
  function PropertiesAt(raw: Bytes, positions: seq<nat>, strings: map<int, Bytes>): (props: seq<Property>)
    ensures |props| == |positions|
  {
    if positions == [] then [] else [PropertyAt(Drop(raw, positions[0]), strings)] + PropertiesAt(raw, positions[1..], strings)
  }

  lemma PropertiesOnce(raw: Bytes, base: nat, i: nat, strings: map<int, Bytes>)
    requires i == Find(Drop(raw, base), FDT_PROP)
    ensures base + i < |raw|
    ensures var later := Next(raw, Props, base + i);
            && Properties(Drop(raw, base), strings) == [PropertyAt(Drop(raw, base + i), strings)] + Properties(Drop(raw, later), strings)
            && Scan(raw, Props, base) == [base + i] + Scan(raw, Props, later)
  {
    var rest := Drop(raw, base);
    RestAdvances(raw, rest, Props, base, i);
    PropertiesUnfold(rest, i, strings, Drop(raw, base + i), Drop(raw, Next(raw, Props, base + i)));
    ScanUnfold(raw, Props, base, base + i);
  }

  /** The properties are those at the positions of a scan, so no marker outside of a property is overlooked. */
  lemma {:induction false} PropertiesAreScanned(raw: Bytes, base: nat, strings: map<int, Bytes>)
    ensures Properties(Drop(raw, base), strings) == PropertiesAt(raw, Scan(raw, Props, base), strings)
    decreases |raw| - base
  {
    var rest := Drop(raw, base);
    var i := Find(rest, FDT_PROP);
    if i == -1 {
      FindInDropped(raw, rest, FDT_PROP, base, i);
    } else {
      PropertiesOnce(raw, base, i, strings);
      PropertiesAreScanned(raw, Next(raw, Props, base + i), strings);
      var v, more := base + i, Scan(raw, Props, Next(raw, Props, base + i));
      assert ([v] + more)[1..] == more;
    }
  }

  // ----- Analysing one device tree -----

  /** Non-empty strings by the first position at which they occur, even inside another string. */
  function StringsByOffset(block: Bytes, parts: seq<Bytes>): map<int, Bytes> {
    if parts == [] then map[]
    else
      var before, last := StringsByOffset(block, parts[..|parts| - 1]), parts[|parts| - 1];
      if last == [] then before else before[Find(block, last) := last]
  }

  const MODEL: Bytes := [0x6D, 0x6F, 0x64, 0x65, 0x6C]
  const DESCRIPTION: Bytes := [0x64, 0x65, 0x73, 0x63, 0x72, 0x69, 0x70, 0x74, 0x69, 0x6F, 0x6E]

  /** The values of all properties with the given name. */
  function Named(props: seq<Property>, name: Bytes): seq<Bytes> {
    if props == [] then []
    else
      var last := props[|props| - 1];
      Named(props[..|props| - 1], name) + (if last.name == Some(name) then [last.value] else [])
  }

  lemma NamedSnoc(props: seq<Property>, name: Bytes, i: nat)
    requires i < |props|
    ensures Named(props[..i + 1], name)
         == if props[i].name == Some(name) then Named(props[..i], name) + [props[i].value] else Named(props[..i], name)
  {
    assert props[..i + 1][..i] == props[..i];
  }

  /** The last model. */
  function ModelOf(props: seq<Property>): Option<Bytes> {
    var values := Named(props, MODEL);
    if values == [] then None else Some(values[|values| - 1])
  }

  /** The first description that is not empty, if there is one. */
  function DescriptionOf(props: seq<Property>): Option<Bytes> {
    FirstFilled(Named(props, DESCRIPTION))
  }

  function FirstFilled(values: seq<Bytes>): Option<Bytes> {
    if values == [] then None
    else if values[0] != [] || |values| == 1 then Some(values[0])
    else FirstFilled(values[1..])
  }

  /** Python's `not description` */
  predicate IsUnset(description: Option<Bytes>) {
    description.None? || description.value == []
  }

  lemma {:induction false} FirstFilledSnoc(values: seq<Bytes>, value: Bytes)
    ensures FirstFilled(values + [value])
         == if IsUnset(FirstFilled(values)) then Some(value) else FirstFilled(values)
  {
    if values == [] {
      assert [] + [value] == [value];
    } else {
      ConcatTail(values, [value]);
      if |values| == 1 {
        assert values[1..] + [value] == [value];
      } else {
        FirstFilledSnoc(values[1..], value);
      }
    }
  }

  method PickValues(props: seq<Property>) returns (description: Option<Bytes>, model: Option<Bytes>)
    ensures description == DescriptionOf(props) && model == ModelOf(props)
  {
    description, model := None, None;
    for i := 0 to |props|
      invariant description == DescriptionOf(props[..i]) && model == ModelOf(props[..i])
    {
      NamedSnoc(props, MODEL, i);
      NamedSnoc(props, DESCRIPTION, i);
      FirstFilledSnoc(Named(props[..i], DESCRIPTION), props[i].value);
      if props[i].name == Some(MODEL) {
        model := Some(props[i].value);
      }
      if IsUnset(description) && props[i].name == Some(DESCRIPTION) {
        description := Some(props[i].value);
      }
    }
    assert props[..|props|] == props;
  }

  function StringsIn(tree: Bytes, h: Header): map<int, Bytes> {
    var block := Slice(tree, h.stringsBlockOffset, h.stringsBlockOffset + h.stringsBlockSize);
    StringsByOffset(block, Split(block, 0))
  }

  function StructureIn(tree: Bytes, h: Header): Bytes {
    Slice(tree, h.structBlockOffset, h.structBlockOffset + h.structBlockSize)
  }

  function PropertiesIn(tree: Bytes, h: Header): seq<Property> {
    Properties(StructureIn(tree, h), StringsIn(tree, h))
  }

  /** Python's `not string_representation` */
  predicate NoText(text: Option<string>) {
    text.None? || text.value == ""
  }

  /** Nothing is reported for an unlikely header, or if the compiler fails or returns no text. */
  function Analyze(raw: Bytes, dtc: Compiler): Result<Option<DeviceTree>> {
    match ParseDtbHeader(raw)
    case TypeError => TypeError
    case Ok(h) =>
      var tree := Slice(raw, 0, h.size);
      if HeaderHasIllegalValues(h, |raw|) || NoText(dtc(tree)) then Ok(None)
      else
        var props := PropertiesIn(tree, h);
        Ok(Some(DeviceTree(h, dtc(tree).value, ModelOf(props), DescriptionOf(props))))
  }

  /** `_get_model_or_description(StructureBlock(structure, strings))` */
  method GetModelOrDescription(structure: Bytes, strings: map<int, Bytes>)
    returns (description: Option<Bytes>, model: Option<Bytes>)
    ensures description == DescriptionOf(Properties(structure, strings)) && model == ModelOf(Properties(structure, strings))
  {
    var block := new StructureBlock(structure, strings);
    var props := block.Iterate();
    description, model := PickValues(props);
  }

  method AnalyzeDeviceTree(raw: Bytes, dtc: Compiler) returns (r: Result<Option<DeviceTree>>)
    ensures r == Analyze(raw, dtc)
  {
    var header := ParseDtbHeader(raw);
    if header.TypeError? {
      return TypeError;
    }
    var h := header.value;
    if HeaderHasIllegalValues(h, |raw|) {
      return Ok(None);
    }
    var tree := Slice(raw, 0, h.size);
    var description, model := GetModelOrDescription(StructureIn(tree, h), StringsIn(tree, h));
    var text := dtc(tree);
    if NoText(text) {
      return Ok(None);
    }
    r := Ok(Some(DeviceTree(h, text.value, model, description)));
  }

  // ----- All device trees -----

  /** How one device tree is analysed. */
  type Analysis = Bytes -> Result<Option<DeviceTree>>

  function AnalysisWith(dtc: Compiler): (analyze: Analysis)
    ensures Performs(analyze, dtc)
  {
    raw => Analyze(raw, dtc)
  }

  /** The analysis is that of a buffer with this compiler. */
  ghost predicate Performs(analyze: Analysis, dtc: Compiler) {
    forall raw {:trigger Analyze(raw, dtc)} :: analyze(raw) == Analyze(raw, dtc)
  }

  datatype Found = Found(tree: DeviceTree, offset: nat)

  /** What the loop appends for one magic. */
  function Reported(r: Result<Option<DeviceTree>>, offset: nat): seq<Found> {
    if r.Ok? && r.value.Some? then [Found(r.value.value, offset)] else []
  }

  /** The device trees among the given positions. */
  function Dump(raw: Bytes, positions: seq<nat>, analyze: Analysis): seq<Found> {
    if positions == [] then []
    else
      Reported(analyze(Drop(raw, positions[0])), positions[0]) + Dump(raw, positions[1..], analyze)
  }

  /** At one of the positions, the analysis fails. */
  predicate Fails(raw: Bytes, positions: seq<nat>, analyze: Analysis) {
    positions != [] && (analyze(Drop(raw, positions[0])).TypeError? || Fails(raw, positions[1..], analyze))
  }

  function Prepend(trees: seq<Found>, r: Result<seq<Found>>): Result<seq<Found>> {
    if r.TypeError? then TypeError else Ok(trees + r.value)
  }

  /** What the loop returns for the rest of a buffer from an offset on. */
  function DumpRest(raw: Bytes, offset: nat, analyze: Analysis): Result<seq<Found>>
    decreases |raw|
  {
    var i := Find(raw, MAGIC);
    if i == -1 then Ok([])
    else
      var r := analyze(Drop(raw, i));
      if r.TypeError? then TypeError
      else Prepend(Reported(r, offset + i), DumpRest(Drop(Drop(raw, i), HEADER_SIZE), offset + i + HEADER_SIZE, analyze))
  }

  /** What it returns if it stops at the given positions. */
  function DumpAt(raw: Bytes, positions: seq<nat>, analyze: Analysis): Result<seq<Found>> {
    if Fails(raw, positions, analyze) then TypeError else Ok(Dump(raw, positions, analyze))
  }

  /** The loop over the buffer. */
  method DumpLoop(buffer: Bytes, dtc: Compiler, ghost analyze: Analysis) returns (r: Result<seq<Found>>)
    requires Performs(analyze, dtc)
    ensures r == DumpRest(buffer, 0, analyze)
  {
    var raw := buffer;
    var totalOffset: nat := 0;
    var trees := [];
    ghost var goal := DumpRest(buffer, 0, analyze);
    PrependNothing(goal);
    while Find(raw, MAGIC) != -1
      invariant Prepend(trees, DumpRest(raw, totalOffset, analyze)) == goal
      decreases |raw|
    {
      var i := Find(raw, MAGIC);
      DumpUnfold(raw, totalOffset, i, analyze, Drop(raw, i), Drop(Drop(raw, i), HEADER_SIZE));
      raw, totalOffset := Drop(raw, i), totalOffset + i;
      var result := AnalyzeWith(raw, dtc, analyze);
      if result.TypeError? {
        return TypeError;
      }
      PrependTwice(trees, Reported(result, totalOffset), DumpRest(Drop(raw, HEADER_SIZE), totalOffset + HEADER_SIZE, analyze));
      trees := trees + Reported(result, totalOffset);
      // only the header is skipped because device trees might be inside other device trees
      raw, totalOffset := Drop(raw, HEADER_SIZE), totalOffset + HEADER_SIZE;
    }
    PrependNothing(Ok(trees));
    r := Ok(trees);
  }

  method AnalyzeWith(raw: Bytes, dtc: Compiler, ghost analyze: Analysis) returns (r: Result<Option<DeviceTree>>)
    requires Performs(analyze, dtc)
    ensures r == analyze(raw)
  {
    r := AnalyzeDeviceTree(raw, dtc);
  }

  lemma PrependNothing(r: Result<seq<Found>>)
    ensures Prepend([], r) == r
    ensures r.Ok? ==> Prepend(r.value, Ok([])) == r
  {
    if r.Ok? {
      assert [] + r.value == r.value && r.value + [] == r.value;
    }
  }

  lemma PrependTwice(a: seq<Found>, b: seq<Found>, r: Result<seq<Found>>)
    ensures Prepend(a, Prepend(b, r)) == Prepend(a + b, r)
  {
    if r.Ok? {
      ConcatThree(a, b, r.value);
    }
  }

  lemma DumpOnce(raw: Bytes, base: nat, i: nat, analyze: Analysis)
    requires i == Find(Drop(raw, base), MAGIC)
    ensures base + i < |raw|
    ensures var r, later := analyze(Drop(raw, base + i)), base + i + HEADER_SIZE;
            && DumpRest(Drop(raw, base), base, analyze)
               == (if r.TypeError? then TypeError else Prepend(Reported(r, base + i), DumpRest(Drop(raw, later), later, analyze)))
            && Scan(raw, Trees, base) == [base + i] + Scan(raw, Trees, later)
  {
    var rest, later := Drop(raw, base), base + i + HEADER_SIZE;
    RestAdvances(raw, rest, Trees, base, i);
    DropTwice(raw, base + i, HEADER_SIZE);
    DumpUnfold(rest, base, i, analyze, Drop(raw, base + i), Drop(raw, later));
    ScanUnfold(raw, Trees, base, base + i);
  }

  /** The loop stops exactly at the positions of the scan. */
  lemma {:induction false} DumpFromPositions(raw: Bytes, base: nat, analyze: Analysis)
    ensures DumpRest(Drop(raw, base), base, analyze) == DumpAt(raw, Scan(raw, Trees, base), analyze)
    decreases |raw| - base
  {
    var rest := Drop(raw, base);
    var i := Find(rest, MAGIC);
    if i == -1 {
      FindInDropped(raw, rest, MAGIC, base, i);
    } else {
      var v, later := base + i, base + i + HEADER_SIZE;
      DumpOnce(raw, base, i, analyze);
      DumpFromPositions(raw, later, analyze);
      DumpStep(raw, v, Scan(raw, Trees, later), analyze, DumpRest(Drop(raw, later), later, analyze));
    }
  }

  lemma DumpUnfold(raw: Bytes, offset: nat, i: nat, analyze: Analysis, head: Bytes, later: Bytes)
    requires i == Find(raw, MAGIC) && head == Drop(raw, i) && later == Drop(head, HEADER_SIZE)
    ensures DumpRest(raw, offset, analyze)
         == if analyze(head).TypeError? then TypeError
            else Prepend(Reported(analyze(head), offset + i), DumpRest(later, offset + i + HEADER_SIZE, analyze))
  {
  }

  lemma DumpStep(raw: Bytes, v: nat, more: seq<nat>, analyze: Analysis, later: Result<seq<Found>>)
    requires later == DumpAt(raw, more, analyze)
    ensures var r := analyze(Drop(raw, v));
            DumpAt(raw, [v] + more, analyze) == if r.TypeError? then TypeError else Prepend(Reported(r, v), later)
  {
    assert ([v] + more)[1..] == more;
  }

  /** The loop raises a TypeError exactly if it stops at a magic that less than nine header fields follow. */
  lemma {:induction false} FailsIffCutOff(raw: Bytes, positions: seq<nat>, analyze: Analysis, dtc: Compiler)
    requires Performs(analyze, dtc)
    ensures Fails(raw, positions, analyze) <==> exists v :: v in positions && |Drop(raw, v)| < 37
    decreases |positions|
  {
    if positions != [] {
      assert Analyze(Drop(raw, positions[0]), dtc).TypeError? <==> |Drop(raw, positions[0])| < 37;
      FailsIffCutOff(raw, positions[1..], analyze, dtc);
      assert forall v :: v in positions <==> v == positions[0] || v in positions[1..];
    }
  }

  /** Everything reported lies at a magic, in the buffer, and at least a header behind what was reported before. */
  lemma {:induction false} ReportedAtMagics(raw: Bytes, positions: seq<nat>, base: nat, analyze: Analysis, k: nat)
    requires IsScan(raw, Trees, positions, base) && k < |Dump(raw, positions, analyze)|
    ensures var found := Dump(raw, positions, analyze);
            var offset := found[k].offset;
            && base <= offset && offset in positions && IsAt(raw, MAGIC, offset)
            && analyze(Drop(raw, offset)) == Ok(Some(found[k].tree))
            && (k + 1 < |found| ==> offset + HEADER_SIZE <= found[k + 1].offset)
    decreases |positions|
  {
    var found, v := Dump(raw, positions, analyze), positions[0];
    var later := Dump(raw, positions[1..], analyze);
    var r := analyze(Drop(raw, v));
    if r.Ok? && r.value.Some? {
      assert found == [Found(r.value.value, v)] + later;
      if k > 0 {
        ReportedAtMagics(raw, positions[1..], Next(raw, Trees, v), analyze, k - 1);
      } else if |later| > 0 {
        ReportedAtMagics(raw, positions[1..], Next(raw, Trees, v), analyze, 0);
      }
    } else {
      assert found == later;
      ReportedAtMagics(raw, positions[1..], Next(raw, Trees, v), analyze, k);
    }
  }

  /** A magic at which the loop does not stop lies in the header of one at which it does. */
  lemma NoMagicSkipped(raw: Bytes, i: nat) returns (v: nat)
    requires IsAt(raw, MAGIC, i)
    ensures v in Scan(raw, Trees, 0) && v <= i < v + HEADER_SIZE
  {
    ScanIsScan(raw, Trees, 0);
    v := ScanCovers(raw, Trees, Scan(raw, Trees, 0), 0, i);
  }

  /** Reported are the device trees at the given positions, and nothing else. */
  lemma {:induction false} DumpMembers(raw: Bytes, positions: seq<nat>, analyze: Analysis, f: Found)
    ensures f in Dump(raw, positions, analyze)
       <==> f.offset in positions && analyze(Drop(raw, f.offset)) == Ok(Some(f.tree))
    decreases |positions|
  {
    if positions != [] {
      var v, more := positions[0], positions[1..];
      DumpMembers(raw, more, analyze, f);
      assert f.offset in positions <==> f.offset == v || f.offset in more;
    }
  }

  /** Exactly the device trees that the compiler accepts at the positions of the scan, in order of their offsets. */
  ghost predicate IsDump(raw: Bytes, found: seq<Found>, dtc: Compiler) {
    && (forall f :: f in found <==> f.offset in Scan(raw, Trees, 0) && Analyze(Drop(raw, f.offset), dtc) == Ok(Some(f.tree)))
    && (forall k :: 0 < k < |found| ==> found[k - 1].offset + HEADER_SIZE <= found[k].offset)
  }

  /** At one of the positions of the scan, the header is cut off by the end of the buffer. */
  ghost predicate IsCutOff(raw: Bytes) {
    exists v :: v in Scan(raw, Trees, 0) && |raw| - v < 37
  }

  lemma DumpedAre(raw: Bytes, dtc: Compiler, analyze: Analysis)
    requires Performs(analyze, dtc)
    ensures IsDump(raw, Dump(raw, Scan(raw, Trees, 0), analyze), dtc)
  {
    var positions := Scan(raw, Trees, 0);
    var found := Dump(raw, positions, analyze);
    ScanIsScan(raw, Trees, 0);
    forall f
      ensures f in found <==> f.offset in positions && Analyze(Drop(raw, f.offset), dtc) == Ok(Some(f.tree))
    {
      DumpMembers(raw, positions, analyze, f);
      assert analyze(Drop(raw, f.offset)) == Analyze(Drop(raw, f.offset), dtc);
    }
    forall k | 0 < k < |found|
      ensures found[k - 1].offset + HEADER_SIZE <= found[k].offset
    {
      ReportedAtMagics(raw, positions, 0, analyze, k - 1);
    }
  }

  lemma CutOffFails(raw: Bytes, dtc: Compiler, analyze: Analysis)
    requires Performs(analyze, dtc)
    ensures Fails(raw, Scan(raw, Trees, 0), analyze) <==> IsCutOff(raw)
  {
    var positions := Scan(raw, Trees, 0);
    FailsIffCutOff(raw, positions, analyze, dtc);
    ScanIsScan(raw, Trees, 0);
    forall v | v in positions
      ensures |Drop(raw, v)| == |raw| - v
    {
      var k :| 0 <= k < |positions| && positions[k] == v;
      ScanPosition(raw, Trees, positions, 0, k);
    }
  }

  /** What the loop returns, in terms of the buffer alone. */
  lemma DumpIs(raw: Bytes, dtc: Compiler, analyze: Analysis, r: Result<seq<Found>>)
    requires Performs(analyze, dtc) && r == DumpRest(raw, 0, analyze)
    ensures r.TypeError? <==> IsCutOff(raw)
    ensures r.Ok? ==> IsDump(raw, r.value, dtc)
  {
    DumpFromPositions(raw, 0, analyze);
    CutOffFails(raw, dtc, analyze);
    DumpedAre(raw, dtc, analyze);
  }

  ghost predicate Increasing(found: seq<Found>) {
    forall j, k :: 0 <= j < k < |found| ==> found[j].offset < found[k].offset
  }

  lemma {:induction false} StepsIncrease(found: seq<Found>, j: nat, k: nat)
    requires forall i :: 0 < i < |found| ==> found[i - 1].offset + HEADER_SIZE <= found[i].offset
    requires j < k < |found|
    ensures found[j].offset < found[k].offset
    decreases k
  {
    if j < k - 1 {
      StepsIncrease(found, j, k - 1);
    }
  }

  lemma {:induction false} SameMembers(a: seq<Found>, b: seq<Found>)
    requires Increasing(a) && Increasing(b) && forall f :: f in a <==> f in b
    ensures a == b
  {
    BothHaveMembers(a, b);
    BothHaveMembers(b, a);
    if a != [] {
      FirstIsLeast(a, b);
      SameMembers(a[1..], b[1..]);
      assert a == [a[0]] + a[1..] && b == [b[0]] + b[1..];
    }
  }

  lemma BothHaveMembers(a: seq<Found>, b: seq<Found>)
    requires forall f :: f in a <==> f in b
    ensures a != [] ==> b != []
  {
    assert a != [] ==> a[0] in b;
  }

  lemma HeadIsLeast(found: seq<Found>, f: Found)
    requires Increasing(found) && f in found
    ensures f == found[0] || found[0].offset < f.offset
  {
  }

  lemma FirstIsLeast(a: seq<Found>, b: seq<Found>)
    requires Increasing(a) && Increasing(b) && a != [] && b != [] && forall f :: f in a <==> f in b
    ensures a[0] == b[0] && Increasing(a[1..]) && Increasing(b[1..])
    ensures forall f :: f in a[1..] <==> f in b[1..]
  {
    HeadIsLeast(a, b[0]);
    HeadIsLeast(b, a[0]);
    forall f
      ensures f in a[1..] <==> f in a && f != a[0]
      ensures f in b[1..] <==> f in b && f != b[0]
    {
      assert a == [a[0]] + a[1..] && b == [b[0]] + b[1..];
    }
  }

  /** There is only one such list of device trees. */
  lemma DumpIsUnique(raw: Bytes, a: seq<Found>, b: seq<Found>, dtc: Compiler)
    requires IsDump(raw, a, dtc) && IsDump(raw, b, dtc)
    ensures a == b
  {
    forall j, k | 0 <= j < k < |a|
      ensures a[j].offset < a[k].offset
    {
      StepsIncrease(a, j, k);
    }
    forall j, k | 0 <= j < k < |b|
      ensures b[j].offset < b[k].offset
    {
      StepsIncrease(b, j, k);
    }
    SameMembers(a, b);
  }

  /**
   `dump_device_trees` raises a TypeError exactly if it stops at a header that the buffer cuts off. Otherwise it
   returns exactly the device trees at the positions of the scan.
   */
  method DumpDeviceTrees(buffer: Bytes, dtc: Compiler) returns (r: Result<seq<Found>>)
    ensures r.TypeError? <==> IsCutOff(buffer)
    ensures r.Ok? ==> IsDump(buffer, r.value, dtc)
  {
    ghost var analyze := AnalysisWith(dtc);
    r := DumpLoop(buffer, dtc, analyze);
    DumpIs(buffer, dtc, analyze, r);
  }

  /** A buffer that holds nothing but a magic. */
  lemma MagicAloneFails(dtc: Compiler)
    ensures IsCutOff(MAGIC) && DumpRest(MAGIC, 0, AnalysisWith(dtc)).TypeError?
  {
    assert IsAt(MAGIC, MAGIC, 0);
    assert FindFrom(MAGIC, MAGIC, 0) == 0;
    assert 0 in Scan(MAGIC, Trees, 0);
    DumpIs(MAGIC, dtc, AnalysisWith(dtc), DumpRest(MAGIC, 0, AnalysisWith(dtc)));
  }

  /** A reported device tree lies in the buffer, with both of its blocks, and the compiler returns a text for it. */
  lemma ReportedTreeFits(raw: Bytes, dtc: Compiler)
    requires Analyze(raw, dtc).Ok? && Analyze(raw, dtc).value.Some?
    ensures var h := Analyze(raw, dtc).value.value.header;
            h.size <= |raw| && h.structBlockOffset <= h.size && h.stringsBlockOffset <= h.size && h.version <= 20
    ensures var tree := Analyze(raw, dtc).value.value;
            tree.text != "" && dtc(Slice(raw, 0, tree.header.size)) == Some(tree.text)
  {
    AcceptedSizes(Analyze(raw, dtc).value.value.header, |raw|);
  }
}
