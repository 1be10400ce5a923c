/**
 Flattened device trees as they are written (Devicetree Specification sections 5.2 and 5.4), and what the parser
 reads from them (src/plugins/analysis/device_tree/internal/device_tree_utils.py).
 */
module DeviceTreeFormat {
  import opened Basics
  import opened Strings
  import opened DeviceTree

  type Word = n: nat | n < 0x1_0000_0000

  // ----- Numbers -----

  /** A 32-bit number, most significant byte first. */
  function BigEndian(n: Word): (raw: Bytes)
    ensures |raw| == 4
  {
    var a := n / 0x100;
    var b := a / 0x100;
    [b / 0x100, b % 0x100, a % 0x100, n % 0x100]
  }

  lemma FourBytes(raw: Bytes, a: int, b: int, c: int, d: int)
    requires |raw| == 4 && raw[0] == a && raw[1] == b && raw[2] == c && raw[3] == d
    ensures BytesToInt(raw) == ((a * 0x100 + b) * 0x100 + c) * 0x100 + d
  {
    assert FirstBytesToInt(raw, 1) == a;
    assert FirstBytesToInt(raw, 2) == a * 0x100 + b;
    assert FirstBytesToInt(raw, 3) == (a * 0x100 + b) * 0x100 + c;
  }

  lemma BigEndianIsRead(n: Word)
    ensures BytesToInt(BigEndian(n)) == n
  {
    var raw := BigEndian(n);
    FourBytes(raw, raw[0], raw[1], raw[2], raw[3]);
  }

  function Words(ns: seq<Word>): (raw: Bytes)
    ensures |raw| == 4 * |ns|
  {
    if ns == [] then [] else BigEndian(ns[0]) + Words(ns[1..])
  }

  lemma {:induction false} WordsAreChunks(ns: seq<Word>)
    ensures |Chunked(Words(ns))| == |ns|
    ensures forall i :: 0 <= i < |ns| ==> BytesToInt(Chunked(Words(ns))[i]) == ns[i]
  {
    if ns != [] {
      var head, more := BigEndian(ns[0]), Words(ns[1..]);
      BigEndianIsRead(ns[0]);
      WordsAreChunks(ns[1..]);
      if more == [] {
        assert head + more == head;
      } else {
        assert (head + more)[..4] == head && (head + more)[4..] == more;
      }
    }
  }

  // ----- The header -----

  ghost predicate FieldsFit(h: Header) {
    && h.size < 0x1_0000_0000 && h.structBlockOffset < 0x1_0000_0000 && h.stringsBlockOffset < 0x1_0000_0000
    && h.memoryMapOffset < 0x1_0000_0000 && h.version < 0x1_0000_0000 && h.oldestCompatibleVersion < 0x1_0000_0000
    && h.bootCpuId < 0x1_0000_0000 && h.stringsBlockSize < 0x1_0000_0000 && h.structBlockSize < 0x1_0000_0000
  }

  /** The magic, and the fields in the order of the specification. */
  ghost function HeaderBytes(h: Header): (raw: Bytes)
    requires FieldsFit(h)
    ensures |raw| == HEADER_SIZE
  {
    MAGIC + Words([h.size, h.structBlockOffset, h.stringsBlockOffset, h.memoryMapOffset, h.version,
                   h.oldestCompatibleVersion, h.bootCpuId, h.stringsBlockSize, h.structBlockSize])
  }

  lemma SliceOf(raw: Bytes, before: Bytes, middle: Bytes, behind: Bytes)
    requires raw == before + middle + behind
    ensures Slice(raw, |before|, |before| + |middle|) == middle
  {
    DropIsSlice(raw, |before|);
    assert raw[|before|..] == middle + behind;
    if middle != [] {
      assert (middle + behind)[..|middle|] == middle;
    }
  }

  /** Whatever follows a header, its fields are read as they were written. */
  lemma HeaderRoundTrip(h: Header, behind: Bytes)
    requires FieldsFit(h)
    ensures ParseDtbHeader(HeaderBytes(h) + behind) == Ok(h)
  {
    var ns: seq<Word> := [h.size, h.structBlockOffset, h.stringsBlockOffset, h.memoryMapOffset, h.version,
                          h.oldestCompatibleVersion, h.bootCpuId, h.stringsBlockSize, h.structBlockSize];
    var raw := HeaderBytes(h) + behind;
    SliceOf(raw, MAGIC, Words(ns), behind);
    WordsAreChunks(ns);
    ReadFields(Chunked(Words(ns)), ns, h, raw);
  }

  lemma ReadFields(chunks: seq<Bytes>, ns: seq<Word>, h: Header, raw: Bytes)
    requires chunks == Chunked(Slice(raw, 4, HEADER_SIZE)) && |chunks| == |ns| == 9
    requires forall i :: 0 <= i < 9 ==> BytesToInt(chunks[i]) == ns[i]
    requires h == Header(ns[0], ns[1], ns[2], ns[3], ns[4], ns[5], ns[6], ns[7], ns[8])
    ensures ParseDtbHeader(raw) == Ok(h)
  {
  }

  // ----- Properties -----

  /** Other tokens, names of nodes and padding, in which the marker of a property does not occur. */
  ghost predicate IsGap(raw: Bytes) {
    NoneBetween(raw, FDT_PROP, 0, |raw|)
  }

  /** A property as it stands in the structure block, with what stands in front of it. */
  datatype Written = Written(gap: Bytes, nameOffset: Word, value: Bytes)

  ghost predicate IsWritten(w: Written) {
    IsGap(w.gap) && |w.value| < 0x1_0000_0000
  }

  ghost function PropertyBytes(w: Written): Bytes
    requires IsWritten(w)
  {
    FDT_PROP + BigEndian(|w.value|) + BigEndian(w.nameOffset) + w.value
  }

  ghost function BlockBytes(ws: seq<Written>, end: Bytes): Bytes
    requires forall w :: w in ws ==> IsWritten(w)
  {
    if ws == [] then end else ws[0].gap + (PropertyBytes(ws[0]) + BlockBytes(ws[1..], end))
  }

  /** What is read of a property. */
  function ReadOf(w: Written, strings: map<int, Bytes>): Property {
    Property(|w.value|, w.nameOffset, if w.nameOffset in strings then Some(strings[w.nameOffset]) else None, Strip(w.value))
  }

  function AllRead(ws: seq<Written>, strings: map<int, Bytes>): seq<Property> {
    seq(|ws|, i requires 0 <= i < |ws| => ReadOf(ws[i], strings))
  }

  lemma PropertyIsRead(w: Written, behind: Bytes, strings: map<int, Bytes>)
    requires IsWritten(w)
    ensures PropertyAt(PropertyBytes(w) + behind, strings) == ReadOf(w, strings)
    ensures PropertySize(PropertyBytes(w) + behind) == |PropertyBytes(w)|
  {
    var length, name := BigEndian(|w.value|), BigEndian(w.nameOffset);
    var raw := PropertyBytes(w) + behind;
    assert raw == FDT_PROP + length + (name + w.value + behind);
    SliceOf(raw, FDT_PROP, length, name + w.value + behind);
    assert raw == (FDT_PROP + length) + name + (w.value + behind);
    SliceOf(raw, FDT_PROP + length, name, w.value + behind);
    SliceOf(raw, FDT_PROP + length + name, w.value, behind);
    BigEndianIsRead(|w.value|);
    BigEndianIsRead(w.nameOffset);
  }

  lemma IsAtSlice(raw: Bytes, pattern: Bytes, i: nat)
    requires pattern != []
    ensures IsAt(raw, pattern, i) <==> i + |pattern| <= |raw| && raw[i..i + |pattern|] == pattern
  {
    DropIsSlice(raw, i);
    if i + |pattern| <= |raw| {
      assert raw[i..][..|pattern|] == raw[i..i + |pattern|];
    }
  }

  /** The marker of a property is found behind the gap, also if the gap ends with zeros. */
  lemma FoundBehindGap(gap: Bytes, behind: Bytes)
    requires IsGap(gap) && FDT_PROP <= behind
    ensures Find(gap + behind, FDT_PROP) == |gap| && Drop(gap + behind, |gap|) == behind
  {
    var raw := gap + behind;
    DropIsSlice(raw, |gap|);
    assert raw[|gap|..] == behind;
    IsAtSlice(raw, FDT_PROP, |gap|);
    assert raw[|gap|..|gap| + 4] == behind[..4] == FDT_PROP;
    forall i: nat | i < |gap|
      ensures !IsAt(raw, FDT_PROP, i)
    {
      IsAtSlice(raw, FDT_PROP, i);
      IsAtSlice(gap, FDT_PROP, i);
      if i + 4 <= |gap| {
        assert raw[i..i + 4] == gap[i..i + 4];
      } else {
        assert raw[i + 3] == behind[i + 3 - |gap|] == 0;
        assert raw[i..i + 4][3] == 0;
      }
    }
  }

  lemma DropWritten(w: Written, behind: Bytes)
    requires IsWritten(w)
    ensures Drop(w.gap + (PropertyBytes(w) + behind), |w.gap| + |PropertyBytes(w)|) == behind
  {
    var raw := w.gap + (PropertyBytes(w) + behind);
    DropIsSlice(raw, |w.gap| + |PropertyBytes(w)|);
    assert raw == (w.gap + PropertyBytes(w)) + behind;
  }

  lemma FirstIsRead(w: Written, behind: Bytes, strings: map<int, Bytes>)
    requires IsWritten(w)
    ensures Properties(w.gap + (PropertyBytes(w) + behind), strings) == [ReadOf(w, strings)] + Properties(behind, strings)
  {
    FoundBehindGap(w.gap, PropertyBytes(w) + behind);
    PropertyIsRead(w, behind, strings);
    DropWritten(w, behind);
    PropertiesUnfold(w.gap + (PropertyBytes(w) + behind), |w.gap|, strings, PropertyBytes(w) + behind, behind);
  }

  lemma BlockIsRead(ws: seq<Written>, end: Bytes, strings: map<int, Bytes>, behind: Bytes)
    requires ws != [] && (forall w :: w in ws ==> IsWritten(w)) && behind == BlockBytes(ws[1..], end)
    ensures Properties(BlockBytes(ws, end), strings) == [ReadOf(ws[0], strings)] + Properties(behind, strings)
  {
    FirstIsRead(ws[0], behind, strings);
  }

  lemma AllReadFirst(ws: seq<Written>, strings: map<int, Bytes>)
    requires ws != []
    ensures AllRead(ws, strings) == [ReadOf(ws[0], strings)] + AllRead(ws[1..], strings)
  {
  }

  lemma NothingIsRead(end: Bytes, strings: map<int, Bytes>)
    requires IsGap(end)
    ensures Properties(end, strings) == []
  {
    assert forall i :: IsAt(end, FDT_PROP, i) ==> 0 <= i < |end|;
  }

  /** The properties of a structure block are read as they were written, whatever their values contain. */
  lemma {:induction false} PropertiesRoundTrip(ws: seq<Written>, end: Bytes, strings: map<int, Bytes>)
    requires (forall w :: w in ws ==> IsWritten(w)) && IsGap(end)
    ensures Properties(BlockBytes(ws, end), strings) == AllRead(ws, strings)
    decreases |ws|
  {
    if ws == [] {
      NothingIsRead(end, strings);
    } else {
      PropertiesRoundTrip(ws[1..], end, strings);
      BlockIsRead(ws, end, strings, BlockBytes(ws[1..], end));
      AllReadFirst(ws, strings);
    }
  }

  // ----- Values and names -----

  ghost predicate IsZeros(raw: Bytes) {
    forall i :: 0 <= i < |raw| ==> raw[i] == 0
  }

  /** `raw.strip(b'\0')`: what is left has no zero at either end, and only zeros were around it. */
  lemma {:induction false} StripIs(raw: Bytes) returns (before: Bytes, behind: Bytes)
    ensures raw == before + Strip(raw) + behind && IsZeros(before) && IsZeros(behind)
    ensures Strip(raw) != [] ==> Strip(raw)[0] != 0 && Strip(raw)[|Strip(raw)| - 1] != 0
    decreases |raw|
  {
    before, behind := [], [];
    if raw != [] && raw[0] == 0 {
      before, behind := StripIs(raw[1..]);
      OneMoreInFront(raw, before, Strip(raw), behind);
      before := [raw[0]] + before;
    } else if raw != [] && raw[|raw| - 1] == 0 {
      before, behind := StripIs(raw[..|raw| - 1]);
      OneMoreBehind(raw, before, Strip(raw), behind);
      behind := behind + [raw[|raw| - 1]];
    }
  }

  lemma OneMoreInFront(raw: Bytes, before: Bytes, middle: Bytes, behind: Bytes)
    requires raw != [] && raw[1..] == before + middle + behind
    ensures raw == [raw[0]] + before + middle + behind
  {
    assert raw == [raw[0]] + raw[1..];
    assert [raw[0]] + (before + middle + behind) == [raw[0]] + before + middle + behind;
  }

  lemma OneMoreBehind(raw: Bytes, before: Bytes, middle: Bytes, behind: Bytes)
    requires raw != [] && raw[..|raw| - 1] == before + middle + behind
    ensures raw == before + middle + (behind + [raw[|raw| - 1]])
  {
    var last := raw[|raw| - 1];
    assert raw == raw[..|raw| - 1] + [last];
    assert before + middle + behind + [last] == before + middle + (behind + [last]);
  }

  /** The model is the value of the last property with that name. */
  lemma {:induction false} ModelIsLast(props: seq<Property>, i: nat)
    requires i < |props| && props[i].name == Some(MODEL)
    requires forall j :: i < j < |props| ==> props[j].name != Some(MODEL)
    ensures ModelOf(props) == Some(props[i].value)
    decreases |props|
  {
    var last := |props| - 1;
    if i < last {
      ModelIsLast(props[..last], i);
      assert Named(props, MODEL) == Named(props[..last], MODEL);
    }
  }

  lemma {:induction false} NoneNamed(props: seq<Property>, name: Bytes)
    requires forall i :: 0 <= i < |props| ==> props[i].name != Some(name)
    ensures Named(props, name) == []
  {
    if props != [] {
      NoneNamed(props[..|props| - 1], name);
    }
  }

  /** The description is the value of the first property with that name whose value is not empty. */
  lemma {:induction false} DescriptionIsFirst(props: seq<Property>, i: nat)
    requires i < |props| && props[i].name == Some(DESCRIPTION) && props[i].value != []
    requires forall j :: 0 <= j < i && props[j].name == Some(DESCRIPTION) ==> props[j].value == []
    ensures DescriptionOf(props) == Some(props[i].value)
    decreases |props|
  {
    var last := |props| - 1;
    var before := props[..last];
    NamedSnoc(props, DESCRIPTION, last);
    assert props[..last + 1] == props;
    if i < last {
      DescriptionIsFirst(before, i);
      FirstFilledSnoc(Named(before, DESCRIPTION), props[last].value);
    } else {
      NoFilled(before);
      FirstFilledSnoc(Named(before, DESCRIPTION), props[last].value);
    }
  }

  lemma {:induction false} NoFilled(props: seq<Property>)
    requires forall j :: 0 <= j < |props| && props[j].name == Some(DESCRIPTION) ==> props[j].value == []
    ensures IsUnset(DescriptionOf(props))
    decreases |props|
  {
    if props != [] {
      var last := |props| - 1;
      NamedSnoc(props, DESCRIPTION, last);
      assert props[..last + 1] == props;
      NoFilled(props[..last]);
      FirstFilledSnoc(Named(props[..last], DESCRIPTION), props[last].value);
    }
  }

  /** Names are stored by the first position at which they occur in the strings block. */
  lemma {:induction false} NameIsStored(block: Bytes, parts: seq<Bytes>, i: nat)
    requires i < |parts| && parts[i] != []
    requires forall j :: i < j < |parts| && parts[j] != [] ==> Find(block, parts[j]) != Find(block, parts[i])
    ensures Find(block, parts[i]) in StringsByOffset(block, parts)
    ensures StringsByOffset(block, parts)[Find(block, parts[i])] == parts[i]
    decreases |parts|
  {
    var last := |parts| - 1;
    if i < last {
      NameIsStored(block, parts[..last], i);
    }
  }

  /** And nothing else is stored. */
  lemma {:induction false} StoredIsName(block: Bytes, parts: seq<Bytes>, offset: int)
    requires offset in StringsByOffset(block, parts)
    ensures StringsByOffset(block, parts)[offset] in parts && StringsByOffset(block, parts)[offset] != []
    ensures Find(block, StringsByOffset(block, parts)[offset]) == offset
    decreases |parts|
  {
    var last := |parts| - 1;
    if parts[last] == [] || offset != Find(block, parts[last]) {
      StoredIsName(block, parts[..last], offset);
    }
  }

  // ----- A whole tree -----

  /** The header is legal, and the blocks stand where it says. */
  ghost predicate IsLaidOut(raw: Bytes, h: Header, structure: Bytes, strings: Bytes) {
    && h.version <= 20 && FieldsFit(h) && HeaderBytes(h) <= raw && h.size <= |raw|
    && h.structBlockSize == |structure| && h.stringsBlockSize == |strings|
    && h.structBlockOffset + |structure| <= h.size && h.stringsBlockOffset + |strings| <= h.size
    && raw[h.structBlockOffset..h.structBlockOffset + |structure|] == structure
    && raw[h.stringsBlockOffset..h.stringsBlockOffset + |strings|] == strings
  }

  lemma SliceIs(raw: Bytes, lo: nat, hi: nat)
    requires lo <= hi <= |raw|
    ensures Slice(raw, lo, hi) == raw[lo..hi]
  {
    DropIsSlice(raw, lo);
    if lo < hi {
      assert raw[lo..][..hi - lo] == raw[lo..hi];
    }
  }

  lemma SliceOfPrefix(raw: Bytes, n: nat, lo: nat, hi: nat)
    requires lo <= hi <= n <= |raw|
    ensures raw[..n][lo..hi] == raw[lo..hi]
  {
  }

  lemma BlocksAreCut(raw: Bytes, h: Header, structure: Bytes, strings: Bytes)
    requires IsLaidOut(raw, h, structure, strings)
    ensures var tree := Slice(raw, 0, h.size);
            && StructureIn(tree, h) == structure
            && Slice(tree, h.stringsBlockOffset, h.stringsBlockOffset + h.stringsBlockSize) == strings
  {
    var tree := raw[..h.size];
    SliceIs(raw, 0, h.size);
    SliceIs(tree, h.structBlockOffset, h.structBlockOffset + |structure|);
    SliceIs(tree, h.stringsBlockOffset, h.stringsBlockOffset + |strings|);
    SliceOfPrefix(raw, h.size, h.structBlockOffset, h.structBlockOffset + |structure|);
    SliceOfPrefix(raw, h.size, h.stringsBlockOffset, h.stringsBlockOffset + |strings|);
  }

  /** Offsets and sizes that a legal header may have. */
  lemma LegalIsAccepted(h: Header, maxSize: nat)
    requires h.version <= 20 && h.size <= maxSize
    requires h.structBlockOffset <= h.size && h.stringsBlockOffset <= h.size
    requires h.structBlockSize <= h.size && h.stringsBlockSize <= h.size
    ensures !HeaderHasIllegalValues(h, maxSize)
  {
  }

  lemma AnalyzeIs(raw: Bytes, h: Header, dtc: Compiler, props: seq<Property>)
    requires ParseDtbHeader(raw) == Ok(h) && !HeaderHasIllegalValues(h, |raw|) && !NoText(dtc(Slice(raw, 0, h.size)))
    requires props == PropertiesIn(Slice(raw, 0, h.size), h)
    ensures Analyze(raw, dtc)
         == Ok(Some(DeviceTree(h, dtc(Slice(raw, 0, h.size)).value, ModelOf(props), DescriptionOf(props))))
  {
  }

  /**
   A device tree that was written with these properties and names, and that the compiler accepts, is reported with
   the fields of its header and the model and description among its properties.
   */
  lemma TreeRoundTrip(raw: Bytes, h: Header, ws: seq<Written>, end: Bytes, strings: Bytes, dtc: Compiler)
    requires (forall w :: w in ws ==> IsWritten(w)) && IsGap(end) && IsLaidOut(raw, h, BlockBytes(ws, end), strings)
    requires !NoText(dtc(Slice(raw, 0, h.size)))
    ensures var props := AllRead(ws, StringsByOffset(strings, Split(strings, 0)));
            Analyze(raw, dtc)
            == Ok(Some(DeviceTree(h, dtc(Slice(raw, 0, h.size)).value, ModelOf(props), DescriptionOf(props))))
  {
    assert raw == HeaderBytes(h) + raw[HEADER_SIZE..];
    HeaderRoundTrip(h, raw[HEADER_SIZE..]);
    LegalIsAccepted(h, |raw|);
    BlocksAreCut(raw, h, BlockBytes(ws, end), strings);
    PropertiesRoundTrip(ws, end, StringsByOffset(strings, Split(strings, 0)));
    AnalyzeIs(raw, h, dtc, AllRead(ws, StringsByOffset(strings, Split(strings, 0))));
  }
}
