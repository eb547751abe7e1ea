/** Reading back what the writer produced, and the writer and reader as the loops they are. */
module TarRoundTrip {
  import opened Options
  import opened TarFormat
  import opened TarArchive

  // ---- One header followed by anything ----

  lemma {:induction false} NameEnds(name: seq<byte>, zeros: nat, rest: seq<byte>)
    requires forall i | 0 <= i < |name| :: name[i] != 0
    requires zeros > 0 || rest == []
    ensures UpToNul(name + Repeat(0, zeros) + rest) == name
  {
    var s := name + Repeat(0, zeros) + rest;
    if name != [] {
      assert s[1..] == name[1..] + Repeat(0, zeros) + rest;
      NameEnds(name[1..], zeros, rest);
    }
  }

  lemma FullName(name: seq<byte>)
    requires |name| <= 100 && forall i | 0 <= i < |name| :: name[i] != 0
    ensures UpToNul(NameField(name)) == name
  {
    NameEnds(name, 100 - |name|, []);
    assert name + Repeat(0, 100 - |name|) + [] == NameField(name);
  }

  lemma HeaderIsGood(name: seq<byte>, size: nat, mode: nat, kind: byte)
    requires Headed(name, size, mode)
    ensures var h := Header(name, size, mode, kind);
            && GoodHeader(h) && h[..100] == NameField(name) && h[156] == kind
            && ParseInt(h[100..108], 8) == Some(mode) && ParseInt(h[124..136], 8) == Some(size)
  {
    hide Header, ParseInt, OctalField, ChecksumField, Sum, Splice, Repeat, NameField;
    HeaderFields(name, size, mode, kind);
    FieldLengths(size, mode);
    var h := Header(name, size, mode, kind);
    assert h[156..157][0] == h[156];
  }

  /** What both readers see of a block written by `BodyBytes` or `PaxBytes`. */
  lemma BlockReads(name: seq<byte>, size: nat, mode: nat, kind: byte, content: seq<byte>, tail: seq<byte>)
    requires Headed(name, size, mode) && |content| == size
    ensures var b := Header(name, size, mode, kind) + content + Repeat(0, Padding(size)) + tail;
            var next := BLOCK + size + Padding(size);
            && |b| == next + |tail| && b[..BLOCK] == Header(name, size, mode, kind)
            && b[BLOCK..BLOCK + size] == content && b[next..] == tail
  {
    hide Header, Padding, Repeat;
  }

  lemma FirstByte(name: seq<byte>, size: nat, mode: nat, kind: byte)
    requires Headed(name, size, mode) && name != []
    ensures Header(name, size, mode, kind)[0] == name[0]
  {
    hide Header;
    HeaderIsGood(name, size, mode, kind);
    var h := Header(name, size, mode, kind);
    assert h[..100][0] == h[0];
  }

  // ---- The pax-aware reader ----

  lemma ReadBody(name: seq<byte>, size: nat, mode: nat, content: seq<byte>, tail: seq<byte>, over: Option<seq<byte>>)
    requires Headed(name, size, mode) && |content| == size
    requires name != [] && forall i | 0 <= i < |name| :: name[i] != 0
    ensures Read(BodyBytes(name, size, mode, content) + tail, over) ==
            var rest := Read(tail, None);
            if rest.None? then None
            else Some([Entry(if over.Some? then over.value else name, mode, content)] + rest.value)
  {
    hide Header, ParseInt, UpToNul, NameField, Repeat, GoodHeader, Padding;
    BlockReads(name, size, mode, FILE_KIND, content, tail);
    HeaderIsGood(name, size, mode, FILE_KIND);
    FirstByte(name, size, mode, FILE_KIND);
    FullName(name);
    var b := BodyBytes(name, size, mode, content) + tail;
    assert b[..BLOCK] == Header(name, size, mode, FILE_KIND);
    assert b[0] == b[..BLOCK][0];
  }

  lemma RecordParses(path: Path)
    ensures ParsePax(PaxRecord(path)) == Some(path)
  {
    hide Numeral, Settle, PaxLength, ParseInt, DigitPrefix;
    var n := |Tail(path)|;
    var digits := Numeral(PaxLength(n), 10);
    var r := PaxRecord(path);
    NumeralValue(PaxLength(n), 10);
    RecordPrefix(path);
    assert |digits| + |Tail(path)| == |r|;
    assert r[|digits|..] == Tail(path);
    assert r[|digits|..|digits| + 6] == Tail(path)[..6] == PATH_KEY;
    assert r[|digits| + 6..|r| - 1] == Tail(path)[6..n - 1] == path;
    assert r[|r| - 1] == Tail(path)[n - 1];
  }

  lemma RecordPrefix(path: Path)
    ensures DigitPrefix(PaxRecord(path), 10) == Numeral(PaxLength(|Tail(path)|), 10)
    ensures ParseInt(PaxRecord(path), 10) == Some(|PaxRecord(path)|)
  {
    hide Numeral, Settle, PaxLength, DigitPrefix;
    var len := PaxLength(|Tail(path)|);
    NumeralValue(len, 10);
    PrefixStops(Numeral(len, 10), SPACE, Tail(path)[1..], 10);
    assert Tail(path) == [SPACE] + Tail(path)[1..];
    assert PaxRecord(path) == Numeral(len, 10) + [SPACE] + Tail(path)[1..];
  }

  lemma ReadPax(path: Path, tail: seq<byte>)
    ensures Read(PaxBytes(path) + tail, None) == Read(tail, Some(path))
  {
    hide Header, ParseInt, NameField, Repeat, GoodHeader, Padding, ParsePax, PaxRecord;
    var r := PaxRecord(path);
    BlockReads(PAX_NAME, |r|, 384, PAX_KIND, r, tail);
    HeaderIsGood(PAX_NAME, |r|, 384, PAX_KIND);
    FirstByte(PAX_NAME, |r|, 384, PAX_KIND);
    RecordParses(path);
    var b := PaxBytes(path) + tail;
    assert b[..BLOCK] == Header(PAX_NAME, |r|, 384, PAX_KIND);
    assert b[0] == b[..BLOCK][0];
  }

  function EntryOf(f: File): Entry {
    Entry(f.path, Mode(f), Concat(f.chunks))
  }

  lemma ReadFile(f: File, tail: seq<byte>)
    requires ValidFile(f)
    ensures Read(FileBytes(f) + tail, None) ==
            var rest := Read(tail, None);
            if rest.None? then None else Some([EntryOf(f)] + rest.value)
  {
    hide Read, Split, Header, Concat, PaxRecord;
    if Short(f.path) {
      ReadBody(f.path, f.size, Mode(f), Concat(f.chunks), tail, None);
    } else {
      var body := BodyBytes(FILE_NAME, f.size, Mode(f), Concat(f.chunks));
      assert FileBytes(f) + tail == PaxBytes(f.path) + (body + tail);
      ReadPax(f.path, body + tail);
      ReadBody(FILE_NAME, f.size, Mode(f), Concat(f.chunks), tail, Some(f.path));
    }
  }

  function Entries(files: seq<File>): seq<Entry> {
    if files == [] then [] else [EntryOf(files[0])] + Entries(files[1..])
  }

  /** Every archive the writer produces reads back to the same paths, modes and contents. */
  lemma {:induction false} RoundTrip(files: seq<File>)
    requires Archive(files).Ok?
    ensures Read(Archive(files).value, None) == Some(Entries(files))
    ensures |Entries(files)| == |files|
    ensures forall i | 0 <= i < |files| ::
              Entries(files)[i] == Entry(files[i].path, if files[i].executable then 448 else 384, Concat(files[i].chunks))
  {
    if files == [] {
      assert Repeat(0, 1024)[..1024] == Repeat(0, 1024);
    } else {
      RoundTrip(files[1..]);
      ReadFile(files[0], Archive(files[1..]).value);
    }
  }

  /** A pax record comes first exactly for a path above 100 bytes or with a byte that is not printable ASCII. */
  lemma PaxExactly(f: File)
    requires ValidFile(f)
    ensures |FileBytes(f)| >= BLOCK
    ensures FileBytes(f)[156] == PAX_KIND <==> |f.path| > 100 || exists i | 0 <= i < |f.path| :: !(0x20 <= f.path[i] <= 0x7e)
    ensures FileBytes(f)[156] == FILE_KIND || FileBytes(f)[156] == PAX_KIND
  {
    hide Header, PaxRecord, Split, Concat;
    if Short(f.path) {
      HeaderIsGood(f.path, f.size, Mode(f), FILE_KIND);
    } else {
      HeaderIsGood(PAX_NAME, |PaxRecord(f.path)|, 384, PAX_KIND);
    }
  }

  /** Everything starts on a block boundary. */
  lemma {:induction false} Aligned(files: seq<File>)
    requires Archive(files).Ok?
    ensures |Archive(files).value| % BLOCK == 0
  {
    hide FileBytes, Problem, ValidFile;
    if files != [] {
      Aligned(files[1..]);
      FirstValid(files);
      FileAligned(files[0]);
      SumAligned(|FileBytes(files[0])|, |Archive(files[1..]).value|);
    }
  }

  lemma FirstValid(files: seq<File>)
    requires files != [] && Archive(files).Ok?
    ensures ValidFile(files[0]) && Archive(files[1..]).Ok?
    ensures Archive(files).value == FileBytes(files[0]) + Archive(files[1..]).value
  {
  }

  lemma SumAligned(a: nat, b: nat)
    requires a % BLOCK == 0 && b % BLOCK == 0
    ensures (a + b) % BLOCK == 0
  {
  }

  lemma FileAligned(f: File)
    requires ValidFile(f)
    ensures |FileBytes(f)| % BLOCK == 0
    ensures !Short(f.path) ==> |PaxBytes(f.path)| % BLOCK == 0
  {
    hide Header, PaxRecord, Split, Concat, Short, Padding;
    PaddingAligns(f.size);
    if !Short(f.path) {
      var n := |PaxRecord(f.path)|;
      PaddingAligns(n);
      SumAligned(BLOCK + n + Padding(n), BLOCK + f.size + Padding(f.size));
    }
  }

  datatype Placed = Placed(at: nat, header: seq<byte>)

  /** The headers of a file that is written at offset `at`: its own, after that of its pax record if it has one. */
  function FileHeaders(f: File, at: nat): seq<Placed>
    requires ValidFile(f)
  {
    if Short(f.path) then [Placed(at, Header(f.path, f.size, Mode(f), FILE_KIND))]
    else [Placed(at, Header(PAX_NAME, |PaxRecord(f.path)|, 384, PAX_KIND)),
          Placed(at + |PaxBytes(f.path)|, Header(FILE_NAME, f.size, Mode(f), FILE_KIND))]
  }

  /** All headers of an archive that starts at offset `at`. */
  function Headers(files: seq<File>, at: nat): seq<Placed>
    requires Archive(files).Ok?
  {
    if files == [] then []
    else
      FirstValid(files);
      FileHeaders(files[0], at) + Headers(files[1..], at + |FileBytes(files[0])|)
  }

  predicate There(b: seq<byte>, h: Placed) {
    h.at + BLOCK <= |b| && b[h.at..h.at + BLOCK] == h.header
  }

  lemma HeaderFirst(name: seq<byte>, size: nat, mode: nat, content: seq<byte>, before: seq<byte>, after: seq<byte>)
    requires Headed(name, size, mode) && |content| == size
    ensures There(before + BodyBytes(name, size, mode, content) + after,
                  Placed(|before|, Header(name, size, mode, FILE_KIND)))
  {
    hide Header, Repeat, Padding;
    BlockReads(name, size, mode, FILE_KIND, content, after);
    var h := Header(name, size, mode, FILE_KIND);
    var b := before + BodyBytes(name, size, mode, content) + after;
    var tail := BodyBytes(name, size, mode, content) + after;
    assert b == before + tail;
    assert tail[..BLOCK] == h;
  }

  lemma PaxFirst(path: Path, before: seq<byte>, after: seq<byte>)
    ensures There(before + PaxBytes(path) + after, Placed(|before|, Header(PAX_NAME, |PaxRecord(path)|, 384, PAX_KIND)))
  {
    hide Header, Repeat, Padding, PaxRecord;
    var r := PaxRecord(path);
    BlockReads(PAX_NAME, |r|, 384, PAX_KIND, r, after);
    var tail := PaxBytes(path) + after;
    assert before + PaxBytes(path) + after == before + tail;
    assert tail[..BLOCK] == Header(PAX_NAME, |r|, 384, PAX_KIND);
  }

  lemma FileHeadersThere(f: File, before: seq<byte>, after: seq<byte>)
    requires ValidFile(f) && |before| % BLOCK == 0
    ensures forall h | h in FileHeaders(f, |before|) :: h.at % BLOCK == 0 && There(before + FileBytes(f) + after, h)
  {
    hide Header, PaxRecord, Split, Concat, PaxBytes, BodyBytes, There;
    FileAligned(f);
    if Short(f.path) {
      HeaderFirst(f.path, f.size, Mode(f), Concat(f.chunks), before, after);
    } else {
      var pax, body := PaxBytes(f.path), BodyBytes(FILE_NAME, f.size, Mode(f), Concat(f.chunks));
      SumAligned(|before|, |pax|);
      PaxFirst(f.path, before, body + after);
      assert before + FileBytes(f) + after == before + pax + (body + after);
      HeaderFirst(FILE_NAME, f.size, Mode(f), Concat(f.chunks), before + pax, after);
      assert before + FileBytes(f) + after == before + pax + body + after;
    }
  }

  /** Every header of an archive, those of pax records included, is at a multiple of the block size. */
  lemma {:induction false} HeadersOnBoundaries(files: seq<File>, before: seq<byte>)
    requires Archive(files).Ok? && |before| % BLOCK == 0
    ensures forall h | h in Headers(files, |before|) :: h.at % BLOCK == 0 && There(before + Archive(files).value, h)
    decreases |files|
  {
    hide FileBytes, FileHeaders, There;
    if files != [] {
      FirstValid(files);
      var first := FileBytes(files[0]);
      var rest := Archive(files[1..]).value;
      FileHeadersThere(files[0], before, rest);
      FileAligned(files[0]);
      SumAligned(|before|, |first|);
      HeadersOnBoundaries(files[1..], before + first);
      assert before + Archive(files).value == before + first + rest;
    }
  }

  lemma PaddingAligns(n: nat)
    ensures (BLOCK + n + Padding(n)) % BLOCK == 0
    ensures BLOCK + n + Padding(n) == BLOCK + Blocks(n)
  {
    var q, r := n / BLOCK, n % BLOCK;
    assert n == q * BLOCK + r;
  }

  // ---- The short-path reader ----

  lemma ExtractBody(name: seq<byte>, size: nat, mode: nat, content: seq<byte>, tail: seq<byte>, files: Files)
    requires Headed(name, size, mode) && |content| == size
    requires name != [] && forall i | 0 <= i < |name| :: name[i] != 0
    ensures Extracted(BodyBytes(name, size, mode, content) + tail, files) == Extracted(tail, files[name := content])
  {
    hide Header, ParseInt, UpToNul, NameField, Repeat, GoodHeader, Padding, Blocks;
    BlockReads(name, size, mode, FILE_KIND, content, tail);
    HeaderIsGood(name, size, mode, FILE_KIND);
    FirstByte(name, size, mode, FILE_KIND);
    FullName(name);
    PaddingAligns(size);
    var b := BodyBytes(name, size, mode, content) + tail;
    var h := Header(name, size, mode, FILE_KIND);
    assert b[..BLOCK] == h;
    assert b[0] == h[0];
    assert b[..100] == h[..100] && b[124..136] == h[124..136];
    assert Sub(b, 0, 100) == NameField(name);
    assert Sub(b, BLOCK, BLOCK + size) == content;
    var next := BLOCK + Blocks(size);
    assert b[next..] == tail;
    if next >= |b| { assert tail == []; }
  }

  function Store(files: seq<File>, into: Files): Files {
    if files == [] then into else Store(files[1..], into[files[0].path := Concat(files[0].chunks)])
  }

  /** For short paths the paired reader returns every file; of two with one name, the later. */
  lemma {:induction false} ShortRoundTrip(files: seq<File>, into: Files)
    requires Archive(files).Ok? && forall f | f in files :: Short(f.path)
    ensures Extracted(Archive(files).value, into) == Store(files, into)
  {
    hide Header, Split, Concat, Short;
    if files != [] {
      assert files[0] in files;
      var rest := Archive(files[1..]).value;
      ShortFile(files[0], rest, into);
      ShortRoundTrip(files[1..], into[files[0].path := Concat(files[0].chunks)]);
    }
  }

  lemma ShortFile(f: File, tail: seq<byte>, into: Files)
    requires ValidFile(f) && Short(f.path)
    ensures Extracted(FileBytes(f) + tail, into) == Extracted(tail, into[f.path := Concat(f.chunks)])
  {
    hide Header, Split, Concat, Extracted;
    ExtractBody(f.path, f.size, Mode(f), Concat(f.chunks), tail, into);
  }

  lemma {:induction false} StoreKeeps(files: seq<File>, into: Files, path: seq<byte>)
    requires path in into && forall f | f in files :: f.path != path
    ensures path in Store(files, into) && Store(files, into)[path] == into[path]
  {
    if files != [] {
      assert files[0] in files;
      StoreKeeps(files[1..], into[files[0].path := Concat(files[0].chunks)], path);
    }
  }

  /** Every file whose name no later file has is found under its own path with its own content. */
  lemma {:induction false} StoreFinds(files: seq<File>, into: Files, i: nat)
    requires i < |files| && forall j | i < j < |files| :: files[j].path != files[i].path
    ensures files[i].path in Store(files, into)
    ensures Store(files, into)[files[i].path] == Concat(files[i].chunks)
  {
    var next := into[files[0].path := Concat(files[0].chunks)];
    if i == 0 {
      StoreKeeps(files[1..], next, files[0].path);
    } else {
      StoreFinds(files[1..], next, i - 1);
    }
  }

  /** The extracted names are those of the files and no others. */
  lemma {:induction false} StoreNames(files: seq<File>, into: Files, path: seq<byte>)
    ensures path in Store(files, into) <==> path in into || exists f | f in files :: f.path == path
  {
    if files != [] {
      StoreNames(files[1..], into[files[0].path := Concat(files[0].chunks)], path);
      assert files[0] in files;
      assert forall f | f in files :: f == files[0] || f in files[1..];
    }
  }

  // ---- The loops of the source ----

  method Write(block: array<byte>, s: seq<byte>, offset: nat)
    requires offset + |s| <= block.Length
    modifies block
    ensures block[..] == Splice(old(block[..]), offset, s)
  {
    ghost var before := block[..];
    for i := 0 to |s|
      invariant forall k | 0 <= k < block.Length ::
                  block[k] == if offset <= k < offset + i then s[k - offset] else before[k]
    {
      block[offset + i] := s[i];
    }
  }

  /** `header`: the fields are written in place, the checksum last. */
  method HeaderBlock(name: seq<byte>, size: nat, mode: nat, kind: byte) returns (block: array<byte>)
    requires Headed(name, size, mode)
    ensures fresh(block) && block[..] == Header(name, size, mode, kind)
  {
    hide OctalField, Splice, Sum, ChecksumField, PadStart;
    FieldLengths(size, mode);
    block := new byte[BLOCK](_ => 0);
    assert block[..] == Repeat(0, BLOCK);
    Write(block, name, 0);
    Write(block, OctalField(mode, 8), 100);
    Write(block, OctalField(0, 8), 108);
    Write(block, OctalField(0, 8), 116);
    Write(block, OctalField(size, 12), 124);
    Write(block, OctalField(0, 12), 136);
    Write(block, Repeat(SPACE, 8), 148);
    Write(block, [kind], 156);
    Write(block, USTAR, 257);
    Write(block, VERSION, 263);
    ChecksumFits(block[..]);
    var sum := SumOf(block);
    Write(block, ChecksumField(sum), 148);
  }

  method SumOf(block: array<byte>) returns (sum: nat)
    ensures sum == Sum(block[..])
  {
    sum := 0;
    for i := 0 to block.Length
      invariant sum == Sum(block[..i])
    {
      assert block[..i + 1][..i] == block[..i];
      sum := sum + block[i];
    }
    assert block[..block.Length] == block[..];
  }

  /** The content of one file, chunk by chunk, against the announced size. */
  method CopyContent(chunks: seq<seq<byte>>, size: nat) returns (out: seq<byte>, ok: bool)
    ensures ok <==> |Concat(chunks)| == size
    ensures ok ==> out == Concat(chunks)
  {
    out := [];
    var count := 0;
    for i := 0 to |chunks|
      invariant out == Concat(chunks[..i]) && count == |out| <= size
    {
      assert chunks[..i + 1][..i] == chunks[..i];
      count := count + |chunks[i]|;
      if count > size {
        ConcatPrefix(chunks, i + 1);
        return out, false;
      }
      out := out + chunks[i];
    }
    assert chunks[..|chunks|] == chunks;
    ok := count == size;
  }

  lemma {:induction false} ConcatPrefix(chunks: seq<seq<byte>>, i: nat)
    requires i <= |chunks|
    ensures |Concat(chunks[..i])| <= |Concat(chunks)|
  {
    if i < |chunks| {
      assert chunks[..|chunks| - 1][..i] == chunks[..i];
      ConcatPrefix(chunks[..|chunks| - 1], i);
    } else {
      assert chunks[..i] == chunks;
    }
  }

  method WriteFile(f: File) returns (r: Result<seq<byte>>)
    ensures r == if Problem(f).Some? then Err(Problem(f).value) else Ok(FileBytes(f))
  {
    hide Header, Split, Numeral, Settle;
    if !ValidPath(f.path) { return Err(InvalidPath); }
    if f.size < 0 || f.size > MAX_SIZE { return Err(InvalidSize); }
    var out := [];
    if !Short(f.path) {
      var length := ComputePaxLength(|Tail(f.path)|);
      var record := Numeral(length, 10) + Tail(f.path);
      assert record == PaxRecord(f.path);
      var pax := HeaderBlock(PAX_NAME, |record|, 384, PAX_KIND);
      out := pax[..] + record + Repeat(0, Padding(|record|));
    }
    var head := HeaderBlock(if Short(f.path) then f.path else FILE_NAME, f.size, Mode(f), FILE_KIND);
    var content, ok := CopyContent(f.chunks, f.size);
    if !ok { return Err(Changed); }
    var body := head[..] + content + Repeat(0, Padding(f.size));
    assert Short(f.path) ==> out + body == body;
    r := Ok(out + body);
  }

  /** `tar`: the files one after another, then two empty blocks. */
  method Tar(files: seq<File>) returns (r: Result<seq<byte>>)
    ensures r == Archive(files)
  {
    hide FileBytes, Problem;
    var out := [];
    assert files[0..] == files;
    assert Archive(files).Ok? ==> out + Archive(files).value == Archive(files).value;
    for i := 0 to |files|
      invariant Archive(files) == Onto(out, Archive(files[i..]))
    {
      var one := WriteFile(files[i]);
      assert files[i..][1..] == files[i + 1..];
      if one.Err? { return one; }
      ghost var rest := Archive(files[i + 1..]);
      assert rest.Ok? ==> out + (one.value + rest.value) == (out + one.value) + rest.value;
      out := out + one.value;
    }
    r := Ok(out + Repeat(0, 1024));
  }

  function Onto(out: seq<byte>, rest: Result<seq<byte>>): Result<seq<byte>> {
    if rest.Err? then rest else Ok(out + rest.value)
  }

  /** `extractEvidenceArchive` after decompression. */
  method Extract(tar: seq<byte>) returns (files: Files)
    ensures files == Extracted(tar, map[])
  {
    hide ParseInt, UpToNul, Blocks;
    files := map[];
    var offset := 0;
    while offset < |tar| && tar[offset] != 0
      invariant Extracted(if offset <= |tar| then tar[offset..] else [], files) == Extracted(tar, map[])
      decreases |tar| - offset
    {
      var b := tar[offset..];
      var name := UpToNul(Sub(b, 0, 100));
      var size := ParseInt(Sub(b, 124, 136), 8);
      if size.None? || size.value < 0 {
        files := files[name := []];
        return;
      }
      files := files[name := Sub(b, BLOCK, BLOCK + size.value)];
      var step := BLOCK + Blocks(size.value);
      assert step < |b| ==> b[step..] == tar[offset + step..];
      assert offset + step == |tar| ==> tar[offset + step..] == [];
      offset := offset + step;
    }
  }
}
