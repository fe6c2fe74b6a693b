/**
 The header loop of the Worker archive parser
 (scripts/takos-product-materializer.ts), and the ustar layout of IEEE Std
 1003.1-2017 (pax, "ustar Interchange Format") that it inverts.
 */
module Tar {
  import opened Wrappers
  import opened ArchivePath
  import opened Paths

  const BLOCK: nat := 512
  const MAX_ARCHIVE_ENTRIES: nat := 25_000

  datatype Kind = File | Directory

  datatype Entry = Entry(path: Bytes, kind: Kind, bytes: Bytes)

  datatype Header = Header(path: Option<Bytes>, size: nat, kind: Kind)

  // ----- Reading -----

  function Sum(bytes: Bytes): nat {
    if bytes == [] then 0 else bytes[0] + Sum(bytes[1..])
  }

  /** The header's byte sum with the checksum field read as eight spaces. */
  function Checksum(header: Bytes): nat
    requires |header| == BLOCK
  {
    Sum(header[..148]) + 8 * 32 + Sum(header[156..])
  }

  predicate AllZero(bytes: Bytes) {
    forall b | b in bytes :: b == 0
  }

  function JoinName(prefix: Bytes, name: Bytes): Bytes {
    if prefix != [] then prefix + [SLASH] + name else name
  }

  function ParseHeader(header: Bytes): Result<Header, ArchiveError>
    requires |header| == BLOCK
  {
    var stored := TarOctal(header[148..156]);
    if stored.Err? then Err(stored.error)
    else if stored.value != Checksum(header) then Err(ChecksumMismatch)
    else
      var name := TarString(header[0..100]);
      if name.Err? then Err(name.error)
      else
        var prefix := TarString(header[345..500]);
        if prefix.Err? then Err(prefix.error)
        else
          var path := SafeArchivePath(JoinName(prefix.value, name.value));
          if path.Err? then Err(path.error)
          else
            var size := TarOctal(header[124..136]);
            if size.Err? then Err(size.error)
            else if header[156] != 0 && header[156] != 48 && header[156] != 53 then Err(UnsupportedEntry)
            else Ok(Header(path.value, size.value, if header[156] == 53 then Directory else File))
  }

  function PaddedSize(size: nat): (padded: nat)
    ensures size <= padded < size + BLOCK && padded % BLOCK == 0
  {
    (size + BLOCK - 1) / BLOCK * BLOCK
  }

  function PathsOf(entries: seq<Entry>): set<Bytes> {
    set e | e in entries :: e.path
  }

  /** What is left after a member's data and padding; nothing if it runs out. */
  function AfterData(body: Bytes, size: nat): Bytes {
    if PaddedSize(size) <= |body| then body[PaddedSize(size)..] else []
  }

  function EntryFor(path: Bytes, header: Header, body: Bytes): Entry
    requires header.size <= |body|
  {
    Entry(path, header.kind, if header.kind == Directory then [] else body[..header.size])
  }

  /** The header loop on the bytes still to be read. */
  function ReadEntries(rest: Bytes, zeroBlocks: nat, entries: seq<Entry>): Result<seq<Entry>, ArchiveError>
    decreases |rest|
  {
    if |rest| < BLOCK then if zeroBlocks >= 2 then Ok(entries) else Err(MissingEnd)
    else
      var header, body := rest[..BLOCK], rest[BLOCK..];
      if AllZero(header) then
        if zeroBlocks + 1 >= 2 then Ok(entries) else ReadEntries(body, zeroBlocks + 1, entries)
      else if zeroBlocks != 0 then Err(DataAfterEnd)
      else
        var parsed := ParseHeader(header);
        if parsed.Err? then Err(parsed.error)
        else
          var h := parsed.value;
          if h.size > |body| then Err(Truncated)
          else if h.path.None? then ReadEntries(AfterData(body, h.size), 0, entries)
          else if h.path.value in PathsOf(entries) then Err(DuplicatePath)
          else if |entries| + 1 > MAX_ARCHIVE_ENTRIES then Err(TooManyEntries)
          else ReadEntries(AfterData(body, h.size), 0, entries + [EntryFor(h.path.value, h, body)])
  }

  // ----- Writing -----

  /** One member as a ustar writer lays it out. The name may be split between
      the prefix and name fields at a slash, start with `./` and end with a
      slash; ownership, times, link and padding bytes are the writer's choice. */
  datatype Member = Member(
    path: Bytes, dots: nat, slash: bool,
    prefix: Bytes, name: Bytes,
    kind: Kind, data: Bytes,
    oldStyle: bool, owner: Bytes, mtime: Bytes, link: Bytes, padding: Bytes)

  predicate ValidMember(m: Member) {
    && (Canonical(m.path) || (m.path == [] && m.dots > 0 && !m.slash))
    && JoinName(m.prefix, m.name) == Dots(m.dots) + m.path + (if m.slash then [SLASH] else [])
    && IsText(m.prefix) && IsText(m.name)
    && |m.prefix| <= 155 && |m.name| <= 100
    && |m.data| < Power8(11) && (m.kind == Directory ==> m.data == [])
    && |m.owner| == 24 && |m.mtime| == 12 && |m.link| == 188 && |m.padding| == 12
  }

  /** Neither text field has white space at an edge. */
  predicate Plain(m: Member) {
    PlainText(m.prefix) && PlainText(m.name)
  }

  /** The name a reader puts together from the trimmed fields. */
  function FieldsRead(m: Member): Bytes {
    JoinName(Trim(m.prefix), Trim(m.name))
  }

  function Front(m: Member): (s: Bytes)
    requires ValidMember(m)
    ensures |s| == 148
  {
    (m.name + Nuls(100 - |m.name|)) + m.owner + (Octal(|m.data|, 11) + ([0] + [])) + m.mtime
  }

  function TypeFlag(m: Member): Byte {
    if m.kind == Directory then 53 else if m.oldStyle then 0 else 48
  }

  function Back(m: Member): (s: Bytes)
    requires ValidMember(m)
    ensures |s| == 356
  {
    [TypeFlag(m)] + m.link + (m.prefix + Nuls(155 - |m.prefix|)) + m.padding
  }

  function WriteHeader(m: Member): (header: Bytes)
    requires ValidMember(m)
    ensures |header| == BLOCK
  {
    Front(m) + (Octal(Sum(Front(m)) + 8 * 32 + Sum(Back(m)), 6) + ([0] + [32])) + Back(m)
  }

  /** Header, data, and zero bytes up to the next block boundary. */
  function WriteMember(m: Member): Bytes
    requires ValidMember(m)
  {
    WriteHeader(m) + (m.data + Nuls(PaddedSize(|m.data|) - |m.data|))
  }

  function WriteMembers(ms: seq<Member>): Bytes
    requires forall m | m in ms :: ValidMember(m)
  {
    if ms == [] then [] else WriteMember(ms[0]) + WriteMembers(ms[1..])
  }

  /** The members, two zero blocks, and whatever a writer appends after them. */
  function WriteArchive(ms: seq<Member>, trailer: Bytes): Bytes
    requires forall m | m in ms :: ValidMember(m)
  {
    WriteMembers(ms) + (Nuls(BLOCK) + (Nuls(BLOCK) + trailer))
  }

  /** The entries an archive of `ms` stands for; the root itself is none. */
  function EntriesOf(ms: seq<Member>): seq<Entry> {
    if ms == [] then []
    else (if ms[0].path == [] then [] else [Entry(ms[0].path, ms[0].kind, ms[0].data)]) + EntriesOf(ms[1..])
  }

  predicate DistinctPaths(entries: seq<Entry>) {
    forall i, j | 0 <= i < j < |entries| :: entries[i].path != entries[j].path
  }

  // ----- A written header reads back -----

  lemma {:induction false} Middle(a: Bytes, b: Bytes, c: Bytes)
    ensures (a + b + c)[|a|..|a| + |b|] == b
  {
  }

  lemma {:induction false} SumBound(bytes: Bytes)
    ensures Sum(bytes) <= 255 * |bytes|
  {
    if bytes != [] { SumBound(bytes[1..]); }
  }

  lemma {:induction false} NameField(m: Member)
    requires ValidMember(m)
    ensures WriteHeader(m)[0..100] == m.name + Nuls(100 - |m.name|)
    ensures WriteHeader(m)[124..136] == Octal(|m.data|, 11) + ([0] + [])
  {
    var name := m.name + Nuls(100 - |m.name|);
    var size := Octal(|m.data|, 11) + ([0] + []);
    Middle([], name, m.owner + size + m.mtime);
    Middle(name + m.owner, size, m.mtime);
    assert Front(m)[0..100] == name && Front(m)[124..136] == size;
    assert WriteHeader(m)[..148] == Front(m);
    assert WriteHeader(m)[0..100] == WriteHeader(m)[..148][0..100];
    assert WriteHeader(m)[124..136] == WriteHeader(m)[..148][124..136];
  }

  lemma {:induction false} PrefixField(m: Member)
    requires ValidMember(m)
    ensures WriteHeader(m)[345..500] == m.prefix + Nuls(155 - |m.prefix|)
    ensures WriteHeader(m)[156] == TypeFlag(m)
  {
    var prefix := m.prefix + Nuls(155 - |m.prefix|);
    Middle([TypeFlag(m)] + m.link, prefix, m.padding);
    assert Back(m)[189..344] == prefix && Back(m)[0] == TypeFlag(m);
    assert WriteHeader(m)[156..] == Back(m);
    assert WriteHeader(m)[345..500] == WriteHeader(m)[156..][189..344];
    assert WriteHeader(m)[156] == WriteHeader(m)[156..][0];
  }

  lemma {:induction false} ChecksumField(m: Member)
    requires ValidMember(m)
    ensures TarOctal(WriteHeader(m)[148..156]) == Ok(Checksum(WriteHeader(m)))
  {
    var header := WriteHeader(m);
    var sum := Sum(Front(m)) + 8 * 32 + Sum(Back(m));
    Middle(Front(m), Octal(sum, 6) + ([0] + [32]), Back(m));
    assert header[..148] == Front(m) && header[156..] == Back(m);
    SumBound(Front(m));
    SumBound(Back(m));
    assert Power8(6) == 0x4_0000 by { assert Power8(3) == 512; }
    TarOctalReads(sum, 6, [32]);
  }

  lemma {:induction false} PathAccepted(m: Member)
    requires ValidMember(m)
    ensures SafeArchivePath(JoinName(m.prefix, m.name)) == Ok(if m.path == [] then None else Some(m.path))
  {
    if Canonical(m.path) {
      CanonicalAccepted(m.path, m.dots, m.slash);
      CanonicalStart(m.path);
    } else {
      var raw := Dots(m.dots);
      assert Dots(m.dots) + [] + [] == raw && raw + [] == raw;
      StripDotsAll(m.dots, []);
      DotsBytes(m.dots);
    }
  }

  lemma {:induction false} HeaderNotZero(m: Member)
    requires ValidMember(m)
    ensures !AllZero(WriteHeader(m))
  {
    NameField(m);
    var size := WriteHeader(m)[124..136];
    assert OctalDigit(Octal(|m.data|, 11)[0]) && size[0] == Octal(|m.data|, 11)[0];
    assert WriteHeader(m)[124] == size[0];
    assert WriteHeader(m)[124] in WriteHeader(m);
  }

  /** What the header written for a member parses to, whatever its fields hold. */
  lemma {:induction false} HeaderParses(m: Member)
    requires ValidMember(m)
    ensures var path := SafeArchivePath(FieldsRead(m));
            ParseHeader(WriteHeader(m)) ==
            if path.Err? then Err(path.error) else Ok(Header(path.value, |m.data|, m.kind))
  {
    hide ParseHeader, SafeArchivePath, TarOctal, TarString, WriteHeader, Checksum;
    ChecksumField(m);
    NameField(m);
    PrefixField(m);
    TarStringReads(m.name, 100 - |m.name|);
    TarStringReads(m.prefix, 155 - |m.prefix|);
    TarOctalReads(|m.data|, 11, []);
    FieldsDecide(WriteHeader(m), Trim(m.name), Trim(m.prefix), |m.data|);
  }

  lemma {:induction false} FieldsDecide(header: Bytes, name: Bytes, prefix: Bytes, size: nat)
    requires |header| == BLOCK && TarOctal(header[148..156]) == Ok(Checksum(header))
    requires TarString(header[0..100]) == Ok(name) && TarString(header[345..500]) == Ok(prefix)
    requires TarOctal(header[124..136]) == Ok(size) && header[156] in [0, 48, 53]
    ensures var path := SafeArchivePath(JoinName(prefix, name));
            ParseHeader(header) ==
            if path.Err? then Err(path.error)
            else Ok(Header(path.value, size, if header[156] == 53 then Directory else File))
  {
    hide SafeArchivePath;
  }

  lemma {:induction false} JoinSpaces(prefix: Bytes, name: Bytes)
    ensures Spaces(JoinName(prefix, name)) == Spaces(prefix) + Spaces(name)
  {
    SpacesConcat(prefix, [SLASH]);
    SpacesConcat(prefix + [SLASH], name);
    assert [SLASH][1..] == [];
  }

  /** Reading loses white space of the path exactly when a field is not plain. */
  lemma {:induction false} FieldSpaces(m: Member)
    requires ValidMember(m)
    ensures Spaces(FieldsRead(m)) <= Spaces(m.path)
    ensures Spaces(FieldsRead(m)) == Spaces(m.path) <==> Plain(m)
  {
    JoinSpaces(m.prefix, m.name);
    JoinSpaces(Trim(m.prefix), Trim(m.name));
    TrimSpaces(m.prefix);
    TrimSpaces(m.name);
    DotsSpaces(m.dots);
    SpacesConcat(Dots(m.dots), m.path);
    SpacesConcat(Dots(m.dots) + m.path, if m.slash then [SLASH] else []);
    assert [SLASH][1..] == [];
  }

  /** The header written for a member parses to its path, size and kind exactly
      when neither text field has white space at an edge. */
  lemma {:induction false} HeaderReads(m: Member)
    requires ValidMember(m)
    ensures ParseHeader(WriteHeader(m)) == Ok(Header(if m.path == [] then None else Some(m.path), |m.data|, m.kind))
            <==> Plain(m)
  {
    hide ParseHeader, SafeArchivePath, WriteHeader;
    HeaderParses(m);
    FieldSpaces(m);
    TrimSpaces(m.prefix);
    TrimSpaces(m.name);
    PathAccepted(m);
    if m.path != [] && SafeArchivePath(FieldsRead(m)) == Ok(Some(m.path)) { AcceptedSpaces(FieldsRead(m)); }
  }

  // ----- A written archive reads back -----

  lemma {:induction false} MemberBody(m: Member, rest: Bytes)
    requires ValidMember(m)
    ensures var all, body := WriteMember(m) + rest, m.data + Nuls(PaddedSize(|m.data|) - |m.data|) + rest;
            && |all| >= BLOCK && all[..BLOCK] == WriteHeader(m) && all[BLOCK..] == body
            && |m.data| <= |body| && body[..|m.data|] == m.data
            && AfterData(body, |m.data|) == rest
  {
  }

  /** One written member is one turn of the loop, whatever its fields hold. */
  lemma {:induction false} MemberTurn(m: Member, rest: Bytes, entries: seq<Entry>)
    requires ValidMember(m)
    ensures var path := SafeArchivePath(FieldsRead(m));
            ReadEntries(WriteMember(m) + rest, 0, entries) ==
            if path.Err? then Err(path.error)
            else if path.value.None? then ReadEntries(rest, 0, entries)
            else if path.value.value in PathsOf(entries) then Err(DuplicatePath)
            else if |entries| >= MAX_ARCHIVE_ENTRIES then Err(TooManyEntries)
            else ReadEntries(rest, 0, entries + [Entry(path.value.value, m.kind, m.data)])
  {
    hide ParseHeader, SafeArchivePath, WriteHeader, WriteMember, AfterData, AllZero, FieldsRead;
    MemberBody(m, rest);
    HeaderNotZero(m);
    HeaderParses(m);
  }

  /** One written member with plain fields adds its own entry. */
  lemma {:induction false} MemberReads(m: Member, rest: Bytes, entries: seq<Entry>)
    requires ValidMember(m) && Plain(m)
    requires m.path != [] ==> m.path !in PathsOf(entries) && |entries| < MAX_ARCHIVE_ENTRIES
    ensures ReadEntries(WriteMember(m) + rest, 0, entries) == ReadEntries(rest, 0, entries + EntriesOf([m]))
  {
    hide SafeArchivePath, ReadEntries, WriteMember;
    MemberTurn(m, rest, entries);
    TrimSpaces(m.prefix);
    TrimSpaces(m.name);
    PathAccepted(m);
    assert [m][1..] == [] && entries + [] == entries;
    assert EntriesOf([m]) == if m.path == [] then [] else [Entry(m.path, m.kind, m.data)];
  }

  lemma {:induction false} EndReads(trailer: Bytes, entries: seq<Entry>)
    ensures ReadEntries(Nuls(BLOCK) + (Nuls(BLOCK) + trailer), 0, entries) == Ok(entries)
  {
  }

  lemma {:induction false} MembersRead(ms: seq<Member>, trailer: Bytes, entries: seq<Entry>)
    requires forall m | m in ms :: ValidMember(m) && Plain(m)
    requires DistinctPaths(entries + EntriesOf(ms)) && |entries + EntriesOf(ms)| <= MAX_ARCHIVE_ENTRIES
    ensures ReadEntries(WriteArchive(ms, trailer), 0, entries) == Ok(entries + EntriesOf(ms))
    decreases ms
  {
    var end := Nuls(BLOCK) + (Nuls(BLOCK) + trailer);
    if ms == [] {
      EndReads(trailer, entries);
      assert [] + end == end && entries + [] == entries;
    } else {
      var first := EntriesOf([ms[0]]);
      FirstEntry(ms, entries);
      MemberReads(ms[0], WriteArchive(ms[1..], trailer), entries);
      ArchiveSplit(ms, trailer);
      MembersRead(ms[1..], trailer, entries + first);
    }
  }

  lemma {:induction false} ArchiveSplit(ms: seq<Member>, trailer: Bytes)
    requires ms != [] && forall m | m in ms :: ValidMember(m)
    ensures WriteArchive(ms, trailer) == WriteMember(ms[0]) + WriteArchive(ms[1..], trailer)
  {
  }

  lemma {:induction false} FirstEntry(ms: seq<Member>, entries: seq<Entry>)
    requires ms != [] && DistinctPaths(entries + EntriesOf(ms))
    ensures entries + EntriesOf(ms) == entries + EntriesOf([ms[0]]) + EntriesOf(ms[1..])
    ensures ms[0].path != [] ==> ms[0].path !in PathsOf(entries) && |entries| < |entries + EntriesOf(ms)|
  {
    var m, all := ms[0], entries + EntriesOf(ms);
    assert [m][1..] == [] && EntriesOf([m]) + [] == EntriesOf([m]);
    if m.path != [] {
      assert all[|entries|].path == m.path;
      forall e | e in entries ensures e.path != m.path {
        var i :| 0 <= i < |entries| && entries[i] == e;
        assert all[i] == e;
      }
    }
  }

  // ----- White space that does not survive -----

  function SpaceTotal(entries: seq<Entry>): nat {
    if entries == [] then 0 else Spaces(entries[0].path) + SpaceTotal(entries[1..])
  }

  /** The white space that a reader leaves in the members' names. */
  function SpacesRead(ms: seq<Member>): nat {
    if ms == [] then 0 else Spaces(FieldsRead(ms[0])) + SpacesRead(ms[1..])
  }

  lemma {:induction false} SpaceTotalConcat(a: seq<Entry>, b: seq<Entry>)
    ensures SpaceTotal(a + b) == SpaceTotal(a) + SpaceTotal(b)
  {
    if a == [] {
      assert a + b == b;
    } else {
      assert (a + b)[1..] == a[1..] + b;
      SpaceTotalConcat(a[1..], b);
    }
  }

  /** No more white space is read back than was written, and as much only if
      every field is plain. */
  lemma {:induction false} SpacesLost(ms: seq<Member>)
    requires forall m | m in ms :: ValidMember(m)
    ensures SpacesRead(ms) <= SpaceTotal(EntriesOf(ms))
    ensures SpacesRead(ms) == SpaceTotal(EntriesOf(ms)) <==> forall m | m in ms :: Plain(m)
  {
    hide ValidMember, FieldsRead, Plain;
    if ms == [] {
    } else {
      var first: seq<Entry> := if ms[0].path == [] then [] else [Entry(ms[0].path, ms[0].kind, ms[0].data)];
      FieldSpaces(ms[0]);
      SpacesLost(ms[1..]);
      SpaceTotalConcat(first, EntriesOf(ms[1..]));
      assert SpaceTotal(first) == Spaces(ms[0].path);
      assert ms == [ms[0]] + ms[1..];
    }
  }

  lemma {:induction false} SpacesOfRead(ms: seq<Member>, trailer: Bytes, entries: seq<Entry>)
    requires forall m | m in ms :: ValidMember(m)
    requires ReadEntries(WriteArchive(ms, trailer), 0, entries).Ok?
    ensures SpaceTotal(ReadEntries(WriteArchive(ms, trailer), 0, entries).value) <= SpaceTotal(entries) + SpacesRead(ms)
    decreases ms
  {
    hide ReadEntries, ValidMember, WriteArchive, SafeArchivePath, FieldsRead;
    if ms == [] {
      EmptyArchive(trailer, entries);
    } else {
      var path := SafeArchivePath(FieldsRead(ms[0]));
      MemberTurn(ms[0], WriteArchive(ms[1..], trailer), entries);
      ArchiveSplit(ms, trailer);
      if path.value.None? {
        SpacesOfRead(ms[1..], trailer, entries);
      } else {
        var entry := Entry(path.value.value, ms[0].kind, ms[0].data);
        AcceptedSpaces(FieldsRead(ms[0]));
        SpaceTotalConcat(entries, [entry]);
        assert [entry][1..] == [];
        SpacesOfRead(ms[1..], trailer, entries + [entry]);
      }
    }
  }

  lemma {:induction false} EmptyArchive(trailer: Bytes, entries: seq<Entry>)
    ensures ReadEntries(WriteArchive([], trailer), 0, entries) == Ok(entries)
  {
    var end := Nuls(BLOCK) + (Nuls(BLOCK) + trailer);
    EndReads(trailer, entries);
    assert [] + end == end;
  }

  /** Parsing inverts writing exactly when the members' paths are distinct and
      within the entry limit, and no prefix or name field has white space at an
      edge: such an archive, and no other, reads back as its members in order. */
  lemma {:induction false} ArchiveReads(ms: seq<Member>, trailer: Bytes)
    requires forall m | m in ms :: ValidMember(m)
    ensures ReadEntries(WriteArchive(ms, trailer), 0, []) == Ok(EntriesOf(ms)) <==>
            && DistinctPaths(EntriesOf(ms)) && |EntriesOf(ms)| <= MAX_ARCHIVE_ENTRIES
            && forall m | m in ms :: Plain(m)
  {
    hide ReadEntries, WriteArchive, Plain, ValidMember;
    var read := ReadEntries(WriteArchive(ms, trailer), 0, []);
    assert [] + EntriesOf(ms) == EntriesOf(ms);
    if DistinctPaths(EntriesOf(ms)) && |EntriesOf(ms)| <= MAX_ARCHIVE_ENTRIES && forall m | m in ms :: Plain(m) {
      MembersRead(ms, trailer, []);
    }
    if read == Ok(EntriesOf(ms)) {
      AcceptedSound(WriteArchive(ms, trailer), 0, []);
      SpacesOfRead(ms, trailer, []);
      SpacesLost(ms);
    }
  }

  /** A file of no bytes, named by its name field alone. */
  function EmptyFile(path: Bytes): Member {
    Member(path, 0, false, [], path, File, [], false, Nuls(24), Nuls(12), Nuls(188), Nuls(12))
  }

  lemma {:induction false} EmptyFileValid(path: Bytes)
    requires Segment(path) && Free(path, SLASH) && IsText(path) && |path| <= 100
    ensures Canonical(path) && ValidMember(EmptyFile(path))
  {
    SplitFree(path, SLASH);
    assert Power8(11) > 0;
    assert Dots(0) + path + [] == path;
  }

  const SPACED: Bytes := [32, 97]
  const BARE: Bytes := [97]

  lemma {:induction false} BareAccepted()
    ensures Segment(SPACED) && Segment(BARE) && Trim(SPACED) == BARE && Trim([]) == [] && Trim(BARE) == BARE
    ensures SafeArchivePath(BARE) == Ok(Some(BARE))
  {
    assert SPACED[1..] == BARE;
    SplitFree(BARE, SLASH);
    CanonicalAccepted(BARE, 0, false);
    assert Dots(0) + BARE + [] == BARE;
  }

  /** The canonical path ` a` comes back as `a`, and next to `a` it is refused. */
  lemma {:induction false} EdgeSpaceLost(trailer: Bytes)
    ensures var spaced, bare := EmptyFile(SPACED), EmptyFile(BARE);
            && ValidMember(spaced) && ValidMember(bare) && SPACED != BARE
            && ReadEntries(WriteArchive([spaced], trailer), 0, []) == Ok([Entry(BARE, File, [])])
            && ReadEntries(WriteArchive([spaced, bare], trailer), 0, []) == Err(DuplicatePath)
  {
    hide ReadEntries, WriteArchive, ValidMember, SafeArchivePath, EmptyFile, FieldsRead;
    var spaced, bare, entry := EmptyFile(SPACED), EmptyFile(BARE), Entry(BARE, File, []);
    EmptyFilesRead();
    EmptyArchive(trailer, [entry]);
    OneThen(spaced, [], trailer, []);
    OneThen(spaced, [bare], trailer, []);
    OneThen(bare, [], trailer, [entry]);
    assert [spaced] + [] == [spaced] && [spaced] + [bare] == [spaced, bare] && [bare] + [] == [bare];
    assert [] + [entry] == [entry] && BARE !in PathsOf([]);
    assert entry in [entry] && BARE in PathsOf([entry]);
  }

  lemma {:induction false} EmptyFilesRead()
    ensures var spaced, bare := EmptyFile(SPACED), EmptyFile(BARE);
            && ValidMember(spaced) && ValidMember(bare) && FieldsRead(spaced) == BARE && FieldsRead(bare) == BARE
            && spaced.kind == File && spaced.data == [] && SPACED != BARE
    ensures SafeArchivePath(BARE) == Ok(Some(BARE))
  {
    hide ValidMember, SafeArchivePath, Trim;
    BareAccepted();
    EmptyFileValid(SPACED);
    EmptyFileValid(BARE);
  }

  lemma {:induction false} OneThen(m: Member, ms: seq<Member>, trailer: Bytes, entries: seq<Entry>)
    requires ValidMember(m) && forall other | other in ms :: ValidMember(other)
    ensures WriteArchive([m] + ms, trailer) == WriteMember(m) + WriteArchive(ms, trailer)
    ensures FieldsRead(m) == BARE && SafeArchivePath(BARE) == Ok(Some(BARE)) && |entries| < MAX_ARCHIVE_ENTRIES ==>
              ReadEntries(WriteArchive([m] + ms, trailer), 0, entries) ==
              if BARE in PathsOf(entries) then Err(DuplicatePath)
              else ReadEntries(WriteArchive(ms, trailer), 0, entries + [Entry(BARE, m.kind, m.data)])
  {
    hide ReadEntries, WriteArchive, SafeArchivePath, ValidMember;
    assert ([m] + ms)[1..] == ms;
    ArchiveSplit([m] + ms, trailer);
    MemberTurn(m, WriteArchive(ms, trailer), entries);
  }

  // ----- What any accepted archive guarantees -----

  predicate Sound(entries: seq<Entry>) {
    && DistinctPaths(entries)
    && |entries| <= MAX_ARCHIVE_ENTRIES
    && forall e | e in entries :: Canonical(e.path) && (e.kind == Directory ==> e.bytes == [])
  }

  lemma {:induction false} SoundExtend(entries: seq<Entry>, header: Bytes, body: Bytes)
    requires Sound(entries) && |entries| < MAX_ARCHIVE_ENTRIES && |header| == BLOCK
    requires ParseHeader(header).Ok? && ParseHeader(header).value.path.Some?
    requires ParseHeader(header).value.path.value !in PathsOf(entries) && ParseHeader(header).value.size <= |body|
    ensures Sound(entries + [EntryFor(ParseHeader(header).value.path.value, ParseHeader(header).value, body)])
  {
    AcceptedCanonical(JoinName(TarString(header[345..500]).value, TarString(header[0..100]).value));
    assert forall e | e in entries :: e.path in PathsOf(entries);
  }

  /** Whatever bytes are accepted, the entries have distinct canonical paths. */
  lemma {:induction false} AcceptedSound(rest: Bytes, zeroBlocks: nat, entries: seq<Entry>)
    requires Sound(entries) && ReadEntries(rest, zeroBlocks, entries).Ok?
    ensures Sound(ReadEntries(rest, zeroBlocks, entries).value)
    ensures entries <= ReadEntries(rest, zeroBlocks, entries).value
    decreases |rest|
  {
    if |rest| >= BLOCK {
      var header, body := rest[..BLOCK], rest[BLOCK..];
      if AllZero(header) {
        if zeroBlocks + 1 < 2 { AcceptedSound(body, zeroBlocks + 1, entries); }
      } else {
        var h := ParseHeader(header).value;
        if h.path.None? {
          AcceptedSound(AfterData(body, h.size), 0, entries);
        } else {
          SoundExtend(entries, header, body);
          AcceptedSound(AfterData(body, h.size), 0, entries + [EntryFor(h.path.value, h, body)]);
        }
      }
    }
  }

  // ----- Exactly which archives are accepted -----

  /** What a header has to be to describe a member: its checksum is the byte sum
      with the checksum field as spaces, its text fields decode, they make a path,
      the size is a number, and it is a file or a directory. */
  predicate Describes(header: Bytes, h: Header) {
    && |header| == BLOCK
    && TarOctal(header[148..156]) == Ok(Sum(Blanked(header)))
    && TarString(header[0..100]).Ok? && TarString(header[345..500]).Ok?
    && (var prefix, name := TarString(header[345..500]).value, TarString(header[0..100]).value;
        SafeArchivePath(if prefix == [] then name else prefix + [SLASH] + name) == Ok(h.path))
    && TarOctal(header[124..136]) == Ok(h.size)
    && header[156] in (if h.kind == File then {0, 48} else {53})
  }

  lemma {:induction false} DescribesIff(header: Bytes, h: Header)
    requires |header| == BLOCK
    ensures ParseHeader(header) == Ok(h) <==> Describes(header, h)
  {
    BlankedSum(header);
    hide TarOctal, TarString, SafeArchivePath, Sum, Checksum, Blanked;
  }

  /** One member as it lies in an archive. */
  datatype Block = Block(header: Bytes, h: Header, data: Bytes, padding: Bytes)

  predicate WellLaid(b: Block) {
    && Describes(b.header, b.h) && !AllZero(b.header)
    && |b.data| == b.h.size && |b.padding| < BLOCK && (|b.data| + |b.padding|) % BLOCK == 0
  }

  function Flat(blocks: seq<Block>, rest: Bytes): Bytes {
    if blocks == [] then rest else blocks[0].header + (blocks[0].data + (blocks[0].padding + Flat(blocks[1..], rest)))
  }

  function Listed(blocks: seq<Block>): seq<Entry> {
    if blocks == [] then []
    else
      var b := blocks[0];
      (if b.h.path.None? then []
       else [Entry(b.h.path.value, b.h.kind, if b.h.kind == Directory then [] else b.data)]) + Listed(blocks[1..])
  }

  /** `rest` holds members that stand for `found`, and then two zero blocks. */
  ghost predicate Holds(rest: Bytes, found: seq<Entry>) {
    exists blocks, trailer ::
      && (forall b | b in blocks :: WellLaid(b)) && Listed(blocks) == found
      && rest == Flat(blocks, Nuls(2 * BLOCK) + trailer)
  }

  lemma {:induction false} PaddingUnique(size: nat, padding: nat)
    requires padding < BLOCK && (size + padding) % BLOCK == 0
    ensures size + padding == PaddedSize(size)
  {
  }

  lemma {:induction false} ZeroBlocks(trailer: Bytes)
    ensures var rest := Nuls(2 * BLOCK) + trailer;
            && |rest| >= 2 * BLOCK && AllZero(rest[..BLOCK]) && AllZero(rest[BLOCK..][..BLOCK])
  {
    var rest := Nuls(2 * BLOCK) + trailer;
    assert forall i | 0 <= i < 2 * BLOCK :: rest[i] == 0;
  }

  lemma {:induction false} ZerosAreNuls(rest: Bytes)
    requires |rest| >= 2 * BLOCK && AllZero(rest[..BLOCK]) && AllZero(rest[BLOCK..][..BLOCK])
    ensures rest == Nuls(2 * BLOCK) + rest[2 * BLOCK..]
  {
    forall i | 0 <= i < 2 * BLOCK ensures rest[i] == 0 {
      if i < BLOCK {
        assert rest[i] in rest[..BLOCK];
      } else {
        assert rest[BLOCK..][..BLOCK][i - BLOCK] in rest[BLOCK..][..BLOCK];
      }
    }
    assert rest[..2 * BLOCK] == Nuls(2 * BLOCK);
  }

  /** The two zero blocks end the archive, whatever follows them. */
  lemma {:induction false} EndIff(rest: Bytes, entries: seq<Entry>)
    requires |rest| >= BLOCK && AllZero(rest[..BLOCK])
    ensures ReadEntries(rest, 0, entries).Ok? <==> |rest| >= 2 * BLOCK && AllZero(rest[BLOCK..][..BLOCK])
    ensures ReadEntries(rest, 0, entries).Ok? ==> ReadEntries(rest, 0, entries).value == entries
  {
    hide ParseHeader;
  }

  lemma {:induction false} Sections(header: Bytes, data: Bytes, padding: Bytes, rest: Bytes)
    ensures var body := data + (padding + rest);
            && (header + body)[..|header|] == header && (header + body)[|header|..] == body
            && body[..|data|] == data && body[|data| + |padding|..] == rest
  {
  }

  lemma {:induction false} Rejoin(s: Bytes, n: nat, m: nat)
    requires n <= m <= |s|
    ensures s == s[..n] + (s[n..m] + s[m..]) && (n == m ==> s == s[..n] + s[n..])
  {
  }

  lemma {:induction false} Turn(all: Bytes, h: Header, entries: seq<Entry>)
    requires |all| >= BLOCK && !AllZero(all[..BLOCK]) && ParseHeader(all[..BLOCK]) == Ok(h) && h.size <= |all| - BLOCK
    ensures var body := all[BLOCK..];
            ReadEntries(all, 0, entries) ==
            if h.path.None? then ReadEntries(AfterData(body, h.size), 0, entries)
            else if h.path.value in PathsOf(entries) then Err(DuplicatePath)
            else if |entries| >= MAX_ARCHIVE_ENTRIES then Err(TooManyEntries)
            else ReadEntries(AfterData(body, h.size), 0, entries + [EntryFor(h.path.value, h, body)])
  {
    hide ParseHeader, AllZero, PathsOf, AfterData, EntryFor;
  }

  /** One turn of the loop on a member that is laid out well. */
  lemma {:induction false} BlockTurn(b: Block, rest: Bytes, entries: seq<Entry>)
    requires WellLaid(b)
    ensures var all := b.header + (b.data + (b.padding + rest));
            ReadEntries(all, 0, entries) ==
            if b.h.path.None? then ReadEntries(rest, 0, entries)
            else if b.h.path.value in PathsOf(entries) then Err(DuplicatePath)
            else if |entries| >= MAX_ARCHIVE_ENTRIES then Err(TooManyEntries)
            else ReadEntries(rest, 0, entries + Listed([b]))
  {
    DescribesIff(b.header, b.h);
    PaddingUnique(|b.data|, |b.padding|);
    hide ParseHeader, Describes, PaddedSize;
    var body := b.data + (b.padding + rest);
    var all := b.header + body;
    Sections(b.header, b.data, b.padding, rest);
    assert AfterData(body, b.h.size) == rest;
    hide AfterData, AllZero, PathsOf, ReadEntries;
    Turn(all, b.h, entries);
    ListedOne(b);
    assert b.h.path.Some? ==> Listed([b]) == [EntryFor(b.h.path.value, b.h, body)];
  }

  lemma {:induction false} ListedOne(b: Block)
    ensures Listed([b]) == if b.h.path.None? then []
            else [Entry(b.h.path.value, b.h.kind, if b.h.kind == Directory then [] else b.data)]
  {
    assert [b][1..] == [];
  }

  predicate NewPaths(entries: seq<Entry>, found: seq<Entry>) {
    DistinctPaths(entries + found) && |entries + found| <= MAX_ARCHIVE_ENTRIES
  }

  lemma {:induction false} NewPath(entries: seq<Entry>, first: Entry, rest: seq<Entry>)
    requires DistinctPaths(entries) && |entries| <= MAX_ARCHIVE_ENTRIES
    ensures NewPaths(entries, [first] + rest) ==>
              first.path !in PathsOf(entries) && |entries| < MAX_ARCHIVE_ENTRIES && NewPaths(entries + [first], rest)
    ensures first.path !in PathsOf(entries) && |entries| < MAX_ARCHIVE_ENTRIES ==> DistinctPaths(entries + [first])
    ensures entries + ([first] + rest) == entries + [first] + rest
  {
    var all := entries + ([first] + rest);
    assert all == entries + [first] + rest;
    assert forall i | 0 <= i < |entries| :: all[i] == entries[i] && entries[i] in entries;
    assert all[|entries|] == first;
    assert forall e | e in entries :: e.path in PathsOf(entries);
  }

  /** Members that are laid out well, then two zero blocks, are read as listed. */
  lemma {:induction false} LaidReads(blocks: seq<Block>, trailer: Bytes, entries: seq<Entry>)
    requires (forall b | b in blocks :: WellLaid(b)) && DistinctPaths(entries) && |entries| <= MAX_ARCHIVE_ENTRIES
    requires NewPaths(entries, Listed(blocks))
    ensures ReadEntries(Flat(blocks, Nuls(2 * BLOCK) + trailer), 0, entries) == Ok(entries + Listed(blocks))
    decreases blocks
  {
    hide ReadEntries, WellLaid, DistinctPaths, NewPaths, PathsOf;
    var end := Nuls(2 * BLOCK) + trailer;
    if blocks == [] {
      ZeroBlocks(trailer);
      EndIff(end, entries);
      assert entries + [] == entries;
    } else {
      var b, rest := blocks[0], blocks[1..];
      BlockTurn(b, Flat(rest, end), entries);
      ListedOne(b);
      if b.h.path.Some? {
        NewPath(entries, Listed([b])[0], Listed(rest));
        LaidReads(rest, trailer, entries + Listed([b]));
      } else {
        assert [] + Listed(rest) == Listed(rest);
        LaidReads(rest, trailer, entries);
      }
    }
  }

  /** A member that is read is complete, and its path is new. */
  lemma {:induction false} ReadsComplete(rest: Bytes, entries: seq<Entry>)
    requires |rest| >= BLOCK && !AllZero(rest[..BLOCK]) && ReadEntries(rest, 0, entries).Ok?
    ensures var parsed := ParseHeader(rest[..BLOCK]);
            && parsed.Ok? && PaddedSize(parsed.value.size) <= |rest| - BLOCK
            && (parsed.value.path.Some? ==>
                  parsed.value.path.value !in PathsOf(entries) && |entries| < MAX_ARCHIVE_ENTRIES)
  {
    hide ParseHeader, PathsOf, AllZero, PaddedSize;
    var header, body := rest[..BLOCK], rest[BLOCK..];
    var h := ParseHeader(header).value;
    if PaddedSize(h.size) > |body| {
      assert AfterData(body, h.size) == [];
      NothingToRead(entries);
      if h.path.Some? { NothingToRead(entries + [EntryFor(h.path.value, h, body)]); }
    }
  }

  lemma {:induction false} LaidWell(header: Bytes, h: Header, body: Bytes)
    requires Describes(header, h) && !AllZero(header) && PaddedSize(h.size) <= |body|
    ensures WellLaid(Block(header, h, body[..h.size], body[h.size..PaddedSize(h.size)]))
  {
    hide Describes, AllZero;
  }

  lemma {:induction false} FirstBlock(rest: Bytes, entries: seq<Entry>) returns (b: Block, left: Bytes)
    requires |rest| >= BLOCK && !AllZero(rest[..BLOCK]) && ReadEntries(rest, 0, entries).Ok?
    ensures WellLaid(b) && rest == b.header + (b.data + (b.padding + left)) && |left| < |rest|
    ensures b.h.path.Some? ==> b.h.path.value !in PathsOf(entries) && |entries| < MAX_ARCHIVE_ENTRIES
  {
    ReadsComplete(rest, entries);
    var header, body := rest[..BLOCK], rest[BLOCK..];
    var h := ParseHeader(header).value;
    DescribesIff(header, h);
    hide ReadEntries, PathsOf, AllZero, ParseHeader, Describes, WellLaid;
    LaidWell(header, h, body);
    Rejoin(rest, BLOCK, BLOCK);
    Rejoin(body, h.size, PaddedSize(h.size));
    b := Block(header, h, body[..h.size], body[h.size..PaddedSize(h.size)]);
    left := body[PaddedSize(h.size)..];
  }

  lemma {:induction false} NothingToRead(entries: seq<Entry>)
    ensures ReadEntries([], 0, entries) == Err(MissingEnd)
  {
  }

  /** What is read was laid out so. */
  lemma {:induction false} ReadsLaid(rest: Bytes, entries: seq<Entry>) returns (blocks: seq<Block>, trailer: Bytes)
    requires DistinctPaths(entries) && |entries| <= MAX_ARCHIVE_ENTRIES && ReadEntries(rest, 0, entries).Ok?
    ensures (forall b | b in blocks :: WellLaid(b)) && NewPaths(entries, Listed(blocks))
    ensures rest == Flat(blocks, Nuls(2 * BLOCK) + trailer)
    ensures ReadEntries(rest, 0, entries) == Ok(entries + Listed(blocks))
    decreases |rest|
  {
    hide ParseHeader, Describes;
    var header, body := rest[..BLOCK], rest[BLOCK..];
    if AllZero(header) {
      EndIff(rest, entries);
      ZerosAreNuls(rest);
      blocks, trailer := [], rest[2 * BLOCK..];
      assert entries + [] == entries;
    } else {
      var b, left := FirstBlock(rest, entries);
      BlockTurn(b, left, entries);
      ListedOne(b);
      var more;
      if b.h.path.Some? {
        NewPath(entries, Listed([b])[0], []);
        more, trailer := ReadsLaid(left, entries + Listed([b]));
        NewPath(entries, Listed([b])[0], Listed(more));
      } else {
        more, trailer := ReadsLaid(left, entries);
        assert [] + Listed(more) == Listed(more);
      }
      blocks := [b] + more;
      assert blocks[1..] == more;
    }
  }

  /** The whole reader: an archive is accepted with these entries if and only if
      it is laid out as members that stand for them, with distinct paths and
      within the limit, followed by two zero blocks. */
  lemma {:induction false} AcceptedIff(bytes: Bytes, found: seq<Entry>)
    ensures ReadEntries(bytes, 0, []) == Ok(found) <==>
            Holds(bytes, found) && DistinctPaths(found) && |found| <= MAX_ARCHIVE_ENTRIES
  {
    assert [] + found == found;
    if ReadEntries(bytes, 0, []) == Ok(found) {
      var blocks, trailer := ReadsLaid(bytes, []);
      assert [] + Listed(blocks) == Listed(blocks);
    } else if Holds(bytes, found) && DistinctPaths(found) && |found| <= MAX_ARCHIVE_ENTRIES {
      var blocks, trailer :| (forall b | b in blocks :: WellLaid(b)) && Listed(blocks) == found
                             && bytes == Flat(blocks, Nuls(2 * BLOCK) + trailer);
      LaidReads(blocks, trailer, []);
    }
  }

  // ----- The loop itself -----

  /** The bytes from `offset` on; none once it is past the end. */
  ghost function From(bytes: Bytes, offset: nat): Bytes
    decreases offset
  {
    if offset == 0 || bytes == [] then bytes else From(bytes[1..], offset - 1)
  }

  lemma {:induction false} FromSlice(bytes: Bytes, offset: nat)
    ensures From(bytes, offset) == if offset <= |bytes| then bytes[offset..] else []
    decreases offset
  {
    if offset == 0 || bytes == [] {
    } else {
      FromSlice(bytes[1..], offset - 1);
    }
  }

  lemma {:induction false} FromBlock(bytes: Bytes, offset: nat)
    requires offset + BLOCK <= |bytes|
    ensures |From(bytes, offset)| >= BLOCK
    ensures From(bytes, offset)[..BLOCK] == bytes[offset..offset + BLOCK]
    ensures From(bytes, offset)[BLOCK..] == From(bytes, offset + BLOCK)
  {
    FromSlice(bytes, offset);
    FromSlice(bytes, offset + BLOCK);
  }

  lemma {:induction false} FromData(bytes: Bytes, offset: nat, size: nat)
    requires offset <= |bytes|
    ensures |From(bytes, offset)| == |bytes| - offset
    ensures AfterData(From(bytes, offset), size) == From(bytes, offset + PaddedSize(size))
    ensures offset + size <= |bytes| ==> From(bytes, offset)[..size] == bytes[offset..offset + size]
  {
    FromSlice(bytes, offset);
    FromSlice(bytes, offset + PaddedSize(size));
  }

  lemma {:induction false} FromEnd(bytes: Bytes, offset: nat)
    requires offset + BLOCK > |bytes|
    ensures |From(bytes, offset)| < BLOCK
  {
    FromSlice(bytes, offset);
  }

  method ReadArchive(expanded: Bytes) returns (r: Result<seq<Entry>, ArchiveError>)
    ensures r == ReadEntries(expanded, 0, [])
    ensures r.Ok? ==> Sound(r.value)
  {
    hide ParseHeader;
    var entries: seq<Entry>, names: set<Bytes> := [], {};
    var offset, zeroBlocks := 0, 0;
    while offset + BLOCK <= |expanded|
      invariant offset % BLOCK == 0 && zeroBlocks <= 1
      invariant names == PathsOf(entries)
      invariant ReadEntries(From(expanded, offset), zeroBlocks, entries) == ReadEntries(expanded, 0, [])
      decreases |expanded| - offset
    {
      var header := expanded[offset..offset + BLOCK];
      FromBlock(expanded, offset);
      offset := offset + BLOCK;
      if AllZero(header) {
        zeroBlocks := zeroBlocks + 1;
        if zeroBlocks >= 2 {
          AcceptedSound(expanded, 0, []);
          return Ok(entries);
        }
        continue;
      }
      if zeroBlocks != 0 {
        return Err(DataAfterEnd);
      }
      var parsed := ReadHeader(header);
      if parsed.Err? {
        return Err(parsed.error);
      }
      var path, size, kind := parsed.value.path, parsed.value.size, parsed.value.kind;
      FromData(expanded, offset, size);
      if offset + size > |expanded| {
        return Err(Truncated);
      }
      if path.Some? {
        if path.value in names {
          return Err(DuplicatePath);
        }
        names := names + {path.value};
        var entry := Entry(path.value, kind, if kind == Directory then [] else expanded[offset..offset + size]);
        PathsExtend(entries, entry);
        entries := entries + [entry];
        if |entries| > MAX_ARCHIVE_ENTRIES {
          return Err(TooManyEntries);
        }
      }
      offset := offset + PaddedSize(size);
    }
    FromEnd(expanded, offset);
    r := Err(MissingEnd);
  }

  lemma {:induction false} PathsExtend(entries: seq<Entry>, entry: Entry)
    ensures PathsOf(entries + [entry]) == PathsOf(entries) + {entry.path}
  {
  }

  method ReadHeader(header: Bytes) returns (r: Result<Header, ArchiveError>)
    requires |header| == BLOCK
    ensures r == ParseHeader(header)
  {
    var stored := TarOctal(header[148..156]);
    if stored.Err? {
      return Err(stored.error);
    }
    var computed := ComputeChecksum(header);
    if stored.value != computed {
      return Err(ChecksumMismatch);
    }
    var name := TarString(header[0..100]);
    if name.Err? {
      return Err(name.error);
    }
    var prefix := TarString(header[345..500]);
    if prefix.Err? {
      return Err(prefix.error);
    }
    var path := SafeArchivePath(JoinName(prefix.value, name.value));
    if path.Err? {
      return Err(path.error);
    }
    var size := TarOctal(header[124..136]);
    if size.Err? {
      return Err(size.error);
    }
    var typeFlag := header[156];
    if typeFlag != 0 && typeFlag != 48 && typeFlag != 53 {
      return Err(UnsupportedEntry);
    }
    r := Ok(Header(path.value, size.value, if typeFlag == 53 then Directory else File));
  }

  method ComputeChecksum(header: Bytes) returns (sum: nat)
    requires |header| == BLOCK
    ensures sum == Checksum(header)
  {
    sum := 0;
    ghost var rest := Blanked(header);
    for index := 0 to |header|
      invariant rest == Blanked(header)[index..]
      invariant sum + Sum(rest) == Sum(Blanked(header))
    {
      assert rest == [Blanked(header)[index]] + Blanked(header)[index + 1..]
             && rest[1..] == Blanked(header)[index + 1..];
      rest := rest[1..];
      sum := sum + if 148 <= index < 156 then 32 else header[index];
    }
    BlankedSum(header);
  }

  function Blanked(header: Bytes): (s: Bytes)
    requires |header| == BLOCK
    ensures |s| == BLOCK
  {
    seq(BLOCK, i requires 0 <= i < BLOCK => if 148 <= i < 156 then 32 else header[i])
  }

  lemma {:induction false} SumConcat(a: Bytes, b: Bytes)
    ensures Sum(a + b) == Sum(a) + Sum(b)
  {
    if a == [] {
      assert a + b == b;
    } else {
      assert (a + b)[1..] == a[1..] + b;
      SumConcat(a[1..], b);
    }
  }

  lemma {:induction false} BlankedSum(header: Bytes)
    requires |header| == BLOCK
    ensures Sum(Blanked(header)) == Checksum(header)
  {
    var spaces: Bytes := [32, 32, 32, 32, 32, 32, 32, 32];
    assert Blanked(header) == header[..148] + (spaces + header[156..]);
    SumConcat(header[..148], spaces + header[156..]);
    SumConcat(spaces, header[156..]);
    assert Sum(spaces) == 8 * 32 by {
      var four: Bytes := [32, 32, 32, 32];
      assert spaces == four + four;
      SumConcat(four, four);
      assert four == [32, 32] + [32, 32];
      SumConcat([32, 32], [32, 32]);
      assert Sum([32, 32]) == 64;
    }
  }
}
