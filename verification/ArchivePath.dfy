/**
 Archive member names: the text fields of a ustar header and the rules a member
 path must meet (scripts/takos-product-materializer.ts). Names are sequences of
 ASCII bytes.
 */
module ArchivePath {
  import opened Wrappers
  import opened Paths

  type Byte = b: int | 0 <= b < 256
  type Bytes = seq<Byte>

  const SLASH: Byte := 47
  const DOT: Byte := 46
  const CURRENT: Bytes := [DOT]
  const PARENT: Bytes := [DOT, DOT]

  datatype ArchiveError =
    | Undecodable
    | NotOctal
    | UnsafeNumber
    | ChecksumMismatch
    | InvalidPath
    | AbsolutePath
    | NotCanonical
    | EscapingPath
    | UnsupportedEntry
    | Truncated
    | DuplicatePath
    | TooManyEntries
    | DataAfterEnd
    | MissingEnd

  // ----- Header text fields -----

  predicate IsSpace(b: Byte) { b == 32 || 9 <= b <= 13 }

  function TrimLeft(s: Bytes): Bytes {
    if s != [] && IsSpace(s[0]) then TrimLeft(s[1..]) else s
  }

  function TrimRight(s: Bytes): Bytes {
    if s != [] && IsSpace(s[|s| - 1]) then TrimRight(s[..|s| - 1]) else s
  }

  function UntilNul(s: Bytes): Bytes {
    if s == [] || s[0] == 0 then [] else [s[0]] + UntilNul(s[1..])
  }

  function TarString(field: Bytes): Result<Bytes, ArchiveError> {
    var text := UntilNul(field);
    if exists b | b in text :: b >= 128 then Err(Undecodable) else Ok(Trim(text))
  }

  function Trim(s: Bytes): Bytes {
    TrimRight(TrimLeft(s))
  }

  /** ASCII text without NUL. */
  predicate IsText(s: Bytes) {
    forall b | b in s :: 0 < b < 128
  }

  /** Text with no white space at either edge. */
  predicate PlainText(s: Bytes) {
    IsText(s) && (s != [] ==> !IsSpace(s[0]) && !IsSpace(s[|s| - 1]))
  }

  /** How many white-space bytes there are. */
  function Spaces(s: Bytes): nat {
    if s == [] then 0 else (if IsSpace(s[0]) then 1 else 0) + Spaces(s[1..])
  }

  function Nuls(n: nat): (s: Bytes)
    ensures |s| == n
  {
    seq(n, _ => 0)
  }

  lemma {:induction false} UntilNulStops(s: Bytes, rest: Bytes)
    requires 0 !in s && (rest != [] ==> rest[0] == 0)
    ensures UntilNul(s + rest) == s
  {
    if s == [] {
      assert s + rest == rest;
    } else {
      assert (s + rest)[1..] == s[1..] + rest;
      assert s == [s[0]] + s[1..];
      UntilNulStops(s[1..], rest);
    }
  }

  lemma {:induction false} SpacesConcat(a: Bytes, b: Bytes)
    ensures Spaces(a + b) == Spaces(a) + Spaces(b)
  {
    if a == [] {
      assert a + b == b;
    } else {
      assert (a + b)[1..] == a[1..] + b;
      SpacesConcat(a[1..], b);
    }
  }

  lemma {:induction false} TrimLeftSpaces(s: Bytes)
    ensures Spaces(TrimLeft(s)) <= Spaces(s)
    ensures Spaces(TrimLeft(s)) == Spaces(s) ==> TrimLeft(s) == s && (s != [] ==> !IsSpace(s[0]))
  {
    if s == [] || !IsSpace(s[0]) {
    } else {
      TrimLeftSpaces(s[1..]);
    }
  }

  lemma {:induction false} TrimRightSpaces(s: Bytes)
    ensures Spaces(TrimRight(s)) <= Spaces(s)
    ensures Spaces(TrimRight(s)) == Spaces(s) ==> TrimRight(s) == s && (s != [] ==> !IsSpace(s[|s| - 1]))
    decreases |s|
  {
    if s == [] || !IsSpace(s[|s| - 1]) {
    } else {
      var front := s[..|s| - 1];
      TrimRightSpaces(front);
      SpacesConcat(front, [s[|s| - 1]]);
      assert s == front + [s[|s| - 1]] && [s[|s| - 1]][1..] == [];
    }
  }

  /** Trimming loses white space exactly when there is some at an edge. */
  lemma {:induction false} TrimSpaces(s: Bytes)
    requires IsText(s)
    ensures Spaces(Trim(s)) <= Spaces(s)
    ensures Trim(s) == s <==> PlainText(s)
    ensures Spaces(Trim(s)) == Spaces(s) <==> PlainText(s)
  {
    TrimLeftSpaces(s);
    TrimRightSpaces(TrimLeft(s));
  }

  /** A field padded with NULs reads back as its trimmed text, so as the text
      itself exactly when that has no white space at an edge. */
  lemma {:induction false} TarStringReads(s: Bytes, padding: nat)
    requires IsText(s)
    ensures TarString(s + Nuls(padding)) == Ok(Trim(s))
    ensures TarString(s + Nuls(padding)) == Ok(s) <==> PlainText(s)
  {
    assert 0 !in s;
    UntilNulStops(s, Nuls(padding));
    TrimSpaces(s);
  }

  // ----- Octal numbers -----

  const MAX_SAFE_INTEGER: nat := 0x1F_FFFF_FFFF_FFFF

  predicate OctalDigit(b: Byte) { 48 <= b <= 55 }

  function StripZeros(s: Bytes): Bytes {
    if s != [] && s[0] == 48 then StripZeros(s[1..]) else s
  }

  function OctalValue(digits: Bytes): nat
    requires forall b | b in digits :: OctalDigit(b)
  {
    if digits == [] then 0
    else
      var last: int := digits[|digits| - 1];
      assert OctalDigit(digits[|digits| - 1]);
      OctalValue(digits[..|digits| - 1]) * 8 + (last - 48)
  }

  function TarOctal(field: Bytes): Result<nat, ArchiveError> {
    var text := TarString(field);
    if text.Err? then Err(text.error)
    else
      var stripped := StripZeros(text.value);
      var digits := if stripped == [] then [48] else stripped;
      if exists b | b in digits :: !OctalDigit(b) then Err(NotOctal)
      else if OctalValue(digits) > MAX_SAFE_INTEGER then Err(UnsafeNumber)
      else Ok(OctalValue(digits))
  }

  function Power8(n: nat): nat {
    if n == 0 then 1 else 8 * Power8(n - 1)
  }

  /** `value` as `width` octal digits. */
  function Octal(value: nat, width: nat): (digits: Bytes)
    ensures |digits| == width && forall b | b in digits :: OctalDigit(b)
  {
    if width == 0 then [] else Octal(value / 8, width - 1) + [48 + value % 8]
  }

  lemma {:induction false} OctalInverse(value: nat, width: nat)
    requires value < Power8(width)
    ensures OctalValue(Octal(value, width)) == value
  {
    if width == 0 {
    } else {
      OctalInverse(value / 8, width - 1);
      var digits := Octal(value, width);
      assert digits[..|digits| - 1] == Octal(value / 8, width - 1);
    }
  }

  lemma {:induction false} LeadingZero(digits: Bytes)
    requires forall b | b in digits :: OctalDigit(b)
    ensures OctalValue([48] + digits) == OctalValue(digits)
  {
    var d := [48] + digits;
    if digits == [] {
      assert d[..|d| - 1] == [];
    } else {
      LeadingZero(digits[..|digits| - 1]);
      assert d[..|d| - 1] == [48] + digits[..|digits| - 1];
    }
  }

  lemma {:induction false} StripZerosValue(digits: Bytes)
    requires forall b | b in digits :: OctalDigit(b)
    ensures forall b | b in StripZeros(digits) :: OctalDigit(b)
    ensures OctalValue(StripZeros(digits)) == OctalValue(digits)
  {
    if digits == [] || digits[0] != 48 {
    } else {
      StripZerosValue(digits[1..]);
      LeadingZero(digits[1..]);
      assert digits == [48] + digits[1..];
    }
  }

  lemma {:induction false} Power8Bound(width: nat)
    requires width <= 11
    ensures Power8(width) <= 0x2_0000_0000
  {
    assert Power8(11) == 0x2_0000_0000 by {
      assert Power8(3) == 512;
      assert Power8(6) == 0x4_0000;
      assert Power8(9) == 0x800_0000;
    }
    PowerMonotone(width, 11);
  }

  lemma {:induction false} PowerMonotone(a: nat, b: nat)
    requires a <= b
    ensures Power8(a) <= Power8(b)
  {
    if a >= b {
    } else {
      PowerMonotone(a, b - 1);
    }
  }

  /** A number written as octal digits and closed by a NUL reads back. */
  lemma {:induction false} TarOctalReads(value: nat, width: nat, rest: Bytes)
    requires 0 < width <= 11 && value < Power8(width)
    ensures TarOctal(Octal(value, width) + ([0] + rest)) == Ok(value)
  {
    hide TarString;
    var digits := Octal(value, width);
    DigitsRead(digits, rest);
    StripZerosValue(digits);
    OctalInverse(value, width);
    Power8Bound(width);
    assert OctalValue([48]) == OctalValue([]) by { LeadingZero([]); assert [48] + [] == [48]; }
  }

  lemma {:induction false} DigitsRead(digits: Bytes, rest: Bytes)
    requires forall b | b in digits :: OctalDigit(b)
    ensures TarString(digits + ([0] + rest)) == Ok(digits)
  {
    UntilNulStops(digits, [0] + rest);
    assert digits != [] ==> digits[0] in digits && digits[|digits| - 1] in digits;
    TrimSpaces(digits);
  }

  // ----- Member paths -----

  /** What is left once every leading `./` is removed. */
  function StripDots(s: Bytes): Bytes {
    if |s| >= 2 && s[0] == DOT && s[1] == SLASH then StripDots(s[2..]) else s
  }

  /** The segments `posix.normalize` keeps of a relative path. */
  function Resolve(segments: seq<Bytes>, kept: seq<Bytes>): seq<Bytes>
    decreases segments
  {
    if segments == [] then kept
    else if segments[0] == [] || segments[0] == CURRENT then Resolve(segments[1..], kept)
    else if segments[0] == PARENT && kept != [] && kept[|kept| - 1] != PARENT then
      Resolve(segments[1..], kept[..|kept| - 1])
    else Resolve(segments[1..], kept + [segments[0]])
  }

  /** `posix.normalize` on a relative path. */
  function NormalizeRelative(s: Bytes): Bytes
    requires s != [] && s[0] != SLASH
  {
    var trailing := s[|s| - 1] == SLASH;
    var joined := Join(Resolve(Split(s, SLASH), []), SLASH);
    (if joined != [] then joined else CURRENT) + (if trailing then [SLASH] else [])
  }

  function DropTrailingSlash(s: Bytes): Bytes {
    if s != [] && s[|s| - 1] == SLASH then s[..|s| - 1] else s
  }

  /** The canonical path of a member, or none when it names the root. */
  function SafeArchivePath(raw: Bytes): Result<Option<Bytes>, ArchiveError> {
    if raw == [] || 0 in raw || 92 in raw then Err(InvalidPath)
    else
      var value := StripDots(raw);
      if value == CURRENT || value == [] then Ok(None)
      else if value[0] == SLASH then Err(AbsolutePath)
      else if NormalizeRelative(value) != value then Err(NotCanonical)
      else if PARENT in Split(value, SLASH) then Err(EscapingPath)
      else Ok(Some(DropTrailingSlash(value)))
  }

  predicate Segment(s: Bytes) {
    s != [] && s != CURRENT && s != PARENT && 0 !in s && 92 !in s
  }

  /** A relative path of proper segments: none empty, none `.` or `..`. */
  predicate Canonical(path: Bytes) {
    forall s | s in Split(path, SLASH) :: Segment(s)
  }

  function Dots(n: nat): Bytes {
    if n == 0 then [] else [DOT, SLASH] + Dots(n - 1)
  }

  lemma {:induction false} ResolveKeeps(segments: seq<Bytes>, kept: seq<Bytes>)
    requires forall s | s in segments :: Segment(s)
    ensures Resolve(segments, kept) == kept + segments
    ensures Resolve(segments + [[]], kept) == kept + segments
    decreases segments
  {
    if segments == [] {
      assert segments + [[]] == [[]] && (segments + [[]])[1..] == [] && kept + segments == kept;
    } else {
      assert segments[0] in segments;
      ResolveKeeps(segments[1..], kept + [segments[0]]);
      assert (segments + [[]])[1..] == segments[1..] + [[]];
      assert kept + [segments[0]] + segments[1..] == kept + segments;
    }
  }

  lemma {:induction false} StripDotsAll(n: nat, rest: Bytes)
    ensures StripDots(Dots(n) + rest) == StripDots(rest)
  {
    if n == 0 {
      assert [] + rest == rest;
    } else {
      StripDotsAll(n - 1, rest);
      assert Dots(n) + rest == [DOT, SLASH] + (Dots(n - 1) + rest);
      assert (Dots(n) + rest)[2..] == Dots(n - 1) + rest;
    }
  }

  lemma {:induction false} CanonicalStart(path: Bytes)
    requires Canonical(path)
    ensures path != [] && path[0] != SLASH && path != CURRENT
    ensures !(|path| >= 2 && path[0] == DOT && path[1] == SLASH)
  {
    BadStart(path);
    assert Split(path, SLASH)[0] in Split(path, SLASH);
  }

  lemma {:induction false} BadStart(path: Bytes)
    ensures path == [] || path[0] == SLASH ==> Split(path, SLASH)[0] == []
    ensures path == CURRENT || (|path| >= 2 && path[0] == DOT && path[1] == SLASH) ==> Split(path, SLASH)[0] == CURRENT
  {
  }

  lemma {:induction false} BadEnd(path: Bytes)
    requires path != [] && path[|path| - 1] == SLASH
    ensures [] in Split(path, SLASH)
  {
    var front := path[..|path| - 1];
    assert path == front + [SLASH];
    SplitTrailing(front, SLASH);
    assert Split(path, SLASH)[|Split(front, SLASH)|] == [];
  }

  lemma {:induction false} SplitBytes(s: Bytes, b: Byte)
    requires b in s && b != SLASH
    ensures exists p :: p in Split(s, SLASH) && b in p
  {
    JoinSplit(s, SLASH);
    JoinBytes(Split(s, SLASH), b);
  }

  lemma {:induction false} JoinBytes(parts: seq<Bytes>, b: Byte)
    requires b in Join(parts, SLASH) && b != SLASH
    ensures exists p :: p in parts && b in p
  {
    if |parts| > 1 && b !in parts[0] {
      JoinBytes(parts[1..], b);
    } else {
      assert parts[0] in parts;
    }
  }

  /** A canonical path, with any number of `./` in front and an optional slash
      behind, is accepted as itself. */
  lemma {:induction false} CanonicalAccepted(path: Bytes, dots: nat, slash: bool)
    requires Canonical(path)
    ensures SafeArchivePath(Dots(dots) + path + (if slash then [SLASH] else [])) == Ok(Some(path))
  {
    var value := path + if slash then [SLASH] else [];
    assert Dots(dots) + path + (if slash then [SLASH] else []) == Dots(dots) + value;
    RawBytes(path, dots, slash);
    StripDotsAll(dots, value);
    CanonicalStart(path);
    assert value[0] == path[0] && (|value| >= 2 && |path| >= 2 ==> value[1] == path[1]);
    if |path| == 1 {
      assert path[0] == DOT ==> path == CURRENT;
    }
    CanonicalNormal(path, slash);
  }

  lemma {:induction false} CanonicalNormal(path: Bytes, slash: bool)
    requires Canonical(path) && path != [] && path[0] != SLASH
    ensures var value := path + if slash then [SLASH] else [];
            && value[0] == path[0]
            && NormalizeRelative(value) == value
            && PARENT !in Split(value, SLASH)
            && DropTrailingSlash(value) == path
  {
    var segments := Split(path, SLASH);
    if path[|path| - 1] == SLASH { BadEnd(path); }
    ResolveKeeps(segments, []);
    assert [] + segments == segments;
    JoinSplit(path, SLASH);
    if slash {
      SplitTrailing(path, SLASH);
      assert (path + [SLASH])[..|path|] == path;
    } else {
      assert path + [] == path;
    }
  }

  lemma {:induction false} RawBytes(path: Bytes, dots: nat, slash: bool)
    requires Canonical(path)
    ensures var raw := Dots(dots) + path + (if slash then [SLASH] else []); raw != [] && 0 !in raw && 92 !in raw
  {
    CanonicalStart(path);
    DotsBytes(dots);
    forall b | b in path ensures b != 0 && b != 92 {
      if b != SLASH { SplitBytes(path, b); }
    }
  }

  lemma {:induction false} DotsBytes(n: nat)
    ensures forall b | b in Dots(n) :: b == DOT || b == SLASH
  {
    if n == 0 {
    } else {
      DotsBytes(n - 1);
    }
  }

  // ----- Only canonical paths are accepted -----

  lemma {:induction false} ResolveShape(segments: seq<Bytes>, kept: seq<Bytes>)
    requires forall s | s in kept :: s != [] && s != CURRENT && Free(s, SLASH)
    requires forall s | s in segments :: Free(s, SLASH)
    ensures forall s | s in Resolve(segments, kept) :: s != [] && s != CURRENT && Free(s, SLASH)
    decreases segments
  {
    if segments == [] {
    } else {
      if segments[0] == [] || segments[0] == CURRENT {
        ResolveShape(segments[1..], kept);
      } else if segments[0] == PARENT && kept != [] && kept[|kept| - 1] != PARENT {
        ResolveShape(segments[1..], kept[..|kept| - 1]);
      } else {
        ResolveShape(segments[1..], kept + [segments[0]]);
      }
    }
  }

  /** Every accepted path is canonical, and it is what remains of the raw name
      after leading `./` and one trailing slash are removed. */
  lemma {:induction false} AcceptedCanonical(raw: Bytes)
    requires SafeArchivePath(raw).Ok? && SafeArchivePath(raw).value.Some?
    ensures var path := SafeArchivePath(raw).value.value;
            && Canonical(path)
            && (StripDots(raw) == path || StripDots(raw) == path + [SLASH])
  {
    var value := StripDots(raw);
    var path := DropTrailingSlash(value);
    var kept := Resolve(Split(value, SLASH), []);
    SplitPartsFree(value, SLASH);
    ResolveShape(Split(value, SLASH), []);
    var trailing := value[|value| - 1] == SLASH;
    if trailing { assert value == path + [SLASH]; }
    assert kept != [] by {
      if kept == [] {
        assert NormalizeRelative(value) == CURRENT + if trailing then [SLASH] else [];
        StripDotsDone(raw);
      }
    }
    JoinNonEmpty(kept);
    assert path == Join(kept, SLASH);
    SplitJoin(kept, SLASH);
    assert Split(path, SLASH) == kept;
    if trailing { SplitTrailing(path, SLASH); }
    forall s | s in kept ensures Segment(s) {
      assert s in Split(value, SLASH);
      StripDotsBytes(raw);
      PartBytes(value, s);
    }
  }

  lemma {:induction false} JoinNonEmpty(parts: seq<Bytes>)
    requires parts != [] && forall s | s in parts :: s != []
    ensures Join(parts, SLASH) != []
  {
    assert parts[0] in parts;
  }

  lemma {:induction false} StripDotsDone(s: Bytes)
    ensures var v := StripDots(s); !(|v| >= 2 && v[0] == DOT && v[1] == SLASH)
  {
    if |s| < 2 || s[0] != DOT || s[1] != SLASH {
    } else {
      StripDotsDone(s[2..]);
    }
  }

  lemma {:induction false} StripDotsBytes(s: Bytes)
    ensures forall b | b in StripDots(s) :: b in s
  {
    if |s| < 2 || s[0] != DOT || s[1] != SLASH {
    } else {
      StripDotsBytes(s[2..]);
    }
  }

  lemma {:induction false} PartBytes(s: Bytes, part: Bytes)
    requires part in Split(s, SLASH)
    ensures forall b | b in part :: b in s
  {
    if s == [] {
    } else {
      var rest := Split(s[1..], SLASH);
      assert rest[0] in rest;
      if part in rest {
        PartBytes(s[1..], part);
      } else if s[0] != SLASH && part == [s[0]] + rest[0] {
        PartBytes(s[1..], rest[0]);
      }
    }
  }

  // ----- White space in paths -----

  lemma {:induction false} DotsSpaces(n: nat)
    ensures Spaces(Dots(n)) == 0
  {
    if n == 0 {
    } else {
      DotsSpaces(n - 1);
      SpacesConcat([DOT, SLASH], Dots(n - 1));
      assert [DOT, SLASH][1..] == [SLASH] && [SLASH][1..] == [];
    }
  }

  lemma {:induction false} StripDotsSpaces(s: Bytes)
    ensures Spaces(StripDots(s)) <= Spaces(s)
  {
    if |s| < 2 || s[0] != DOT || s[1] != SLASH {
    } else {
      StripDotsSpaces(s[2..]);
      SpacesConcat(s[..2], s[2..]);
      assert s == s[..2] + s[2..];
    }
  }

  /** Accepting a path adds no white space to it. */
  lemma {:induction false} AcceptedSpaces(raw: Bytes)
    requires SafeArchivePath(raw).Ok? && SafeArchivePath(raw).value.Some?
    ensures Spaces(SafeArchivePath(raw).value.value) <= Spaces(raw)
  {
    var path := SafeArchivePath(raw).value.value;
    AcceptedCanonical(raw);
    StripDotsSpaces(raw);
    SpacesConcat(path, [SLASH]);
  }

  // ----- Exactly which fields and names are read, and as what -----

  /** The text of a field ends at its first NUL, or with the field. */
  lemma {:induction false} UntilNulIs(s: Bytes)
    ensures UntilNul(s) <= s && 0 !in UntilNul(s)
    ensures |UntilNul(s)| < |s| ==> s[|UntilNul(s)|] == 0
  {
    if s == [] || s[0] == 0 {
    } else {
      UntilNulIs(s[1..]);
    }
  }

  lemma {:induction false} TrimLeftIs(s: Bytes) returns (n: nat)
    ensures n <= |s| && TrimLeft(s) == s[n..] && (forall i | 0 <= i < n :: IsSpace(s[i]))
    ensures n < |s| ==> !IsSpace(s[n])
  {
    if s == [] || !IsSpace(s[0]) {
      n := 0;
    } else {
      n := TrimLeftIs(s[1..]);
      assert s[1..][n..] == s[n + 1..] && forall i | 0 < i < n + 1 :: s[i] == s[1..][i - 1];
      n := n + 1;
    }
  }

  lemma {:induction false} TrimRightIs(s: Bytes) returns (n: nat)
    ensures n <= |s| && TrimRight(s) == s[..n] && (forall i | n <= i < |s| :: IsSpace(s[i]))
    ensures n > 0 ==> !IsSpace(s[n - 1])
    decreases |s|
  {
    if s == [] || !IsSpace(s[|s| - 1]) {
      n := |s|;
      assert s[..n] == s;
    } else {
      n := TrimRightIs(s[..|s| - 1]);
      assert s[..|s| - 1][..n] == s[..n];
    }
  }

  /** Trimming takes white space from both edges, all of it and nothing else. */
  lemma {:induction false} TrimIs(s: Bytes) returns (from: nat, to: nat)
    ensures from <= to <= |s| && Trim(s) == s[from..to]
    ensures forall i | 0 <= i < |s| && !(from <= i < to) :: IsSpace(s[i])
    ensures from < to ==> !IsSpace(s[from]) && !IsSpace(s[to - 1])
  {
    from := TrimLeftIs(s);
    var n := TrimRightIs(s[from..]);
    to := from + n;
    assert s[from..][..n] == s[from..to];
    assert forall i | to <= i < |s| :: s[i] == s[from..][i - from];
    if n > 0 { assert s[to - 1] == s[from..][n - 1] && s[from] == s[from..][0]; }
  }

  /** A text field is refused exactly for a byte outside ASCII before the NUL. */
  lemma {:induction false} TarStringIff(field: Bytes, text: Bytes)
    ensures TarString(field) == Ok(text) <==>
            (forall b | b in UntilNul(field) :: b < 128) && text == Trim(UntilNul(field))
    ensures TarString(field).Err? ==> TarString(field).error == Undecodable
  {
  }

  lemma {:induction false} StripZerosDigits(text: Bytes)
    ensures (forall b | b in StripZeros(text) :: OctalDigit(b)) <==> forall b | b in text :: OctalDigit(b)
  {
    if text == [] || text[0] != 48 {
    } else {
      StripZerosDigits(text[1..]);
      assert text == [48] + text[1..];
    }
  }

  /** A number field is the value of its trimmed text, which must be octal digits
      throughout and, leading zeros or none, a safe integer. */
  lemma {:induction false} TarOctalIff(field: Bytes, n: nat)
    ensures TarOctal(field) == Ok(n) <==>
            && TarString(field).Ok? && (forall b | b in TarString(field).value :: OctalDigit(b))
            && OctalValue(TarString(field).value) == n <= MAX_SAFE_INTEGER
  {
    if TarString(field).Ok? {
      var text := TarString(field).value;
      StripZerosDigits(text);
      if forall b | b in text :: OctalDigit(b) { StripZerosValue(text); }
      assert OctalValue([48]) == OctalValue([]) by { LeadingZero([]); assert [48] + [] == [48]; }
    }
  }

  lemma {:induction false} Associate(a: Bytes, b: Bytes, c: Bytes)
    ensures (a + b) + c == a + (b + c)
  {
  }

  lemma {:induction false} StripDotsIs(s: Bytes) returns (n: nat)
    ensures s == Dots(n) + StripDots(s)
  {
    if |s| < 2 || s[0] != DOT || s[1] != SLASH {
      n := 0;
      assert [] + s == s;
    } else {
      n := StripDotsIs(s[2..]);
      var head: Bytes, dots, left := [DOT, SLASH], Dots(n), StripDots(s[2..]);
      assert s == head + s[2..] && s[2..] == dots + left;
      assert Dots(n + 1) == head + dots && StripDots(s) == left;
      Associate(head, dots, left);
      n := n + 1;
    }
  }

  predicate Spells(raw: Bytes, path: Bytes, dots: nat, slash: bool) {
    raw == Dots(dots) + path + (if slash then [SLASH] else [])
  }

  /** A member name is accepted exactly as some canonical path with `./` any
      number of times in front and at most one slash behind. */
  lemma {:induction false} AcceptedIff(raw: Bytes, path: Bytes)
    ensures SafeArchivePath(raw) == Ok(Some(path)) <==>
            Canonical(path) && exists dots, slash :: Spells(raw, path, dots, slash)
  {
    if SafeArchivePath(raw) == Ok(Some(path)) {
      AcceptedCanonical(raw);
      var dots := StripDotsIs(raw);
      var slash := StripDots(raw) != path;
      assert Spells(raw, path, dots, slash);
    } else if Canonical(path) {
      if dots, slash :| Spells(raw, path, dots, slash) {
        CanonicalAccepted(path, dots, slash);
      }
    }
  }

  predicate SpellsRoot(raw: Bytes, dots: nat, dot: bool) {
    raw == Dots(dots) + (if dot then CURRENT else [])
  }

  /** It names the root exactly when only `./` and at most one `.` are there. */
  lemma {:induction false} RootIff(raw: Bytes)
    ensures SafeArchivePath(raw) == Ok(None) <==>
            raw != [] && exists dots, dot :: SpellsRoot(raw, dots, dot)
    ensures (raw == [] || 0 in raw || 92 in raw) <==> SafeArchivePath(raw) == Err(InvalidPath)
  {
    var n := StripDotsIs(raw);
    if SafeArchivePath(raw) == Ok(None) {
      assert SpellsRoot(raw, n, StripDots(raw) == CURRENT);
    } else if dots, dot :| SpellsRoot(raw, dots, dot) {
      StripDotsAll(dots, if dot then CURRENT else []);
      DotsBytes(dots);
    }
  }
}
