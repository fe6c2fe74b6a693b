/**
 What the archive parser checks once the members are read: the entry point, and
 that the asset manifest covers exactly the asset files
 (scripts/takos-product-materializer.ts). The decoded manifest is an input.
 */
module Manifest {
  import opened Wrappers
  import opened ArchivePath
  import opened Tar

  /** `worker/index.js` */
  const ENTRYPOINT: Bytes := [119, 111, 114, 107, 101, 114, 47, 105, 110, 100, 101, 120, 46, 106, 115]

  /** `asset-manifest.json` */
  const MANIFEST: Bytes :=
    [97, 115, 115, 101, 116, 45, 109, 97, 110, 105, 102, 101, 115, 116, 46, 106, 115, 111, 110]
  const ASSETS: Bytes := [97, 115, 115, 101, 116, 115, 47]  // assets/

  datatype Scalar = Number(n: int) | Text(s: Bytes) | Other

  /** A manifest value: a record, of whose keys only `hash` and `size` are allowed. */
  datatype Listing = NotRecord | Record(hash: Option<Scalar>, size: Option<Scalar>, extraKeys: bool)

  datatype WorkerArchiveError =
    | BadArchive(cause: ArchiveError)
    | MissingEntrypoint
    | MissingManifest
    | NoAssets
    | InvalidManifest
    | WrongCount
    | InvalidListing(path: Bytes)

  predicate HasFile(entries: seq<Entry>, path: Bytes) {
    exists e | e in entries :: e.kind == File && e.path == path
  }

  predicate IsAsset(e: Entry) {
    e.kind == File && ASSETS <= e.path
  }

  function AssetFiles(entries: seq<Entry>): (assets: seq<Entry>)
    ensures forall a :: a in assets <==> a in entries && IsAsset(a)
  {
    if entries == [] then []
    else if IsAsset(entries[0]) then [entries[0]] + AssetFiles(entries[1..])
    else AssetFiles(entries[1..])
  }

  /** The `/`-prefixed manifest key of an asset. */
  function KeyOf(a: Entry): Bytes
    requires IsAsset(a)
  {
    [SLASH] + a.path[|ASSETS|..]
  }

  /** The key is what follows `assets` in the path, slash included. */
  lemma {:induction false} KeyIsRest(a: Entry)
    requires IsAsset(a)
    ensures a.path == [97, 115, 115, 101, 116, 115] + KeyOf(a)
  {
    assert a.path == ASSETS + a.path[|ASSETS|..];
  }

  predicate HexDigest(s: Bytes) {
    |s| == 32 && forall b | b in s :: 48 <= b <= 57 || 97 <= b <= 102
  }

  predicate Lists(listing: Listing, size: nat) {
    && listing.Record? && !listing.extraKeys
    && listing.size == Some(Number(size))
    && listing.hash.Some? && listing.hash.value.Text? && HexDigest(listing.hash.value.s)
  }

  function AssetKeys(entries: seq<Entry>): set<Bytes> {
    set e | e in entries && IsAsset(e) :: KeyOf(e)
  }

  /** The manifest's keys are exactly the asset files under the renaming, and
      every listing is well formed and carries its file's size. */
  predicate Closed(entries: seq<Entry>, manifest: map<Bytes, Listing>) {
    && manifest.Keys == AssetKeys(entries)
    && forall e | e in entries && IsAsset(e) :: KeyOf(e) in manifest && Lists(manifest[KeyOf(e)], |e.bytes|)
  }

  lemma {:induction false} KeyInjective(a: Entry, b: Entry)
    requires IsAsset(a) && IsAsset(b) && KeyOf(a) == KeyOf(b)
    ensures a.path == b.path
  {
    assert a.path == ASSETS + KeyOf(a)[1..] && b.path == ASSETS + KeyOf(b)[1..];
  }

  lemma {:induction false} TailDistinct(entries: seq<Entry>)
    requires entries != [] && DistinctPaths(entries)
    ensures DistinctPaths(entries[1..]) && forall e | e in entries[1..] :: e.path != entries[0].path
  {
  }

  /** Distinct paths have distinct keys: there is one key for each asset file. */
  lemma {:induction false} OneKeyEach(entries: seq<Entry>)
    requires DistinctPaths(entries)
    ensures |AssetKeys(entries)| == |AssetFiles(entries)|
  {
    if entries == [] {
      assert AssetKeys(entries) == {};
    } else {
      TailDistinct(entries);
      OneKeyEach(entries[1..]);
      var first := entries[0];
      assert entries == [first] + entries[1..];
      if IsAsset(first) {
        assert AssetKeys(entries) == {KeyOf(first)} + AssetKeys(entries[1..]);
        assert KeyOf(first) !in AssetKeys(entries[1..]) by {
          forall e | e in entries[1..] && IsAsset(e) ensures KeyOf(e) != KeyOf(first) {
            if KeyOf(e) == KeyOf(first) { KeyInjective(e, first); }
          }
        }
      } else {
        assert AssetKeys(entries) == AssetKeys(entries[1..]);
      }
    }
  }

  /** Equal counts and one-way membership already force the manifest's keys to be
      exactly the asset files' keys. */
  lemma {:induction false} CountingCloses(entries: seq<Entry>, manifest: map<Bytes, Listing>)
    requires DistinctPaths(entries)
    ensures Closed(entries, manifest) <==>
            && |manifest| == |AssetFiles(entries)|
            && forall e | e in AssetFiles(entries) :: KeyOf(e) in manifest && Lists(manifest[KeyOf(e)], |e.bytes|)
  {
    hide KeyOf, Lists, AssetFiles, DistinctPaths;
    OneKeyEach(entries);
    assert |manifest| == |manifest.Keys|;
    if |manifest| == |AssetFiles(entries)| && forall e | e in AssetFiles(entries) :: KeyOf(e) in manifest {
      assert AssetKeys(entries) <= manifest.Keys by {
        forall e | e in entries && IsAsset(e) ensures KeyOf(e) in manifest.Keys {
          assert e in AssetFiles(entries);
        }
      }
      assert |manifest.Keys - AssetKeys(entries)| == 0;
      assert manifest.Keys - AssetKeys(entries) == {};
      assert manifest.Keys == AssetKeys(entries);
    }
  }

  /** A file below `assets/`, and what follows `assets` in its path. */
  predicate IsAssetAt(e: Entry, key: Bytes) {
    e.kind == File && e.path == [97, 115, 115, 101, 116, 115] + key && key != [] && key[0] == 47
  }

  /** A listing in order: the size of the file, a hash of 32 lower-case hexadecimal
      digits, and nothing else. */
  ghost predicate InOrder(listing: Listing, size: nat) {
    exists hash ::
      && listing == Record(Some(Text(hash)), Some(Number(size)), false) && |hash| == 32
      && forall b | b in hash :: b as int in {48, 49, 50, 51, 52, 53, 54, 55, 56, 57, 97, 98, 99, 100, 101, 102}
  }

  /** What closure comes to: a key is listed exactly when the file of that name
      below `assets` is there, and its listing is in order. */
  lemma {:induction false} ClosedIff(entries: seq<Entry>, manifest: map<Bytes, Listing>)
    ensures Closed(entries, manifest) <==>
            && (forall key :: key in manifest <==> exists e | e in entries :: IsAssetAt(e, key))
            && forall e, key | e in entries && IsAssetAt(e, key) :: key in manifest && InOrder(manifest[key], |e.bytes|)
  {
    forall e, key | e in entries ensures IsAssetAt(e, key) <==> IsAsset(e) && key == KeyOf(e) {
      if IsAsset(e) { KeyIsRest(e); }
    }
    forall listing, size: nat ensures Lists(listing, size) <==> InOrder(listing, size) {
      if Lists(listing, size) {
        assert listing == Record(Some(Text(listing.hash.value.s)), Some(Number(size)), false);
      }
    }
  }

  /** The manifest file is there, decodes, and is closed. */
  predicate ManifestHolds(entries: seq<Entry>, decode: Bytes -> Option<map<Bytes, Listing>>) {
    exists e | e in entries ::
      e.kind == File && e.path == MANIFEST && decode(e.bytes).Some? && Closed(entries, decode(e.bytes).value)
  }

  /** The whole parser on expanded bytes: it accepts exactly the archives that
      the header loop reads, that hold the entry point, the manifest and some
      asset, and whose decoded manifest is closed. */
  method ParseWorkerArchive(expanded: Bytes, decode: Bytes -> Option<map<Bytes, Listing>>)
    returns (r: Result<seq<Entry>, WorkerArchiveError>)
    ensures r.Ok? ==> Sound(r.value) && ReadEntries(expanded, 0, []) == Ok(r.value)
    ensures r.Ok? <==>
            && ReadEntries(expanded, 0, []).Ok?
            && var entries := ReadEntries(expanded, 0, []).value;
               HasFile(entries, ENTRYPOINT) && AssetFiles(entries) != [] && ManifestHolds(entries, decode)
    ensures r.Ok? ==> exists e | e in r.value :: e.kind == File && e.path == ENTRYPOINT
    ensures r.Ok? ==> exists e | e in r.value ::
              e.kind == File && e.path == MANIFEST && decode(e.bytes).Some? && Closed(r.value, decode(e.bytes).value)
    ensures r.Err? && ReadEntries(expanded, 0, []).Err? ==> r == Err(BadArchive(ReadEntries(expanded, 0, []).error))
    ensures ReadEntries(expanded, 0, []).Ok? ==>
              var entries := ReadEntries(expanded, 0, []).value;
              && (r == Err(MissingEntrypoint) <==> !HasFile(entries, ENTRYPOINT))
              && (r == Err(MissingManifest) <==> HasFile(entries, ENTRYPOINT) && !HasFile(entries, MANIFEST))
              && (r == Err(NoAssets) <==>
                    HasFile(entries, ENTRYPOINT) && HasFile(entries, MANIFEST) && AssetFiles(entries) == [])
              && !(r.Err? && r.error.BadArchive?)
  {
    hide ReadEntries, HasFile, Closed, AssetFiles;
    var read := ReadArchive(expanded);
    if read.Err? {
      return Err(BadArchive(read.error));
    }
    var entries := read.value;
    var entrypoint := FindFile(entries, ENTRYPOINT);
    if entrypoint.None? {
      return Err(MissingEntrypoint);
    }
    var stored := FindFile(entries, MANIFEST);
    if stored.None? {
      NoManifestFile(entries);
      return Err(MissingManifest);
    }
    var assetFiles := AssetFiles(entries);
    if assetFiles == [] {
      return Err(NoAssets);
    }
    var decoded := decode(stored.value.bytes);
    if decoded.None? {
      return Err(InvalidManifest);
    }
    var problem := CheckAssets(entries, assetFiles, decoded.value);
    r := if problem.Some? then Err(problem.value) else Ok(entries);
  }

  lemma {:induction false} NoManifestFile(entries: seq<Entry>)
    requires !HasFile(entries, MANIFEST)
    ensures forall e | e in entries :: !(e.kind == File && e.path == MANIFEST)
  {
  }

  method CheckAssets(entries: seq<Entry>, assetFiles: seq<Entry>, manifest: map<Bytes, Listing>)
    returns (problem: Option<WorkerArchiveError>)
    requires DistinctPaths(entries) && assetFiles == AssetFiles(entries)
    ensures problem.None? <==> Closed(entries, manifest)
    ensures problem.Some? ==> problem.value.WrongCount? || problem.value.InvalidListing?
    ensures problem == Some(WrongCount) <==> |manifest| != |assetFiles|
  {
    hide KeyOf, Lists, AssetFiles, DistinctPaths, Closed;
    CountingCloses(entries, manifest);
    if |manifest| != |assetFiles| {
      return Some(WrongCount);
    }
    for i := 0 to |assetFiles|
      invariant forall j | 0 <= j < i ::
                  KeyOf(assetFiles[j]) in manifest && Lists(manifest[KeyOf(assetFiles[j])], |assetFiles[j].bytes|)
    {
      var file := assetFiles[i];
      var key := KeyOf(file);
      if key !in manifest || !Lists(manifest[key], |file.bytes|) {
        assert file in AssetFiles(entries);
        return Some(InvalidListing(file.path));
      }
    }
    problem := None;
  }

  /** `files.get(path)`: paths are distinct, so there is at most one. */
  method FindFile(entries: seq<Entry>, path: Bytes) returns (found: Option<Entry>)
    requires DistinctPaths(entries)
    ensures found.Some? <==> HasFile(entries, path)
    ensures found.Some? ==> found.value in entries && found.value.kind == File && found.value.path == path
    ensures found.Some? ==> forall e | e in entries && e.path == path :: e == found.value
  {
    for i := 0 to |entries|
      invariant forall j | 0 <= j < i :: entries[j].kind != File || entries[j].path != path
    {
      if entries[i].kind == File && entries[i].path == path {
        forall e | e in entries && e.path == path ensures e == entries[i] {
          var j :| 0 <= j < |entries| && entries[j] == e;
        }
        return Some(entries[i]);
      }
    }
    found := None;
  }
}
