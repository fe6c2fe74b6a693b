/**
 What a published release must look like before a publisher may claim it
 (scripts/release-artifact-deploy.ts).
 */
module Release {
  import opened Wrappers
  import opened Collections
  import opened JsText

  datatype Asset = Asset(name: string, digest: Option<string>)

  datatype ReleaseReadback = ReleaseReadback(
    isDraft: bool,
    isPrerelease: bool,
    isImmutable: bool,
    tagName: string,
    name: string,
    body: string,
    targetCommitish: string,
    url: string,
    assets: seq<Asset>)

  /** An asset as it was prepared locally. */
  datatype Expected = Expected(name: string, digest: string)

  const NOTES_HEAD := "Immutable Takos worker artifact for "
  const NOTES_MIDDLE := ".\n\nPublication attempt: "

  function ReleaseNotes(commit: string, attempt: string): string {
    NOTES_HEAD + commit + NOTES_MIDDLE + attempt
  }

  /** Attempt identities have one length, so the notes determine the attempt. */
  lemma {:induction false} NotesInjective(c1: string, a1: string, c2: string, a2: string)
    requires |a1| == |a2|
    ensures ReleaseNotes(c1, a1) == ReleaseNotes(c2, a2) <==> c1 == c2 && a1 == a2
  {
    var n1, n2 := ReleaseNotes(c1, a1), ReleaseNotes(c2, a2);
    if n1 == n2 {
      assert a1 == n1[|n1| - |a1|..] && a2 == n2[|n2| - |a2|..];
      assert c1 == n1[|NOTES_HEAD|..|n1| - |a1| - |NOTES_MIDDLE|];
      assert c2 == n2[|NOTES_HEAD|..|n2| - |a2| - |NOTES_MIDDLE|];
    }
  }

  // ----- The assets -----

  /** A later entry of the same name replaces an earlier one. */
  function ByName(expected: seq<Expected>): map<string, string> {
    if expected == [] then map[]
    else ByName(expected[..|expected| - 1])[expected[|expected| - 1].name := expected[|expected| - 1].digest]
  }

  function Lookup(byName: map<string, string>, name: string): Option<string> {
    if name in byName then Some(byName[name]) else None
  }

  /** The check of the source: a count, and one direction of the comparison. */
  predicate AssetsPass(byName: map<string, string>, assets: seq<Asset>) {
    |assets| == |byName| && forall a | a in assets :: Lookup(byName, a.name) == a.digest
  }

  predicate DistinctNames(assets: seq<Asset>) {
    forall i, j | 0 <= i < j < |assets| :: assets[i].name != assets[j].name
  }

  /** The release holds the expected assets and nothing else, each once. */
  predicate AssetsExact(byName: map<string, string>, assets: seq<Asset>) {
    && DistinctNames(assets)
    && (forall a | a in assets :: a.name in byName && a.digest == Some(byName[a.name]))
    && (forall name | name in byName :: exists a :: a in assets && a.name == name)
  }

  function NamesOf(assets: seq<Asset>): set<string> {
    set a | a in assets :: a.name
  }

  lemma {:induction false} DistinctNamesCount(assets: seq<Asset>)
    requires DistinctNames(assets)
    ensures |NamesOf(assets)| == |assets|
    decreases assets
  {
    if assets == [] {
    } else {
      var rest, last := assets[..|assets| - 1], assets[|assets| - 1];
      DistinctNamesCount(rest);
      assert assets == rest + [last];
      assert NamesOf(assets) == NamesOf(rest) + {last.name};
    }
  }

  /** The check means an exact asset closure just when the names read back are
      distinct and every asset carries a digest. */
  lemma {:induction false} AssetsExactIff(byName: map<string, string>, assets: seq<Asset>)
    ensures AssetsExact(byName, assets) <==>
            AssetsPass(byName, assets) && DistinctNames(assets) && forall a | a in assets :: a.digest.Some?
  {
    assert |byName| == |byName.Keys|;
    if DistinctNames(assets) {
      DistinctNamesCount(assets);
      if AssetsPass(byName, assets) && forall a | a in assets :: a.digest.Some? {
        assert NamesOf(assets) <= byName.Keys;
        SubsetOfSameSize(NamesOf(assets), byName.Keys);
        forall name | name in byName ensures exists a :: a in assets && a.name == name {
          assert name in NamesOf(assets);
        }
      }
      if AssetsExact(byName, assets) {
        assert NamesOf(assets) == byName.Keys;
      }
    }
  }

  /** An unknown asset without a digest passes in place of a missing one. */
  lemma {:induction false} UnknownAssetPasses(name: string, digest: string, other: string)
    requires name != other
    ensures var byName := ByName([Expected(name, digest)]);
            AssetsPass(byName, [Asset(other, None)]) && !AssetsExact(byName, [Asset(other, None)])
  {
  }

  // ----- One readback -----

  datatype Verdict = Accepted | StateDrifted | NotThisAttempt | AssetsDrifted

  function AssertPublishedReleaseReadback(tag: string, commit: string, attempt: string, expected: seq<Expected>,
          r: ReleaseReadback): Verdict {
    if r.tagName != tag || r.name != "Takos " + tag || r.targetCommitish != commit || r.isDraft || r.isPrerelease
       || !r.isImmutable || JsTrim(r.url) == "" then StateDrifted
    else if r.body != ReleaseNotes(commit, attempt) then NotThisAttempt
    else if !AssetsPass(ByName(expected), r.assets) then AssetsDrifted
    else Accepted
  }

  /** A readback is accepted exactly when it is the final release of this tag,
      commit and attempt and its assets pass; anything else but the notes of
      another attempt, or no notes, leaves room for a later readback. */
  lemma {:induction false} AcceptedIff(tag: string, commit: string, attempt: string, expected: seq<Expected>,
          r: ReleaseReadback)
    ensures AssertPublishedReleaseReadback(tag, commit, attempt, expected, r) == Accepted <==>
            && r == ReleaseReadback(false, false, true, tag, "Takos " + tag, ReleaseNotes(commit, attempt), commit,
                                    r.url, r.assets)
            && JsTrim(r.url) != "" && AssetsPass(ByName(expected), r.assets)
    ensures AssertPublishedReleaseReadback(tag, commit, attempt, expected, r) == NotThisAttempt <==>
            && r == ReleaseReadback(false, false, true, tag, "Takos " + tag, r.body, commit, r.url, r.assets)
            && JsTrim(r.url) != "" && r.body != ReleaseNotes(commit, attempt)
  {
  }

  /** Assets are looked up by name, and the last expected one of a name counts. */
  lemma {:induction false} ByNameIs(expected: seq<Expected>, i: nat)
    requires i < |expected| && forall j | i < j < |expected| :: expected[j].name != expected[i].name
    ensures expected[i].name in ByName(expected) && ByName(expected)[expected[i].name] == expected[i].digest
    decreases expected
  {
    var front, last := expected[..|expected| - 1], expected[|expected| - 1];
    if i < |front| {
      assert front[i] == expected[i] && forall j | i < j < |front| :: front[j] == expected[j];
      ByNameIs(front, i);
      assert last.name != expected[i].name;
    }
  }

  lemma {:induction false} ByNameKeys(expected: seq<Expected>)
    ensures forall name :: name in ByName(expected) <==> exists e | e in expected :: e.name == name
  {
    if expected == [] {
    } else {
      var front, last := expected[..|expected| - 1], expected[|expected| - 1];
      ByNameKeys(front);
      assert expected == front + [last];
    }
  }

  /** An accepted readback is an immutable release of this tag, commit and attempt;
      two attempts can never both be accepted on one release. */
  lemma {:induction false} AcceptedOnce(tag: string, c1: string, a1: string, c2: string, a2: string,
          e1: seq<Expected>, e2: seq<Expected>, r: ReleaseReadback)
    requires |a1| == |a2|
    requires AssertPublishedReleaseReadback(tag, c1, a1, e1, r) == Accepted
    requires AssertPublishedReleaseReadback(tag, c2, a2, e2, r) == Accepted
    ensures c1 == c2 && a1 == a2 && r.isImmutable && !r.isDraft && r.targetCommitish == c1
  {
    NotesInjective(c1, a1, c2, a2);
  }
}
