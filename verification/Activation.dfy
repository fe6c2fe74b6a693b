/**
 The message and tag by which a run of the materializer recognizes the Worker
 version it deployed (scripts/takos-product-materializer.ts). The message
 digests a configuration that names the run's own temporary directory.
 */
module Activation {
  import opened JsonText
  import opened StableJson

  /** What a run deploys, and the directory it was given. `settings` are the
      members of the rendered configuration besides `main` and `assets`. */
  datatype Run = Run(source: string, archive: string, tag: string, settings: seq<Member>, directory: Text)

  datatype Marker = Marker(message: string, tag: string)

  const COMMIT_LENGTH := 40
  const DIGEST_LENGTH := 71

  function Units(s: string): (t: Text)
    requires forall i | 0 <= i < |s| :: s[i] as int < 0x80
    ensures |t| == |s|
  {
    seq(|s|, i requires 0 <= i < |s| => s[i] as int)
  }

  const MAIN := Units("main")
  const ASSETS := Units("assets")

  function Entry(directory: Text): Json {
    JString(directory + Units("/artifact/worker/index.js"))
  }

  function Assets(directory: Text): Json {
    JObject([
      Member(Units("directory"), JString(directory + Units("/artifact/assets"))),
      Member(Units("binding"), JString(Units("ASSETS"))),
      Member(Units("run_worker_first"), JBool(true))])
  }

  function Config(run: Run): Json {
    JObject([Member(MAIN, Entry(run.directory)), Member(ASSETS, Assets(run.directory))] + run.settings)
  }

  function Message(source: string, archive: string, config: string): string {
    "takos-product-materializer/v1 source=" + source + (" archive=" + archive + (" config=" + config))
  }

  function Mark(digest: Text -> string, run: Run): Marker {
    Marker(Message(run.source, run.archive, digest(Stable(Config(run)))), run.tag)
  }

  /** A run as the checks on its inputs let it through. */
  predicate Accepted(run: Run) {
    |run.source| == COMMIT_LENGTH && |run.archive| == DIGEST_LENGTH && Valid(Config(run))
  }

  /** The digest does not confuse the configurations of two runs. */
  predicate Apart(digest: Text -> string, a: Run, b: Run) {
    && |digest(Stable(Config(a)))| == DIGEST_LENGTH && |digest(Stable(Config(b)))| == DIGEST_LENGTH
    && (digest(Stable(Config(a))) == digest(Stable(Config(b))) ==> Stable(Config(a)) == Stable(Config(b)))
  }

  // ----- What a marker determines -----

  lemma {:induction false} TailsAgree<T>(a: seq<T>, b: seq<T>, x: seq<T>, y: seq<T>)
    requires |x| == |y|
    ensures a + x == b + y <==> a == b && x == y
  {
    if a + x == b + y {
      assert |a| == |b|;
      assert a == (a + x)[..|a|] && b == (b + y)[..|b|];
      assert x == (a + x)[|a|..] && y == (b + y)[|b|..];
    }
  }

  lemma {:induction false} MessagesAgreeIff(s: string, a: string, c: string, s': string, a': string, c': string)
    requires |s| == |s'| == COMMIT_LENGTH && |a| == |a'| == DIGEST_LENGTH && |c| == |c'| == DIGEST_LENGTH
    ensures Message(s, a, c) == Message(s', a', c') <==> s == s' && a == a' && c == c'
  {
    var head := "takos-product-materializer/v1 source=";
    TailsAgree(head + s, head + s', " archive=" + a + (" config=" + c), " archive=" + a' + (" config=" + c'));
    TailsAgree(head, head, s, s');
    TailsAgree(" archive=" + a, " archive=" + a', " config=" + c, " config=" + c');
    TailsAgree(" archive=", " archive=", a, a');
    TailsAgree(" config=", " config=", c, c');
  }

  lemma {:induction false} DistinctBehind(x: Text, y: Text, keys: seq<Text>)
    requires DistinctKeys([x, y] + keys)
    ensures x !in keys && y !in keys
  {
    var all := [x, y] + keys;
    assert all[1..] == [y] + keys && all[1..][1..] == keys;
    assert forall k | k in keys :: k in all[1..];
  }

  lemma {:induction false} ConfigKeys(run: Run)
    requires Valid(Config(run))
    ensures Keys(Config(run).members) == [MAIN, ASSETS] + Keys(run.settings)
    ensures MAIN !in Keys(run.settings) && ASSETS !in Keys(run.settings) && MAIN != ASSETS
  {
    var members := Config(run).members;
    assert members[1..][1..] == run.settings;
    assert Keys(members) == [MAIN, ASSETS] + Keys(run.settings);
    DistinctBehind(MAIN, ASSETS, Keys(run.settings));
  }

  lemma {:induction false} ConfigLookup(run: Run, key: Text)
    requires Valid(Config(run)) && key in Keys(Config(run).members)
    ensures key == MAIN ==> Lookup(Config(run).members, key) == Entry(run.directory)
    ensures key == ASSETS ==> Lookup(Config(run).members, key) == Assets(run.directory)
    ensures key != MAIN && key != ASSETS
            ==> key in Keys(run.settings) && Lookup(Config(run).members, key) == Lookup(run.settings, key)
  {
    hide Valid, Entry, Assets;
    ConfigKeys(run);
    var members := Config(run).members;
    assert members[1..][1..] == run.settings;
  }

  lemma {:induction false} SameEntry(a: Text, b: Text)
    requires Same(Entry(a), Entry(b))
    ensures a == b
  {
    var suffix := Units("/artifact/worker/index.js");
    TailsAgree(a, b, suffix, suffix);
  }

  lemma {:induction false} SameSelf(v: Json)
    ensures Same(v, v)
  {
    SameCanonSame(v, v);
  }

  lemma {:induction false} SameConfigParts(a: Run, b: Run)
    requires Valid(Config(a)) && Valid(Config(b)) && Same(Config(a), Config(b))
    ensures a.directory == b.directory && Same(JObject(a.settings), JObject(b.settings))
  {
    ConfigKeys(a);
    ConfigKeys(b);
    hide Valid, Entry, Assets;
    var xs, ys := Config(a).members, Config(b).members;
    ConfigLookup(a, MAIN);
    ConfigLookup(b, MAIN);
    SameEntry(a.directory, b.directory);
    forall k ensures k in Keys(a.settings) <==> k in Keys(b.settings) {
      assert k in Keys(xs) <==> k in Keys(ys);
    }
    forall k | k in Keys(a.settings) ensures Same(Lookup(a.settings, k), Lookup(b.settings, k)) {
      ConfigLookup(a, k);
      ConfigLookup(b, k);
    }
  }

  lemma {:induction false} SamePartsConfig(a: Run, b: Run)
    requires Valid(Config(a)) && Valid(Config(b))
    requires a.directory == b.directory && Same(JObject(a.settings), JObject(b.settings))
    ensures Same(Config(a), Config(b))
  {
    ConfigKeys(a);
    ConfigKeys(b);
    hide Valid, Entry, Assets;
    var xs, ys := Config(a).members, Config(b).members;
    forall k ensures k in Keys(xs) <==> k in Keys(ys) {
      assert k in Keys(a.settings) <==> k in Keys(b.settings);
    }
    forall k | k in Keys(xs) ensures Same(Lookup(xs, k), Lookup(ys, k)) {
      ConfigLookup(a, k);
      ConfigLookup(b, k);
      if k == MAIN || k == ASSETS { SameSelf(Lookup(xs, k)); }
    }
  }

  /** Two runs print the same configuration exactly when they work in the same
      directory with the same settings. */
  lemma {:induction false} ConfigsPrintSameIff(a: Run, b: Run)
    requires Valid(Config(a)) && Valid(Config(b))
    ensures Stable(Config(a)) == Stable(Config(b))
            <==> a.directory == b.directory && Same(JObject(a.settings), JObject(b.settings))
  {
    hide Valid, Config, Stable, Same;
    StableUnambiguous(Config(a), Config(b));
    if Same(Config(a), Config(b)) { SameConfigParts(a, b); }
    if a.directory == b.directory && Same(JObject(a.settings), JObject(b.settings)) { SamePartsConfig(a, b); }
  }

  /** Two runs leave the same marker exactly when they deploy the same source and
      archive under the same tag, with the same settings from the same directory. */
  lemma {:induction false} MarksAgreeIff(digest: Text -> string, a: Run, b: Run)
    requires Accepted(a) && Accepted(b) && Apart(digest, a, b)
    ensures Mark(digest, a) == Mark(digest, b)
            <==> && a.source == b.source && a.archive == b.archive && a.tag == b.tag
                 && a.directory == b.directory && Same(JObject(a.settings), JObject(b.settings))
  {
    var c, d := digest(Stable(Config(a))), digest(Stable(Config(b)));
    MessagesAgreeIff(a.source, a.archive, c, b.source, b.archive, d);
    ConfigsPrintSameIff(a, b);
  }
}
