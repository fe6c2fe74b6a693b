/**
 The canonical JSON printer behind the configuration digest
 (scripts/takos-product-materializer.ts): object keys are sorted, nothing else
 is normalized, and the text determines the value.
 */
module StableJson {
  import opened Wrappers
  import opened Collections
  import opened JsonText

  // ----- Key order -----

  /** JavaScript's order on strings: by code unit, a proper prefix first. */
  predicate Less(a: Text, b: Text) {
    b != [] && (a == [] || a[0] < b[0] || (a[0] == b[0] && Less(a[1..], b[1..])))
  }

  function Insert(key: Text, keys: seq<Text>): seq<Text> {
    if keys == [] || Less(key, keys[0]) then [key] + keys else [keys[0]] + Insert(key, keys[1..])
  }

  function Sort(keys: seq<Text>): seq<Text> {
    if keys == [] then [] else Insert(keys[0], Sort(keys[1..]))
  }

  predicate Ascending(keys: seq<Text>) {
    keys == [] || ((forall k | k in keys[1..] :: Less(keys[0], k)) && Ascending(keys[1..]))
  }

  predicate DistinctKeys(keys: seq<Text>) {
    keys == [] || (keys[0] !in keys[1..] && DistinctKeys(keys[1..]))
  }

  lemma {:induction false} LessTotal(a: Text, b: Text)
    ensures a == b || Less(a, b) || Less(b, a)
  {
    if a == [] || b == [] || a[0] != b[0] {
    } else {
      LessTotal(a[1..], b[1..]);
      assert a == [a[0]] + a[1..] && b == [b[0]] + b[1..];
    }
  }

  lemma {:induction false} LessIrreflexive(a: Text)
    ensures !Less(a, a)
  {
    if a == [] {
    } else {
      LessIrreflexive(a[1..]);
    }
  }

  lemma {:induction false} LessTransitive(a: Text, b: Text, c: Text)
    requires Less(a, b) && Less(b, c)
    ensures Less(a, c)
  {
    if a == [] || a[0] != b[0] || b[0] != c[0] {
    } else {
      LessTransitive(a[1..], b[1..], c[1..]);
    }
  }

  lemma {:induction false} InsertMembers(key: Text, keys: seq<Text>)
    ensures forall k :: k in Insert(key, keys) <==> k == key || k in keys
  {
    if keys == [] || Less(key, keys[0]) {
    } else {
      InsertMembers(key, keys[1..]);
    }
  }

  lemma {:induction false} InsertAscending(key: Text, keys: seq<Text>)
    requires Ascending(keys) && key !in keys
    ensures Ascending(Insert(key, keys))
  {
    if keys == [] {
    } else {
      var out := Insert(key, keys);
      if Less(key, keys[0]) {
        assert out[1..] == keys;
        forall k | k in keys ensures Less(key, k) {
          if k != keys[0] { LessTransitive(key, keys[0], k); }
        }
      } else {
        LessTotal(key, keys[0]);
        InsertAscending(key, keys[1..]);
        InsertMembers(key, keys[1..]);
        assert out[1..] == Insert(key, keys[1..]);
      }
    }
  }

  lemma {:induction false} SortMembers(keys: seq<Text>)
    ensures forall k :: k in Sort(keys) <==> k in keys
  {
    if keys == [] {
    } else {
      SortMembers(keys[1..]);
      InsertMembers(keys[0], Sort(keys[1..]));
    }
  }

  lemma {:induction false} SortAscending(keys: seq<Text>)
    requires DistinctKeys(keys)
    ensures Ascending(Sort(keys))
  {
    if keys == [] {
    } else {
      SortAscending(keys[1..]);
      SortMembers(keys[1..]);
      InsertAscending(keys[0], Sort(keys[1..]));
    }
  }

  lemma {:induction false} NonEmptyHasMember(keys: seq<Text>)
    ensures keys == [] || exists k :: k in keys
  {
    if keys != [] { assert keys[0] in keys; }
  }

  /** An ascending list is determined by its members. */
  lemma {:induction false} AscendingUnique(a: seq<Text>, b: seq<Text>)
    requires Ascending(a) && Ascending(b) && forall k :: k in a <==> k in b
    ensures a == b
  {
    if a == [] {
      NonEmptyHasMember(b);
    } else {
      assert a[0] in b && b[0] in a;
      if a[0] != b[0] {
        assert Less(a[0], b[0]) && Less(b[0], a[0]);
        LessTransitive(a[0], b[0], a[0]);
        LessIrreflexive(a[0]);
      }
      assert a[0] == b[0];
      LessIrreflexive(a[0]);
      forall k ensures k in a[1..] <==> k in b[1..] {
        assert k in a <==> k == a[0] || k in a[1..];
        assert k in b <==> k == b[0] || k in b[1..];
      }
      AscendingUnique(a[1..], b[1..]);
      assert a == [a[0]] + a[1..] && b == [b[0]] + b[1..];
    }
  }

  // ----- Objects -----

  function Keys(members: seq<Member>): seq<Text> {
    if members == [] then [] else [members[0].key] + Keys(members[1..])
  }

  /** `input[key]`. */
  function Lookup(members: seq<Member>, key: Text): (value: Json)
    requires key in Keys(members)
    ensures exists i | 0 <= i < |members| :: members[i] == Member(key, value)
  {
    if members[0].key == key then
      assert members[0] == Member(key, members[0].value);
      members[0].value
    else
      var value := Lookup(members[1..], key);
      assert exists i | 0 <= i < |members[1..]| :: members[1..][i] == Member(key, value);
      var i :| 0 <= i < |members[1..]| && members[1..][i] == Member(key, value);
      assert members[i + 1] == Member(key, value);
      value
  }

  function SortedKeys(members: seq<Member>): (keys: seq<Text>)
    ensures forall k | k in keys :: k in Keys(members)
    ensures members != [] ==> keys != []
  {
    SortMembers(Keys(members));
    assert members != [] ==> Keys(members)[0] in Sort(Keys(members));
    Sort(Keys(members))
  }

  /** A JSON value: number tokens are numbers, no object repeats a key. */
  predicate Valid(v: Json) {
    match v
    case JNumber(token) => NumberToken(token)
    case JArray(items) => forall i | 0 <= i < |items| :: Valid(items[i])
    case JObject(members) => DistinctKeys(Keys(members)) && forall i | 0 <= i < |members| :: Valid(members[i].value)
    case _ => true
  }

  // ----- The printer -----

  function Stable(v: Json): Text
    decreases v, 0
  {
    match v
    case JNull => NULL_TEXT
    case JBool(b) => if b then TRUE_TEXT else FALSE_TEXT
    case JNumber(token) => token
    case JString(s) => Quoted(s)
    case JArray(items) => [OPEN_BRACKET] + StableItems(items) + [CLOSE_BRACKET]
    case JObject(members) => [OPEN_BRACE] + StableMembers(SortedKeys(members), members) + [CLOSE_BRACE]
  }

  function StableItems(items: seq<Json>): Text
    decreases items, 0
  {
    if items == [] then []
    else if |items| == 1 then Stable(items[0])
    else Stable(items[0]) + ([COMMA] + StableItems(items[1..]))
  }

  function StableMember(key: Text, members: seq<Member>): Text
    requires key in Keys(members)
    decreases members, 0
  {
    Quoted(key) + ([COLON] + Stable(Lookup(members, key)))
  }

  function StableMembers(keys: seq<Text>, members: seq<Member>): Text
    requires forall k | k in keys :: k in Keys(members)
    decreases members, 1, |keys|
  {
    if keys == [] then []
    else if |keys| == 1 then StableMember(keys[0], members)
    else StableMember(keys[0], members) + ([COMMA] + StableMembers(keys[1..], members))
  }

  // ----- The value a text stands for -----

  /** The same value with every object's members in key order. */
  function Canon(v: Json): Json
    decreases v, 0
  {
    match v
    case JArray(items) => JArray(CanonItems(items))
    case JObject(members) => JObject(CanonMembers(SortedKeys(members), members))
    case _ => v
  }

  function CanonItems(items: seq<Json>): seq<Json>
    decreases items, 0
  {
    if items == [] then [] else [Canon(items[0])] + CanonItems(items[1..])
  }

  function CanonMembers(keys: seq<Text>, members: seq<Member>): seq<Member>
    requires forall k | k in keys :: k in Keys(members)
    decreases members, 1, |keys|
  {
    if keys == [] then [] else [Member(keys[0], Canon(Lookup(members, keys[0])))] + CanonMembers(keys[1..], members)
  }

  /** Text that cannot continue a number. */
  predicate Stops(rest: Text) {
    rest == [] || !NumberChar(rest[0])
  }

  lemma {:induction false} StableStart(v: Json)
    requires Valid(v)
    ensures Stable(v) != [] && Stable(v)[0] != CLOSE_BRACKET && Stable(v)[0] != CLOSE_BRACE
  {
  }

  lemma {:induction false} LiteralReads(word: Text, value: Json, rest: Text)
    requires word != []
    ensures ReadLiteral(word + rest, word, value) == Some((value, rest))
  {
  }

  /** The printed text reads back as the canonical form, whatever follows. */
  lemma {:induction false} StableReads(v: Json, rest: Text)
    requires Valid(v) && Stops(rest)
    ensures ReadValue(Stable(v) + rest) == Some((Canon(v), rest))
    decreases v, 2
  {
    match v
    case JNull =>
      assert (NULL_TEXT + rest)[0] == NULL_TEXT[0];
      LiteralReads(NULL_TEXT, v, rest);
    case JBool(b) =>
      LiteralReads(if b then TRUE_TEXT else FALSE_TEXT, v, rest);
      assert (Stable(v) + rest)[0] == Stable(v)[0];
    case JNumber(token) =>
      NumberReads(token, rest);
      assert (token + rest)[0] == token[0];
    case JString(s) =>
      QuotedReads(s, rest);
    case JArray(items) =>
      ArrayReads(items, rest);
    case JObject(members) =>
      ObjectReads(members, rest);
  }

  lemma {:induction false} ArrayReads(items: seq<Json>, rest: Text)
    requires Valid(JArray(items)) && Stops(rest)
    ensures ReadValue(Stable(JArray(items)) + rest) == Some((Canon(JArray(items)), rest))
    decreases items, 3
  {
    var inner := StableItems(items);
    var t := Stable(JArray(items)) + rest;
    var tail := inner + ([CLOSE_BRACKET] + rest);
    assert t == [OPEN_BRACKET] + tail by {
      Assoc([OPEN_BRACKET] + inner, [CLOSE_BRACKET], rest);
      Assoc([OPEN_BRACKET], inner, [CLOSE_BRACKET] + rest);
    }
    assert t[0] == OPEN_BRACKET && t[1..] == tail;
    if items == [] {
      assert tail == [CLOSE_BRACKET] + rest && t[2..] == rest;
    } else {
      StableStart(items[0]);
      assert tail[0] == Stable(items[0])[0];
      ItemsRead(items, rest);
    }
  }

  lemma {:induction false} ItemsRead(items: seq<Json>, rest: Text)
    requires items != [] && forall i | 0 <= i < |items| :: Valid(items[i])
    ensures ReadItems(StableItems(items) + ([CLOSE_BRACKET] + rest)) == Some((CanonItems(items), rest))
    decreases items, 2
  {
    var first := Stable(items[0]);
    if |items| == 1 {
      StableReads(items[0], [CLOSE_BRACKET] + rest);
      assert ([CLOSE_BRACKET] + rest)[1..] == rest;
      assert items[1..] == [] && [Canon(items[0])] + [] == [Canon(items[0])];
    } else {
      var more := StableItems(items[1..]) + ([CLOSE_BRACKET] + rest);
      ItemsRead(items[1..], rest);
      StableReads(items[0], [COMMA] + more);
      Assoc(first, [COMMA] + StableItems(items[1..]), [CLOSE_BRACKET] + rest);
      Assoc([COMMA], StableItems(items[1..]), [CLOSE_BRACKET] + rest);
      assert ([COMMA] + more)[1..] == more;
    }
  }

  lemma {:induction false} ObjectReads(members: seq<Member>, rest: Text)
    requires Valid(JObject(members)) && Stops(rest)
    ensures ReadValue(Stable(JObject(members)) + rest) == Some((Canon(JObject(members)), rest))
    decreases members, 4
  {
    var keys := SortedKeys(members);
    var inner := StableMembers(keys, members);
    var t := Stable(JObject(members)) + rest;
    var tail := inner + ([CLOSE_BRACE] + rest);
    assert t == [OPEN_BRACE] + tail by {
      Assoc([OPEN_BRACE] + inner, [CLOSE_BRACE], rest);
      Assoc([OPEN_BRACE], inner, [CLOSE_BRACE] + rest);
    }
    assert t[0] == OPEN_BRACE && t[1..] == tail;
    if keys == [] {
      assert tail == [CLOSE_BRACE] + rest && t[2..] == rest;
    } else {
      assert inner[0] == QUOTE by {
        assert StableMember(keys[0], members)[0] == QUOTE;
      }
      assert tail[0] == QUOTE;
      MembersRead(keys, members, rest);
    }
  }

  lemma {:induction false} MemberReads(key: Text, members: seq<Member>, rest: Text)
    requires Valid(JObject(members)) && key in Keys(members) && Stops(rest)
    ensures ReadMember(StableMember(key, members) + rest) == Some((Member(key, Canon(Lookup(members, key))), rest))
    decreases members, 2
  {
    var value := Lookup(members, key);
    var i :| 0 <= i < |members| && members[i] == Member(key, value);
    StableReads(value, rest);
    var tail := [COLON] + (Stable(value) + rest);
    QuotedReads(key, tail);
    Assoc(Quoted(key), [COLON] + Stable(value), rest);
    Assoc([COLON], Stable(value), rest);
    assert tail[1..] == Stable(value) + rest;
  }

  lemma {:induction false} MembersRead(keys: seq<Text>, members: seq<Member>, rest: Text)
    requires Valid(JObject(members)) && keys != [] && forall k | k in keys :: k in Keys(members)
    ensures ReadMembers(StableMembers(keys, members) + ([CLOSE_BRACE] + rest))
            == Some((CanonMembers(keys, members), rest))
    decreases members, 3, |keys|
  {
    var first := StableMember(keys[0], members);
    if |keys| == 1 {
      MemberReads(keys[0], members, [CLOSE_BRACE] + rest);
      assert ([CLOSE_BRACE] + rest)[1..] == rest;
      assert CanonMembers(keys[1..], members) == [];
      assert CanonMembers(keys, members) == [Member(keys[0], Canon(Lookup(members, keys[0])))];
    } else {
      var more := StableMembers(keys[1..], members) + ([CLOSE_BRACE] + rest);
      MembersRead(keys[1..], members, rest);
      MemberReads(keys[0], members, [COMMA] + more);
      Assoc(first, [COMMA] + StableMembers(keys[1..], members), [CLOSE_BRACE] + rest);
      Assoc([COMMA], StableMembers(keys[1..], members), [CLOSE_BRACE] + rest);
      assert ([COMMA] + more)[1..] == more;
    }
  }

  // ----- Equality up to the order of object members -----

  /** The same JSON value: equal scalars, equal arrays item by item, and objects
      with the same keys and the same value under each key. */
  ghost predicate Same(a: Json, b: Json) {
    match (a, b)
    case (JArray(xs), JArray(ys)) => |xs| == |ys| && forall i | 0 <= i < |xs| :: Same(xs[i], ys[i])
    case (JObject(xs), JObject(ys)) =>
      && (forall k :: k in Keys(xs) <==> k in Keys(ys))
      && (forall k | k in Keys(xs) :: k in Keys(ys) && Same(Lookup(xs, k), Lookup(ys, k)))
    case _ => a == b
  }

  lemma {:induction false} SameKeysSameOrder(xs: seq<Member>, ys: seq<Member>)
    requires DistinctKeys(Keys(xs)) && DistinctKeys(Keys(ys)) && forall k :: k in Keys(xs) <==> k in Keys(ys)
    ensures SortedKeys(xs) == SortedKeys(ys)
  {
    SortMembers(Keys(xs));
    SortMembers(Keys(ys));
    SortAscending(Keys(xs));
    SortAscending(Keys(ys));
    AscendingUnique(Sort(Keys(xs)), Sort(Keys(ys)));
  }

  lemma {:induction false} ValidLookup(members: seq<Member>, key: Text)
    requires Valid(JObject(members)) && key in Keys(members)
    ensures Valid(Lookup(members, key))
  {
  }

  lemma {:induction false} SamePrintsSame(a: Json, b: Json)
    requires Valid(a) && Valid(b) && Same(a, b)
    ensures Stable(a) == Stable(b)
    decreases a, 0
  {
    match (a, b)
    case (JArray(xs), JArray(ys)) => SameItemsPrintSame(xs, ys);
    case (JObject(xs), JObject(ys)) =>
      SameKeysSameOrder(xs, ys);
      SameMembersPrintSame(SortedKeys(xs), xs, ys);
    case _ =>
  }

  lemma {:induction false} SameItemsPrintSame(xs: seq<Json>, ys: seq<Json>)
    requires |xs| == |ys| && forall i | 0 <= i < |xs| :: Valid(xs[i]) && Valid(ys[i]) && Same(xs[i], ys[i])
    ensures StableItems(xs) == StableItems(ys)
    decreases xs, 0
  {
    if xs == [] {
    } else {
      SamePrintsSame(xs[0], ys[0]);
      SameItemsPrintSame(xs[1..], ys[1..]);
    }
  }

  lemma {:induction false} SameMembersPrintSame(keys: seq<Text>, xs: seq<Member>, ys: seq<Member>)
    requires Valid(JObject(xs)) && Valid(JObject(ys))
    requires forall k | k in keys :: k in Keys(xs) && k in Keys(ys) && Same(Lookup(xs, k), Lookup(ys, k))
    ensures StableMembers(keys, xs) == StableMembers(keys, ys)
    decreases xs, 1, |keys|
  {
    if keys == [] {
    } else {
      ValidLookup(xs, keys[0]);
      ValidLookup(ys, keys[0]);
      assert exists i | 0 <= i < |xs| :: xs[i] == Member(keys[0], Lookup(xs, keys[0]));
      SamePrintsSame(Lookup(xs, keys[0]), Lookup(ys, keys[0]));
      SameMembersPrintSame(keys[1..], xs, ys);
    }
  }

  lemma {:induction false} CanonMembersKeys(keys: seq<Text>, members: seq<Member>)
    requires forall k | k in keys :: k in Keys(members)
    ensures Keys(CanonMembers(keys, members)) == keys
  {
    if keys == [] {
    } else {
      CanonMembersKeys(keys[1..], members);
      assert CanonMembers(keys, members)[1..] == CanonMembers(keys[1..], members);
    }
  }

  lemma {:induction false} CanonMembersValues(keys: seq<Text>, xs: seq<Member>, ys: seq<Member>, key: Text)
    requires forall k | k in keys :: k in Keys(xs) && k in Keys(ys)
    requires CanonMembers(keys, xs) == CanonMembers(keys, ys) && key in keys
    ensures Canon(Lookup(xs, key)) == Canon(Lookup(ys, key))
  {
    var cx, cy := CanonMembers(keys, xs), CanonMembers(keys, ys);
    if keys[0] == key {
      assert cx[0] == cy[0];
    } else {
      assert cx[1..] == CanonMembers(keys[1..], xs) && cy[1..] == CanonMembers(keys[1..], ys);
      CanonMembersValues(keys[1..], xs, ys, key);
    }
  }

  lemma {:induction false} SameCanonSame(a: Json, b: Json)
    requires Canon(a) == Canon(b)
    ensures Same(a, b)
    decreases a, 0
  {
    match (a, b)
    case (JArray(xs), JArray(ys)) =>
      SameCanonItems(xs, ys);
    case (JObject(xs), JObject(ys)) =>
      var keys := SortedKeys(xs);
      CanonMembersKeys(keys, xs);
      CanonMembersKeys(SortedKeys(ys), ys);
      SortMembers(Keys(xs));
      SortMembers(Keys(ys));
      forall k | k in Keys(xs) ensures Same(Lookup(xs, k), Lookup(ys, k)) {
        CanonMembersValues(keys, xs, ys, k);
        assert exists i | 0 <= i < |xs| :: xs[i] == Member(k, Lookup(xs, k));
        SameCanonSame(Lookup(xs, k), Lookup(ys, k));
      }
    case _ =>
  }

  lemma {:induction false} SameCanonItems(xs: seq<Json>, ys: seq<Json>)
    requires CanonItems(xs) == CanonItems(ys)
    ensures |xs| == |ys| && forall i | 0 <= i < |xs| :: Same(xs[i], ys[i])
    decreases xs, 0
  {
    if xs == [] {
    } else {
      var cx, cy := CanonItems(xs), CanonItems(ys);
      assert cx[0] == cy[0] && cx[1..] == CanonItems(xs[1..]) && cy[1..] == CanonItems(ys[1..]);
      SameCanonSame(xs[0], ys[0]);
      SameCanonItems(xs[1..], ys[1..]);
      forall i | 0 <= i < |xs| ensures Same(xs[i], ys[i]) {
        if i > 0 { assert xs[i] == xs[1..][i - 1] && ys[i] == ys[1..][i - 1]; }
      }
    }
  }

  /** The canonical text is unambiguous: two values print the same exactly when
      they are the same value up to the order of object members, at every depth. */
  lemma {:induction false} StableUnambiguous(a: Json, b: Json)
    requires Valid(a) && Valid(b)
    ensures Stable(a) == Stable(b) <==> Same(a, b)
  {
    if Stable(a) == Stable(b) {
      StableReads(a, []);
      StableReads(b, []);
      SameCanonSame(a, b);
    } else if Same(a, b) {
      SamePrintsSame(a, b);
    }
  }
}
