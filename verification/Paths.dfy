/** Splitting at a separator and joining again, as `String.split` and `join` do. */
module Paths {

  /** The pieces between separators; there is always at least one. */
  function Split<T(==)>(s: seq<T>, sep: T): (parts: seq<seq<T>>)
    ensures parts != []
  {
    if s == [] then [[]]
    else
      var rest := Split(s[1..], sep);
      if s[0] == sep then [[]] + rest else [[s[0]] + rest[0]] + rest[1..]
  }

  function Join<T>(parts: seq<seq<T>>, sep: T): seq<T> {
    if parts == [] then []
    else if |parts| == 1 then parts[0]
    else parts[0] + ([sep] + Join(parts[1..], sep))
  }

  predicate Free<T(==)>(s: seq<T>, sep: T) {
    sep !in s
  }

  lemma {:induction false} SplitFree<T>(s: seq<T>, sep: T)
    requires Free(s, sep)
    ensures Split(s, sep) == [s]
  {
    if s == [] {
    } else {
      SplitFree(s[1..], sep);
      assert [s[0]] + s[1..] == s;
    }
  }

  lemma {:induction false} SplitAtSeparator<T>(head: seq<T>, tail: seq<T>, sep: T)
    requires Free(head, sep)
    ensures Split(head + ([sep] + tail), sep) == [head] + Split(tail, sep)
  {
    var s := head + ([sep] + tail);
    if head == [] {
      assert s == [sep] + tail && s[1..] == tail;
    } else {
      assert s[1..] == head[1..] + ([sep] + tail);
      SplitAtSeparator(head[1..], tail, sep);
      assert [head[0]] + head[1..] == head;
    }
  }

  /** Pieces without separators survive a round trip. */
  lemma {:induction false} SplitJoin<T>(parts: seq<seq<T>>, sep: T)
    requires parts != [] && forall p | p in parts :: Free(p, sep)
    ensures Split(Join(parts, sep), sep) == parts
  {
    if |parts| == 1 {
      SplitFree(parts[0], sep);
    } else {
      SplitJoin(parts[1..], sep);
      SplitAtSeparator(parts[0], Join(parts[1..], sep), sep);
      assert [parts[0]] + parts[1..] == parts;
    }
  }

  lemma {:induction false} SplitPartsFree<T>(s: seq<T>, sep: T)
    ensures forall p | p in Split(s, sep) :: Free(p, sep)
  {
    if s == [] {
    } else {
      var rest := Split(s[1..], sep);
      SplitPartsFree(s[1..], sep);
      assert rest[0] in rest && forall p | p in rest[1..] :: p in rest;
      forall p | p in Split(s, sep) ensures Free(p, sep) {
        if s[0] == sep {
          assert p == [] || p in rest;
        } else {
          assert p == [s[0]] + rest[0] || p in rest[1..];
        }
      }
    }
  }

  lemma {:induction false} JoinSplit<T>(s: seq<T>, sep: T)
    ensures Join(Split(s, sep), sep) == s
  {
    if s == [] {
    } else {
      var rest := Split(s[1..], sep);
      JoinSplit(s[1..], sep);
      if s[0] == sep {
        assert ([[]] + rest)[1..] == rest;
        assert [] + ([sep] + s[1..]) == s;
      } else {
        var parts := [[s[0]] + rest[0]] + rest[1..];
        if |rest| > 1 {
          assert parts[1..] == rest[1..];
          assert [s[0]] + rest[0] + ([sep] + Join(rest[1..], sep))
                 == [s[0]] + (rest[0] + ([sep] + Join(rest[1..], sep)));
        }
        assert [s[0]] + s[1..] == s;
      }
    }
  }

  /** A trailing separator adds one empty piece. */
  lemma {:induction false} SplitTrailing<T>(s: seq<T>, sep: T)
    ensures Split(s + [sep], sep) == Split(s, sep) + [[]]
  {
    if s == [] {
      assert [] + [sep] == [sep] && [sep][1..] == [];
    } else {
      assert (s + [sep])[1..] == s[1..] + [sep];
      SplitTrailing(s[1..], sep);
    }
  }
}
