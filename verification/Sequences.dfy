/**
 What the strict parsers need of strings and sequences: splitting and stripping, the order Python sorts strings
 by, sorting under distinct keys, and which properties of a sequence a permutation cannot change.
 */
module Sequences {
  import opened Models
  import opened NativeSnapshots

  // ----- splitting and stripping

  /** str.split with a one-character separator. */
  function Split(s: string, sep: char): (fields: seq<string>)
    ensures |fields| >= 1
  {
    if s == "" then [""]
    else
      var rest := Split(s[1..], sep);
      if s[0] == sep then [""] + rest else [[s[0]] + rest[0]] + rest[1..]
  }

  lemma {:induction false} SplitFirst(field: string, rest: string, sep: char)
    requires sep !in field
    ensures Split(field + [sep] + rest, sep) == [field] + Split(rest, sep)
  {
    var s := field + [sep] + rest;
    if field == "" {
      assert s[1..] == rest;
    } else {
      assert s[1..] == field[1..] + [sep] + rest;
      SplitFirst(field[1..], rest, sep);
      assert [s[0]] + field[1..] == field;
    }
  }

  lemma {:induction false} SplitLast(field: string, sep: char)
    requires sep !in field
    ensures Split(field, sep) == [field]
  {
    if field != "" {
      SplitLast(field[1..], sep);
      assert [field[0]] + field[1..] == field;
    }
  }

  function StripLeft(s: string): string {
    if s != "" && Whitespace(s[0]) then StripLeft(s[1..]) else s
  }

  function StripRight(s: string): string {
    if s != "" && Whitespace(s[|s| - 1]) then StripRight(s[..|s| - 1]) else s
  }

  /** str.strip without arguments. */
  function Strip(s: string): string { StripRight(StripLeft(s)) }

  predicate AllBlank(s: string) { forall i | 0 <= i < |s| :: Whitespace(s[i]) }

  predicate Trimmed(s: string) { s != "" ==> !Whitespace(s[0]) && !Whitespace(s[|s| - 1]) }

  lemma {:induction false} StripLeftOf(blank: string, rest: string)
    requires AllBlank(blank) && (rest != "" ==> !Whitespace(rest[0]))
    ensures StripLeft(blank + rest) == rest
  {
    hide Whitespace;
    if blank == "" {
      assert blank + rest == rest;
    } else {
      assert (blank + rest)[1..] == blank[1..] + rest;
      StripLeftOf(blank[1..], rest);
    }
  }

  lemma {:induction false} StripRightOf(rest: string, blank: string)
    requires AllBlank(blank) && (rest != "" ==> !Whitespace(rest[|rest| - 1]))
    ensures StripRight(rest + blank) == rest
  {
    hide Whitespace;
    if blank == "" {
      assert rest + blank == rest;
    } else {
      var shorter := blank[..|blank| - 1];
      assert (rest + blank)[..|rest + blank| - 1] == rest + shorter;
      StripRightOf(rest, shorter);
    }
  }

  lemma {:induction false} StripLeftLeaves(s: string) returns (blank: string)
    ensures AllBlank(blank) && s == blank + StripLeft(s)
    ensures StripLeft(s) != "" ==> !Whitespace(StripLeft(s)[0])
  {
    hide Whitespace;
    if s != "" && Whitespace(s[0]) {
      var more := StripLeftLeaves(s[1..]);
      blank := [s[0]] + more;
    } else {
      blank := "";
    }
  }

  lemma {:induction false} StripRightLeaves(s: string) returns (blank: string)
    ensures AllBlank(blank) && s == StripRight(s) + blank
    ensures StripRight(s) != "" ==> !Whitespace(StripRight(s)[|StripRight(s)| - 1])
  {
    hide Whitespace;
    if s != "" && Whitespace(s[|s| - 1]) {
      var more := StripRightLeaves(s[..|s| - 1]);
      blank := more + [s[|s| - 1]];
      assert s == s[..|s| - 1] + [s[|s| - 1]];
    } else {
      blank := "";
    }
  }

  /** Stripping takes the blanks off both ends and nothing else. */
  lemma StripExactly(raw: string, core: string)
    ensures Strip(raw) == core <==>
      Trimmed(core) && exists before, after :: AllBlank(before) && AllBlank(after) && raw == before + core + after
  {
    hide Whitespace, AllBlank;
    var before := StripLeftLeaves(raw);
    var left := StripLeft(raw);
    var after := StripRightLeaves(left);
    assert raw == before + StripRight(left) + after;
    assert StripRight(left) != "" ==> StripRight(left)[0] == left[0];
    if exists before, after :: AllBlank(before) && AllBlank(after) && Trimmed(core) && raw == before + core + after {
      var b, a :| AllBlank(b) && AllBlank(a) && raw == b + core + a;
      if core == "" {
        BlanksJoin(b, a);
        StripLeftOf(b + a, "");
        assert raw == b + a + "";
      } else {
        assert raw == b + (core + a) && (core + a)[0] == core[0];
        StripLeftOf(b, core + a);
        StripRightOf(core, a);
      }
    }
  }

  lemma BlanksJoin(a: string, b: string)
    requires AllBlank(a) && AllBlank(b)
    ensures AllBlank(a + b)
  {
  }

  // ----- the order of strings and identities

  type Identity = (string, string)

  /** Strings compare by code point, a proper prefix first. */
  predicate Before(a: string, b: string) {
    b != "" && (a == "" || a[0] < b[0] || (a[0] == b[0] && Before(a[1..], b[1..])))
  }

  lemma {:induction false} BeforeIsStrict(a: string)
    ensures !Before(a, a)
  {
    if a != "" {
      BeforeIsStrict(a[1..]);
    }
  }

  lemma {:induction false} BeforeIsTransitive(a: string, b: string, c: string)
    requires Before(a, b) && Before(b, c)
    ensures Before(a, c)
  {
    if a != "" && a[0] == b[0] == c[0] {
      BeforeIsTransitive(a[1..], b[1..], c[1..]);
    }
  }

  lemma {:induction false} BeforeIsTotal(a: string, b: string)
    requires a != b
    ensures Before(a, b) || Before(b, a)
  {
    if a != "" && b != "" && a[0] == b[0] {
      assert a == [a[0]] + a[1..] && b == [b[0]] + b[1..];
      BeforeIsTotal(a[1..], b[1..]);
    }
  }

  /** They agree up to here, where one ends or has the smaller character. */
  predicate PartsAt(a: string, b: string, k: nat) {
    k <= |a| && k < |b| && a[..k] == b[..k] && (k < |a| ==> a[k] < b[k])
  }

  lemma {:induction false} BeforeExactly(a: string, b: string)
    ensures Before(a, b) <==> exists k: nat :: PartsAt(a, b, k)
  {
    if b == "" {
    } else if a == "" || a[0] < b[0] {
      assert PartsAt(a, b, 0);
    } else if a[0] == b[0] {
      BeforeExactly(a[1..], b[1..]);
      if k: nat :| PartsAt(a[1..], b[1..], k) {
        assert a[..k + 1] == [a[0]] + a[1..][..k] && b[..k + 1] == [b[0]] + b[1..][..k];
        assert PartsAt(a, b, k + 1);
      }
      if k: nat :| PartsAt(a, b, k) {
        assert k > 0 && a[1..][..k - 1] == a[..k][1..] && b[1..][..k - 1] == b[..k][1..];
        assert PartsAt(a[1..], b[1..], k - 1);
      }
    } else {
      assert forall k: nat :: k > 0 && k <= |a| && k < |b| ==> a[..k][0] == a[0] && b[..k][0] == b[0];
    }
  }

  predicate IdentityBefore(a: Identity, b: Identity) { Before(a.0, b.0) || (a.0 == b.0 && Before(a.1, b.1)) }

  lemma IdentityIsStrict(a: Identity)
    ensures !IdentityBefore(a, a)
  {
    BeforeIsStrict(a.0);
    BeforeIsStrict(a.1);
  }

  lemma IdentityIsTransitive(a: Identity, b: Identity, c: Identity)
    requires IdentityBefore(a, b) && IdentityBefore(b, c)
    ensures IdentityBefore(a, c)
  {
    if Before(a.0, b.0) && Before(b.0, c.0) {
      BeforeIsTransitive(a.0, b.0, c.0);
    } else if a.0 == b.0 == c.0 {
      BeforeIsTransitive(a.1, b.1, c.1);
    }
  }

  lemma IdentityIsTotal(a: Identity, b: Identity)
    requires a != b
    ensures IdentityBefore(a, b) || IdentityBefore(b, a)
  {
    if a.0 != b.0 {
      BeforeIsTotal(a.0, b.0);
    } else {
      BeforeIsTotal(a.1, b.1);
    }
  }

  // ----- sorting under distinct keys

  ghost predicate SortedBy<T>(s: seq<T>, key: T -> Identity) {
    forall i, j | 0 <= i < j < |s| :: IdentityBefore(key(s[i]), key(s[j]))
  }

  ghost predicate SameElements<T(!new)>(a: seq<T>, b: seq<T>) { forall x: T :: x in a <==> x in b }

  /** A strictly sorted sequence is determined by its elements. */
  lemma {:induction false} SortedIsUnique<T(!new)>(a: seq<T>, b: seq<T>, key: T -> Identity)
    requires SortedBy(a, key) && SortedBy(b, key) && SameElements(a, b)
    ensures a == b
  {
    assert (a != [] ==> a[0] in b) && (b != [] ==> b[0] in a);
    if a != [] {
      SmallestFirst(a, b, key);
      SortedTail(a, b, key);
      SortedIsUnique(a[1..], b[1..], key);
      assert a == [a[0]] + a[1..] && b == [b[0]] + b[1..];
    }
  }

  lemma SmallestFirst<T(!new)>(a: seq<T>, b: seq<T>, key: T -> Identity)
    requires SortedBy(a, key) && SortedBy(b, key) && SameElements(a, b) && a != [] && b != []
    ensures a[0] == b[0]
  {
    assert a[0] in b && b[0] in a;
    var j :| 0 <= j < |b| && b[j] == a[0];
    var k :| 0 <= k < |a| && a[k] == b[0];
    if 0 < j && 0 < k {
      IdentityIsTransitive(key(a[0]), key(b[0]), key(a[0]));
      IdentityIsStrict(key(a[0]));
    }
  }

  lemma SortedTail<T(!new)>(a: seq<T>, b: seq<T>, key: T -> Identity)
    requires SortedBy(a, key) && SortedBy(b, key) && SameElements(a, b) && a != [] && b != [] && a[0] == b[0]
    ensures SameElements(a[1..], b[1..]) && SortedBy(a[1..], key) && SortedBy(b[1..], key)
  {
    IdentityIsStrict(key(a[0]));
    forall x: T ensures x in a[1..] <==> x in b[1..] {
      assert x in a[1..] ==> x in b && x != a[0];
      assert x in b[1..] ==> x in a && x != b[0];
      assert x in b ==> x == b[0] || x in b[1..];
      assert x in a ==> x == a[0] || x in a[1..];
    }
  }

  /** list.sort on one more element with a new key. */
  function InsertBy<T>(s: seq<T>, x: T, key: T -> Identity): seq<T> {
    if s == [] then [x]
    else if IdentityBefore(key(x), key(s[0])) then [x] + s
    else [s[0]] + InsertBy(s[1..], x, key)
  }

  lemma {:induction false} InsertSorts<T(!new)>(s: seq<T>, x: T, key: T -> Identity)
    requires SortedBy(s, key) && forall y | y in s :: key(y) != key(x)
    ensures SortedBy(InsertBy(s, x, key), key)
    ensures forall y: T :: y in InsertBy(s, x, key) <==> y == x || y in s
  {
    if s == [] {
    } else if IdentityBefore(key(x), key(s[0])) {
      forall i | 0 <= i < |s| ensures IdentityBefore(key(x), key(s[i])) {
        if 0 < i {
          IdentityIsTransitive(key(x), key(s[0]), key(s[i]));
        }
      }
    } else {
      IdentityIsTotal(key(x), key(s[0]));
      InsertSorts(s[1..], x, key);
      var rest := InsertBy(s[1..], x, key);
      forall i | 0 <= i < |rest| ensures IdentityBefore(key(s[0]), key(rest[i])) {
        assert rest[i] in rest;
      }
      assert forall y :: y in s <==> y == s[0] || y in s[1..];
    }
  }

  function SortBy<T>(s: seq<T>, key: T -> Identity): seq<T> {
    if s == [] then [] else InsertBy(SortBy(s[1..], key), s[0], key)
  }

  ghost predicate DistinctKeys<T>(s: seq<T>, key: T -> Identity) {
    forall i, j | 0 <= i < j < |s| :: key(s[i]) != key(s[j])
  }

  lemma {:induction false} SortSorts<T(!new)>(s: seq<T>, key: T -> Identity)
    requires DistinctKeys(s, key)
    ensures SortedBy(SortBy(s, key), key) && SameElements(SortBy(s, key), s)
    ensures |SortBy(s, key)| == |s|
  {
    if s != [] {
      SortSorts(s[1..], key);
      var rest := SortBy(s[1..], key);
      forall y | y in rest ensures key(y) != key(s[0]) {
        assert y in s[1..];
        var i :| 0 <= i < |s[1..]| && s[1..][i] == y;
        assert s[i + 1] == y;
      }
      InsertSorts(rest, s[0], key);
      InsertGrows(rest, s[0], key);
      forall y: T ensures y in SortBy(s, key) <==> y in s {
        assert y in s <==> y == s[0] || y in s[1..];
      }
    }
  }

  lemma {:induction false} InsertGrows<T>(s: seq<T>, x: T, key: T -> Identity)
    ensures |InsertBy(s, x, key)| == |s| + 1
  {
    if s != [] && !IdentityBefore(key(x), key(s[0])) {
      InsertGrows(s[1..], x, key);
    }
  }

  // ----- what a permutation cannot change

  ghost predicate DistinctBy<T, K>(s: seq<T>, key: T -> Option<K>) {
    forall i, j | 0 <= i < j < |s| && key(s[i]).Some? :: key(s[i]) != key(s[j])
  }

  lemma {:induction false} OccursTwice<T>(s: seq<T>, x: T, i: nat, j: nat)
    requires i < j < |s| && s[i] == s[j] == x
    ensures multiset(s)[x] >= 2
  {
    assert s == s[..j] + [s[j]] + s[j + 1..];
    assert s[..j][i] == x && x in s[..j];
    assert multiset(s) == multiset(s[..j]) + multiset{x} + multiset(s[j + 1..]);
  }

  lemma {:induction false} FindTwice<T>(s: seq<T>, x: T) returns (i: nat, j: nat)
    requires multiset(s)[x] >= 2
    ensures i < j < |s| && s[i] == s[j] == x
  {
    i :| i < |s| && s[i] == x;
    if x in s[i + 1..] {
      var k :| 0 <= k < |s[i + 1..]| && s[i + 1..][k] == x;
      j := i + 1 + k;
    } else {
      assert s == s[..i] + [s[i]] + s[i + 1..];
      assert multiset(s) == multiset(s[..i]) + multiset{x} + multiset(s[i + 1..]);
      assert x in s[..i];
      var k :| 0 <= k < i && s[..i][k] == x;
      i, j := k, i;
    }
  }

  lemma PermutedElements<T(!new)>(a: seq<T>, b: seq<T>)
    requires multiset(a) == multiset(b)
    ensures SameElements(a, b)
  {
    forall x: T ensures x in a <==> x in b {
      assert x in a <==> x in multiset(a);
      assert x in b <==> x in multiset(b);
    }
  }

  lemma PermutedDistinct<T(!new), K>(a: seq<T>, b: seq<T>, key: T -> Option<K>)
    requires multiset(a) == multiset(b) && DistinctBy(a, key)
    ensures DistinctBy(b, key)
  {
    PermutedElements(a, b);
    forall i, j | 0 <= i < j < |b| && key(b[i]).Some? ensures key(b[i]) != key(b[j]) {
      if b[i] == b[j] {
        OccursTwice(b, b[i], i, j);
        var p, q := FindTwice(a, b[i]);
        assert false;
      }
      assert b[i] in a && b[j] in a;
      var p :| 0 <= p < |a| && a[p] == b[i];
      var q :| 0 <= q < |a| && a[q] == b[j];
    }
  }

  // ----- reading a sequence element by element

  lemma InNext<T>(s: seq<T>, i: nat)
    requires i < |s|
    ensures forall x :: x in s[..i + 1] <==> x in s[..i] || x == s[i]
  {
    assert s[..i + 1] == s[..i] + [s[i]];
  }

  ghost predicate HasKey<T, K>(s: seq<T>, key: T -> Option<K>, k: K) { exists x | x in s :: key(x) == Some(k) }

  ghost predicate SeenBy<T, K(!new)>(seen: set<K>, s: seq<T>, key: T -> Option<K>) {
    forall k: K :: k in seen <==> HasKey(s, key, k)
  }

  function With<K>(seen: set<K>, k: Option<K>): set<K> { if k.Some? then seen + {k.value} else seen }

  /** An element keeps the keys distinct exactly when its own key was not seen before. */
  lemma KeyStep<T, K(!new)>(s: seq<T>, i: nat, key: T -> Option<K>, seen: set<K>)
    requires i < |s| && DistinctBy(s[..i], key) && SeenBy(seen, s[..i], key)
    ensures DistinctBy(s[..i + 1], key) <==> (key(s[i]).Some? ==> key(s[i]).value !in seen)
    ensures SeenBy(With(seen, key(s[i])), s[..i + 1], key)
  {
    var next := s[..i + 1];
    InNext(s, i);
    forall k: K ensures HasKey(next, key, k) <==> HasKey(s[..i], key, k) || key(s[i]) == Some(k) {
      assert s[i] in next;
    }
    if key(s[i]).Some? && key(s[i]).value in seen {
      assert HasKey(s[..i], key, key(s[i]).value);
      var x :| x in s[..i] && key(x) == key(s[i]);
      var j :| 0 <= j < i && s[..i][j] == x;
      assert next[j] == x && next[i] == s[i];
    } else {
      forall p, q | 0 <= p < q < |next| && key(next[p]).Some? ensures key(next[p]) != key(next[q]) {
        assert s[..i][p] == next[p];
        if q < i {
          assert s[..i][q] == next[q];
        } else {
          assert next[p] in s[..i] && HasKey(s[..i], key, key(next[p]).value);
        }
      }
    }
  }

  lemma KeyPrefix<T, K>(s: seq<T>, i: nat, key: T -> Option<K>)
    requires i <= |s| && !DistinctBy(s[..i], key)
    ensures !DistinctBy(s, key)
  {
  }
}
