/** The two list edits the tables apply to their rows: dropping every row with a
    given id (`rows.filter(r => r.id !== id)`) and replacing every row that has
    the id of an updated row (`rows.map(r => r.id === u.id ? u : r)`). */
module ListEdits {

  /** The rows whose key differs from `id`, in their original order. */
  function Without<T>(s: seq<T>, id: string, key: T -> string): (r: seq<T>)
    ensures |r| <= |s|
    ensures forall i :: 0 <= i < |r| ==> key(r[i]) != id
  {
    if s == [] then []
    else (if key(s[0]) == id then [] else [s[0]]) + Without(s[1..], id, key)
  }

  /** Filtering keeps exactly the rows whose key differs from `id`: nothing else survives and
      none of them is lost. */
  lemma {:induction false} WithoutMembers<T>(s: seq<T>, id: string, key: T -> string)
    ensures forall x :: x in Without(s, id, key) ==> x in s && key(x) != id
    ensures forall x :: x in s && key(x) != id ==> x in Without(s, id, key)
  {
    if s != [] {
      WithoutMembers(s[1..], id, key);
      WithoutCons(s[0], s[1..], id, key);
      assert s == [s[0]] + s[1..];
    }
  }

  /** Filtering distributes over concatenation, so the survivors keep their relative order. */
  lemma {:induction false} WithoutAppend<T>(a: seq<T>, b: seq<T>, id: string, key: T -> string)
    ensures Without(a + b, id, key) == Without(a, id, key) + Without(b, id, key)
  {
    if a == [] {
      assert a + b == b;
    } else {
      assert (a + b)[1..] == a[1..] + b;
      WithoutAppend(a[1..], b, id, key);
    }
  }

  /** A list without the id is left exactly as it was. */
  lemma {:induction false} WithoutAbsent<T>(s: seq<T>, id: string, key: T -> string)
    requires forall i :: 0 <= i < |s| ==> key(s[i]) != id
    ensures Without(s, id, key) == s
  {
    if s != [] {
      WithoutAbsent(s[1..], id, key);
    }
  }

  /** Deleting the same id twice is deleting it once. */
  lemma WithoutIdempotent<T>(s: seq<T>, id: string, key: T -> string)
    ensures Without(Without(s, id, key), id, key) == Without(s, id, key)
  {
    WithoutAbsent(Without(s, id, key), id, key);
  }

  /** Deleting an id that one row holds shortens the list by exactly one when ids are unique. */
  lemma {:induction false} WithoutUnique<T>(s: seq<T>, j: int, key: T -> string)
    requires 0 <= j < |s|
    requires forall i :: 0 <= i < |s| && i != j ==> key(s[i]) != key(s[j])
    ensures Without(s, key(s[j]), key) == s[..j] + s[j + 1..]
  {
    var t := s[1..];
    if j == 0 {
      forall i | 0 <= i < |t| ensures key(t[i]) != key(s[0]) {
        assert t[i] == s[i + 1];
      }
      WithoutAbsent(t, key(s[0]), key);
    } else {
      forall i | 0 <= i < |t| && i != j - 1 ensures key(t[i]) != key(t[j - 1]) {
        assert t[i] == s[i + 1] && t[j - 1] == s[j];
      }
      WithoutUnique(t, j - 1, key);
      assert t[j - 1] == s[j];
      assert s[..j] + s[j + 1..] == [s[0]] + (t[..j - 1] + t[j..]);
    }
  }

  /** One step of the filter: the first row is kept or dropped, then the rest is filtered. */
  lemma WithoutCons<T>(x: T, b: seq<T>, id: string, key: T -> string)
    ensures Without([x] + b, id, key) == (if key(x) == id then [] else [x]) + Without(b, id, key)
  {
    assert ([x] + b)[1..] == b;
  }

  /** The list with every row carrying `u`'s key replaced by `u`. */
  function Replaced<T>(s: seq<T>, u: T, key: T -> string): (r: seq<T>)
    ensures |r| == |s|
    ensures forall i :: 0 <= i < |s| && key(s[i]) == key(u) ==> r[i] == u
    ensures forall i :: 0 <= i < |s| && key(s[i]) != key(u) ==> r[i] == s[i]
  {
    if s == [] then []
    else [if key(s[0]) == key(u) then u else s[0]] + Replaced(s[1..], u, key)
  }

  /** Replacing never changes which key sits at which position. */
  lemma ReplacedKeepsKeys<T>(s: seq<T>, u: T, key: T -> string)
    ensures forall i :: 0 <= i < |s| ==> key(Replaced(s, u, key)[i]) == key(s[i])
  {
  }

  /** An update whose id is not in the list changes nothing (the row is not added). */
  lemma ReplacedAbsent<T>(s: seq<T>, u: T, key: T -> string)
    requires forall i :: 0 <= i < |s| ==> key(s[i]) != key(u)
    ensures Replaced(s, u, key) == s
  {
  }

  /** Applying the same update twice is applying it once. */
  lemma ReplacedIdempotent<T>(s: seq<T>, u: T, key: T -> string)
    ensures Replaced(Replaced(s, u, key), u, key) == Replaced(s, u, key)
  {
  }

  /** Deleting after updating a row is the same as deleting it straight away. */
  lemma {:induction false} WithoutAfterReplaced<T>(s: seq<T>, u: T, key: T -> string)
    ensures Without(Replaced(s, u, key), key(u), key) == Without(s, key(u), key)
  {
    if s != [] {
      assert Replaced(s, u, key)[1..] == Replaced(s[1..], u, key);
      WithoutAfterReplaced(s[1..], u, key);
    }
  }
  /** No two rows share a key. */
  predicate UniqueKeys<T>(s: seq<T>, key: T -> string) {
    forall i, j :: 0 <= i < j < |s| ==> key(s[i]) != key(s[j])
  }

  /** Deleting rows keeps the keys unique. */
  lemma {:induction false} WithoutKeepsUnique<T>(s: seq<T>, id: string, key: T -> string)
    requires UniqueKeys(s, key)
    ensures UniqueKeys(Without(s, id, key), key)
  {
    if s != [] {
      var rest := Without(s[1..], id, key);
      assert UniqueKeys(s[1..], key) by {
        forall i, j | 0 <= i < j < |s[1..]| ensures key(s[1..][i]) != key(s[1..][j]) {
          assert s[1..][i] == s[i + 1] && s[1..][j] == s[j + 1];
        }
      }
      WithoutKeepsUnique(s[1..], id, key);
      WithoutMembers(s[1..], id, key);
      forall k | 0 <= k < |rest| ensures key(rest[k]) != key(s[0]) {
        assert rest[k] in rest;
        assert rest[k] in s[1..];
        var m :| 0 <= m < |s[1..]| && s[1..][m] == rest[k];
        assert s[1..][m] == s[m + 1];
      }
    }
  }

  /** Replacing rows keeps the keys unique. */
  lemma ReplacedKeepsUnique<T>(s: seq<T>, u: T, key: T -> string)
    requires UniqueKeys(s, key)
    ensures UniqueKeys(Replaced(s, u, key), key)
  {
    ReplacedKeepsKeys(s, u, key);
  }
}
