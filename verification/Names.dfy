/** The order of application names, and what sorting and deduplicating a list of them gives. */
module Names {
  import opened Types

  /** The order of Rust strings: byte by byte, a prefix first. */
  predicate Less(a: seq<Byte>, b: seq<Byte>) {
    b != [] && (a == [] || a[0] < b[0] || (a[0] == b[0] && Less(a[1..], b[1..])))
  }

  lemma {:induction false} LessIsTotal(a: seq<Byte>, b: seq<Byte>)
    ensures Less(a, b) || a == b || Less(b, a)
    ensures !(Less(a, b) && Less(b, a)) && !Less(a, a)
  {
    if a == [] {
    } else {
      LessIsTotal(a[1..], a[1..]);
    }
    if a == [] || b == [] || a[0] != b[0] {
    } else {
      LessIsTotal(a[1..], b[1..]);
      assert a == [a[0]] + a[1..] && b == [b[0]] + b[1..];
    }
  }

  lemma {:induction false} LessIsTransitive(a: seq<Byte>, b: seq<Byte>, c: seq<Byte>)
    requires Less(a, b) && Less(b, c)
    ensures Less(a, c)
  {
    if a == [] || a[0] < b[0] || b[0] < c[0] {
    } else {
      LessIsTransitive(a[1..], b[1..], c[1..]);
    }
  }

  predicate IsSorted(names: seq<Name>) { forall i, j | 0 <= i < j < |names| :: !Less(names[j], names[i]) }

  predicate IsStrictlySorted(names: seq<Name>) { forall i, j | 0 <= i < j < |names| :: Less(names[i], names[j]) }

  /** The name at its place among sorted names, after those equal to it. */
  function Place(names: seq<Name>, name: Name): (r: seq<Name>)
    ensures multiset(r) == multiset(names) + multiset{name}
  {
    if names == [] || Less(name, names[0]) then
      [name] + names
    else
      assert names == [names[0]] + names[1..];
      [names[0]] + Place(names[1..], name)
  }

  /** The names in order. */
  function Sorted(names: seq<Name>): (r: seq<Name>)
    ensures multiset(r) == multiset(names)
  {
    if names == [] then [] else
      assert names == [names[0]] + names[1..];
      Place(Sorted(names[1..]), names[0])
  }

  lemma SameElements(a: seq<Name>, b: seq<Name>)
    requires multiset(a) == multiset(b)
    ensures forall x :: x in a <==> x in b
  {
    forall x ensures x in a <==> x in b {
      assert x in a <==> x in multiset(a);
      assert x in b <==> x in multiset(b);
    }
  }

  lemma {:induction false} PlaceIsSorted(names: seq<Name>, name: Name)
    requires IsSorted(names)
    ensures IsSorted(Place(names, name))
  {
    if names == [] {
    } else {
      var r := Place(names, name);
      if Less(name, names[0]) {
        forall i | 0 <= i < |names| ensures !Less(names[i], name) {
          LessIsTotal(name, names[0]);
          LessIsTotal(names[0], names[i]);
          if Less(names[i], name) {
            LessIsTransitive(names[i], name, names[0]);
          }
        }
      } else {
        PlaceIsSorted(names[1..], name);
        forall x | x in r[1..] ensures !Less(x, names[0]) {
          assert x in multiset(r[1..]);
          assert x == name || x in names[1..];
        }
      }
    }
  }

  lemma {:induction false} SortedIsSorted(names: seq<Name>)
    ensures IsSorted(Sorted(names)) && multiset(Sorted(names)) == multiset(names)
  {
    if names == [] {
    } else {
      SortedIsSorted(names[1..]);
      PlaceIsSorted(Sorted(names[1..]), names[0]);
    }
  }

  /** `dedup`: of equal neighbours only the first one stays. */
  function Deduped(names: seq<Name>): (r: seq<Name>)
    ensures forall x :: x in r <==> x in names
    ensures names != [] ==> r != [] && r[0] == names[0]
  {
    if |names| <= 1 then names
    else if names[0] == names[1] then
      var r := Deduped(names[1..]);
      assert names == [names[0]] + names[1..]; r
    else
      assert names == [names[0]] + names[1..];
      [names[0]] + Deduped(names[1..])
  }

  /** Deduplicating sorted names leaves them strictly sorted. */
  lemma {:induction false} DedupedIsStrictlySorted(names: seq<Name>)
    requires IsSorted(names)
    ensures IsStrictlySorted(Deduped(names))
  {
    if |names| <= 1 {
    } else {
      DedupedIsStrictlySorted(names[1..]);
      if names[0] != names[1] {
        var r := Deduped(names[1..]);
        forall x | x in r ensures Less(names[0], x) {
          var i :| 0 <= i < |names[1..]| && names[1..][i] == x;
          LessIsTotal(names[0], names[1]);
          LessIsTotal(names[1], x);
          if names[1] != x {
            assert !Less(x, names[1]);
            LessIsTransitive(names[0], names[1], x);
          }
        }
      }
    }
  }

  lemma HasElement(a: seq<Name>, b: seq<Name>)
    requires a != [] && forall x | x in a :: x in b
    ensures b != []
  {
    assert a[0] in a;
  }

  /** A strictly sorted list is the only one with its elements. */
  lemma {:induction false} StrictlySortedIsUnique(a: seq<Name>, b: seq<Name>)
    requires IsStrictlySorted(a) && IsStrictlySorted(b) && forall x :: x in a <==> x in b
    ensures a == b
  {
    if a != [] {
      HasElement(a, b);
    }
    if b == [] {
    } else {
      HasElement(b, a);
      assert a[0] in b && b[0] in a;
      var i :| 0 <= i < |b| && b[i] == a[0];
      var j :| 0 <= j < |a| && a[j] == b[0];
      LessIsTotal(a[0], b[0]);
      assert a[0] == b[0];
      forall x ensures x in a[1..] <==> x in b[1..] {
        LessIsTotal(a[0], a[0]);
        assert x in a <==> x in b;
        assert x in a <==> x == a[0] || x in a[1..];
        assert x in b <==> x == b[0] || x in b[1..];
      }
      StrictlySortedIsUnique(a[1..], b[1..]);
    }
  }
}
