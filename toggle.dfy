/**
 * The list toggle written identically in components/MachineSelection.tsx
 * and my-app/components/screens/machine-selection.tsx: a present id is
 * filtered out (every occurrence), an absent one is appended.
 */
module Toggle {

  /** No value occurs twice. */
  ghost predicate Distinct(s: seq<string>) {
    forall i, j :: 0 <= i < j < |s| ==> s[i] != s[j]
  }

  /** `s.filter(x => x !== id)`: the other values, in their order. */
  function Without(s: seq<string>, id: string): (r: seq<string>)
    ensures forall x :: x in r <==> x in s && x != id
    ensures |r| <= |s|
  {
    if s == [] then []
    else (if s[0] == id then [] else [s[0]]) + Without(s[1..], id)
  }

  /** `prev.includes(id) ? prev.filter(x => x !== id) : [...prev, id]`. */
  function Toggled(s: seq<string>, id: string): (r: seq<string>)
    ensures (id in r) <==> (id !in s)
    ensures forall x :: x != id ==> (x in r <==> x in s)
    ensures id !in s ==> r == s + [id]
  {
    if id in s then Without(s, id) else s + [id]
  }

  lemma DistinctCons(x: string, s: seq<string>)
    ensures Distinct([x] + s) <==> x !in s && Distinct(s)
  {
    var t := [x] + s;
    if x !in s && Distinct(s) {
      forall i, j | 0 <= i < j < |t|
        ensures t[i] != t[j]
      {
        if i == 0 {
          assert t[j] == s[j - 1];
        } else {
          assert t[i] == s[i - 1] && t[j] == s[j - 1];
        }
      }
    }
    if Distinct(t) {
      forall i, j | 0 <= i < j < |s|
        ensures s[i] != s[j]
      {
        assert t[i + 1] == s[i] && t[j + 1] == s[j];
      }
    }
    if x in s {
      var k :| 0 <= k < |s| && s[k] == x;
      assert t[0] == t[k + 1];
    }
  }

  /** Filtering keeps a list duplicate-free. */
  lemma {:induction false} WithoutDistinct(s: seq<string>, id: string)
    requires Distinct(s)
    ensures Distinct(Without(s, id))
  {
    if s != [] {
      assert s == [s[0]] + s[1..];
      DistinctCons(s[0], s[1..]);
      WithoutDistinct(s[1..], id);
      if s[0] != id {
        DistinctCons(s[0], Without(s[1..], id));
      }
    }
  }

  /** Filtering out an absent value changes nothing. */
  lemma {:induction false} WithoutAbsent(s: seq<string>, id: string)
    requires id !in s
    ensures Without(s, id) == s
  {
    if s != [] {
      WithoutAbsent(s[1..], id);
      assert s == [s[0]] + s[1..];
    }
  }

  /** Filtering out the value just appended gives back the list before it. */
  lemma {:induction false} WithoutAppended(s: seq<string>, id: string)
    requires id !in s
    ensures Without(s + [id], id) == s
  {
    if s == [] {
      assert [] + [id] == [id];
      assert [id][1..] == [];
    } else {
      assert (s + [id])[1..] == s[1..] + [id];
      WithoutAppended(s[1..], id);
      assert s == [s[0]] + s[1..];
    }
  }

  /** A toggle of a duplicate-free list leaves it duplicate-free. */
  lemma ToggleDistinct(s: seq<string>, id: string)
    requires Distinct(s)
    ensures Distinct(Toggled(s, id))
  {
    if id in s {
      WithoutDistinct(s, id);
    } else {
      var r := s + [id];
      forall i, j | 0 <= i < j < |r|
        ensures r[i] != r[j]
      {
        if j == |s| {
          assert r[i] == s[i];
        }
      }
    }
  }

  /** Toggling an absent id twice gives back exactly the list it started from. */
  lemma ToggleTwice(s: seq<string>, id: string)
    requires id !in s
    ensures Toggled(Toggled(s, id), id) == s
  {
    WithoutAppended(s, id);
  }
}
