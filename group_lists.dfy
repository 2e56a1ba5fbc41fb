/**
 * The global-group and non-persistent-group lists: `add_global_groups` and
 * `add_non_persistent_groups` append the new names with `array_merge` and
 * then drop repeats with `array_unique`, which keeps each first occurrence.
 */
module GroupLists {

  /** The argument of the two `add_*_groups` methods: one name, or an array of names. */
  datatype GroupArg = One(name: string) | Many(names: seq<string>)

  /** `(array) $groups`: a single name becomes a one-element list. */
  function AsList(arg: GroupArg): (r: seq<string>)
    ensures arg.One? ==> r == [arg.name]
    ensures arg.Many? ==> r == arg.names
  {
    match arg
    case One(name) => [name]
    case Many(names) => names
  }

  function Elems<T>(s: seq<T>): set<T> {
    set x | x in s
  }

  predicate NoDups<T(==)>(s: seq<T>) {
    forall i, j :: 0 <= i < j < |s| ==> s[i] != s[j]
  }

  /** The first occurrence of every element of `s` that is not in `seen`, in order. */
  function UniqueFrom<T(==)>(s: seq<T>, seen: set<T>): (r: seq<T>)
    ensures NoDups(r)
    ensures Elems(r) == Elems(s) - seen
  {
    if s == [] then []
    else
      assert Elems(s) == {s[0]} + Elems(s[1..]);
      if s[0] in seen then UniqueFrom(s[1..], seen)
      else
        var rest := UniqueFrom(s[1..], seen + {s[0]});
        assert Elems([s[0]] + rest) == {s[0]} + Elems(rest);
        [s[0]] + rest
  }

  /** `array_unique`: drop every element equal to an earlier one. */
  function Unique<T(==)>(s: seq<T>): (r: seq<T>)
    ensures NoDups(r) && Elems(r) == Elems(s)
  {
    UniqueFrom(s, {})
  }

  /** The list after `add_*_groups(arg)`: `array_unique(array_merge(current, (array) arg))`. */
  function MergeGroups(current: seq<string>, arg: GroupArg): (r: seq<string>)
    ensures NoDups(r)
    ensures Elems(r) == Elems(current) + Elems(AsList(arg))
  {
    Unique(current + AsList(arg))
  }

  lemma {:induction false} UniqueFromAppend<T>(a: seq<T>, b: seq<T>, seen: set<T>)
    ensures UniqueFrom(a + b, seen) == UniqueFrom(a, seen) + UniqueFrom(b, seen + Elems(a))
  {
    if a == [] {
      assert a + b == b;
      assert seen + Elems(a) == seen;
    } else {
      assert (a + b)[0] == a[0];
      assert (a + b)[1..] == a[1..] + b;
      assert Elems(a) == {a[0]} + Elems(a[1..]);
      if a[0] in seen {
        UniqueFromAppend(a[1..], b, seen);
        assert seen + Elems(a[1..]) == seen + Elems(a);
      } else {
        UniqueFromAppend(a[1..], b, seen + {a[0]});
        assert seen + {a[0]} + Elems(a[1..]) == seen + Elems(a);
      }
    }
  }

  lemma {:induction false} UniqueFromOfFresh<T>(a: seq<T>, seen: set<T>)
    requires NoDups(a) && Elems(a) !! seen
    ensures UniqueFrom(a, seen) == a
  {
    if a != [] {
      assert a[0] in Elems(a);
      assert Elems(a[1..]) !! seen + {a[0]} by {
        forall x | x in a[1..] ensures x != a[0] && x !in seen {
          var k :| 0 <= k < |a[1..]| && a[1..][k] == x;
          assert a[k + 1] == x;
        }
      }
      assert NoDups(a[1..]);
      UniqueFromOfFresh(a[1..], seen + {a[0]});
    }
  }

  lemma UniqueFromCovered<T>(b: seq<T>, seen: set<T>)
    requires Elems(b) <= seen
    ensures UniqueFrom(b, seen) == []
  {
    var r := UniqueFrom(b, seen);
    assert forall i :: 0 <= i < |r| ==> r[i] in Elems(r);
  }

  /** The groups already listed keep their places; only names not yet listed are appended, once each. */
  lemma MergeKeepsExisting(current: seq<string>, arg: GroupArg)
    requires NoDups(current)
    ensures MergeGroups(current, arg) == current + UniqueFrom(AsList(arg), Elems(current))
  {
    UniqueFromAppend(current, AsList(arg), {});
    UniqueFromOfFresh(current, {});
    assert {} + Elems(current) == Elems(current);
  }

  /** Adding the same groups a second time changes nothing. */
  lemma MergeIdempotent(current: seq<string>, arg: GroupArg)
    requires NoDups(current)
    ensures MergeGroups(MergeGroups(current, arg), arg) == MergeGroups(current, arg)
  {
    var once := MergeGroups(current, arg);
    MergeKeepsExisting(once, arg);
    UniqueFromCovered(AsList(arg), Elems(once));
  }

  lemma NoDupsSnoc<T>(s: seq<T>, x: T)
    requires NoDups(s) && x !in s
    ensures NoDups(s + [x])
  {
  }

  /** A list without repeats is left as it is by `array_unique`. */
  lemma UniqueOfNoDups<T>(s: seq<T>)
    requires NoDups(s)
    ensures Unique(s) == s
  {
    UniqueFromOfFresh(s, {});
  }
}
