/** The field diff run when an item is saved: the names of the content fields
    whose value changed between the stored version and the version being saved. */
module Diff {
  import opened Wrappers
  import opened Strings
  import opened Domain

  /** Field names starting with "__" belong to the platform's own bookkeeping. */
  predicate IsSystemName(name: string) {
    StartsWith(name, "__")
  }

  /** The test FindDifferences applies to one field name of the new version:
      a content field whose value differs, that the original version also has,
      under the same field ID. */
  predicate Reported(newItem: Item, original: Item, name: string) {
    !IsSystemName(name) &&
    ValueOf(newItem, name) != ValueOf(original, name) &&
    FieldNamed(original, name).Some? &&
    FieldNamed(newItem, name).Some? &&
    FieldNamed(newItem, name).value.id == FieldNamed(original, name).value.id
  }

  /** The names of `fs`, in order, that pass `keep`: the LINQ `Select`/`Where` chain. */
  function SelectNames(fs: seq<Field>, keep: string -> bool): (r: seq<string>)
    ensures |r| <= |fs|
    ensures forall name :: name in r <==> exists j :: 0 <= j < |fs| && fs[j].name == name && keep(name)
  {
    if fs == [] then []
    else
      var rest := SelectNames(fs[1..], keep);
      assert forall name :: name in rest <==> exists j :: 1 <= j < |fs| && fs[j].name == name && keep(name) by {
        forall name ensures name in rest ==> exists j :: 1 <= j < |fs| && fs[j].name == name && keep(name) {
          if name in rest {
            var j :| 0 <= j < |fs[1..]| && fs[1..][j].name == name && keep(name);
            assert fs[j + 1].name == name;
          }
        }
      }
      (if keep(fs[0].name) then [fs[0].name] else []) + rest
  }

  /** `FindDifferences(newItem, originalItem)`. */
  function FindDifferences(newItem: Item, original: Item): (r: seq<string>)
    ensures forall k :: 0 <= k < |r| ==> !IsSystemName(r[k])
    ensures forall name :: name in r <==>
      (exists j :: 0 <= j < |newItem.fields| && newItem.fields[j].name == name) &&
      !IsSystemName(name) &&
      ValueOf(newItem, name) != ValueOf(original, name) &&
      FieldNamed(original, name).Some? &&
      FieldNamed(newItem, name).value.id == FieldNamed(original, name).value.id
  {
    var r := SelectNames(newItem.fields, name => Reported(newItem, original, name));
    assert forall k :: 0 <= k < |r| ==> r[k] in r;
    r
  }

  /** `p` lists in ascending order exactly the positions of `fs` whose name passes
      `keep`, and `r` names the fields at those positions. */
  ghost predicate IsOrderedSelection(fs: seq<Field>, keep: string -> bool, p: seq<int>, r: seq<string>) {
    |p| == |r| &&
    (forall k :: 0 <= k < |p| ==> 0 <= p[k] < |fs| && r[k] == fs[p[k]].name) &&
    (forall k, l :: 0 <= k < l < |p| ==> p[k] < p[l]) &&
    (forall j :: 0 <= j < |fs| ==> (keep(fs[j].name) <==> j in p))
  }

  function Shifted(p: seq<int>): (q: seq<int>)
    ensures |q| == |p| && forall k :: 0 <= k < |p| ==> q[k] == p[k] + 1
  {
    seq(|p|, k requires 0 <= k < |p| => p[k] + 1)
  }

  /** The positions of `fs` whose name passes `keep`, in ascending order. */
  ghost function Positions(fs: seq<Field>, keep: string -> bool): seq<int> {
    if fs == [] then []
    else (if keep(fs[0].name) then [0] else []) + Shifted(Positions(fs[1..], keep))
  }

  lemma {:induction false} SelectionIndexes(fs: seq<Field>, keep: string -> bool)
    ensures var p, r := Positions(fs, keep), SelectNames(fs, keep);
      |p| == |r| && forall k :: 0 <= k < |p| ==> 0 <= p[k] < |fs| && r[k] == fs[p[k]].name
  {
    if fs != [] {
      var tail := fs[1..];
      SelectionIndexes(tail, keep);
      var p', rest := Positions(tail, keep), SelectNames(tail, keep);
      var pre := if keep(fs[0].name) then [0] else [];
      var p, r := pre + Shifted(p'), SelectNames(fs, keep);
      assert r == (if keep(fs[0].name) then [fs[0].name] else []) + rest;
      forall k | |pre| <= k < |p| ensures 0 <= p[k] < |fs| && r[k] == fs[p[k]].name {
        assert p[k] == p'[k - |pre|] + 1;
        assert r[k] == rest[k - |pre|];
        assert fs[p[k]] == tail[p'[k - |pre|]];
      }
    }
  }

  lemma {:induction false} PositionsBounded(fs: seq<Field>, keep: string -> bool)
    ensures forall k :: 0 <= k < |Positions(fs, keep)| ==> 0 <= Positions(fs, keep)[k] < |fs|
  {
    if fs != [] {
      PositionsBounded(fs[1..], keep);
    }
  }

  lemma {:induction false} PositionsAscend(fs: seq<Field>, keep: string -> bool)
    ensures forall k, l :: 0 <= k < l < |Positions(fs, keep)| ==> Positions(fs, keep)[k] < Positions(fs, keep)[l]
  {
    if fs != [] {
      var tail := fs[1..];
      PositionsAscend(tail, keep);
      PositionsBounded(tail, keep);
      var p' := Positions(tail, keep);
      var q := Shifted(p');
      var pre := if keep(fs[0].name) then [0] else [];
      var p := pre + q;
      assert Positions(fs, keep) == p;
      forall k, l | 0 <= k < l < |p| ensures p[k] < p[l] {
        assert p[l] == q[l - |pre|] == p'[l - |pre|] + 1;
        if k >= |pre| { assert p[k] == q[k - |pre|] == p'[k - |pre|] + 1; }
      }
    }
  }

  lemma {:induction false} PositionsComplete(fs: seq<Field>, keep: string -> bool)
    ensures forall j :: 0 <= j < |fs| ==> (keep(fs[j].name) <==> j in Positions(fs, keep))
  {
    if fs != [] {
      var tail := fs[1..];
      PositionsComplete(tail, keep);
      var p' := Positions(tail, keep);
      var q := Shifted(p');
      var p := (if keep(fs[0].name) then [0] else []) + q;
      assert Positions(fs, keep) == p;
      PositionsBounded(tail, keep);
      forall j | 0 <= j < |fs|
        ensures keep(fs[j].name) <==> j in p
      {
        if j > 0 {
          assert fs[j] == tail[j - 1];
          if j - 1 in p' {
            var k :| 0 <= k < |p'| && p'[k] == j - 1;
            assert q[k] == j;
          }
          if j in q {
            var k :| 0 <= k < |q| && q[k] == j;
            assert p'[k] == j - 1;
          }
        } else {
          assert forall k :: 0 <= k < |p'| ==> 0 <= p'[k];
          assert forall k :: 0 <= k < |q| ==> q[k] >= 1;
        }
      }
    }
  }

  lemma SelectNamesInOrder(fs: seq<Field>, keep: string -> bool)
    ensures IsOrderedSelection(fs, keep, Positions(fs, keep), SelectNames(fs, keep))
  {
    SelectionIndexes(fs, keep);
    PositionsBounded(fs, keep);
    PositionsAscend(fs, keep);
    PositionsComplete(fs, keep);
  }

  /** The diff is the new version's passing field names, in the new version's
      field order: an ordered selection of its positions, missing none. */
  lemma DiffFollowsFieldOrder(newItem: Item, original: Item)
    ensures var keep := name => Reported(newItem, original, name);
      IsOrderedSelection(newItem.fields, keep, Positions(newItem.fields, keep), FindDifferences(newItem, original))
  {
    SelectNamesInOrder(newItem.fields, name => Reported(newItem, original, name));
  }

  lemma {:induction false} SelectNone(fs: seq<Field>, keep: string -> bool)
    requires forall j :: 0 <= j < |fs| ==> !keep(fs[j].name)
    ensures SelectNames(fs, keep) == []
  {
    if fs != [] {
      assert forall j :: 1 <= j < |fs| ==> fs[1..][j - 1] == fs[j];
      SelectNone(fs[1..], keep);
    }
  }

  lemma {:induction false} SelectOne(fs: seq<Field>, keep: string -> bool, i: nat)
    requires i < |fs|
    requires forall j :: 0 <= j < |fs| ==> (keep(fs[j].name) <==> j == i)
    ensures SelectNames(fs, keep) == [fs[i].name]
  {
    assert forall j :: 1 <= j < |fs| ==> fs[1..][j - 1] == fs[j];
    if i == 0 {
      SelectNone(fs[1..], keep);
    } else {
      SelectOne(fs[1..], keep, i - 1);
    }
  }

  /** Saving an unchanged version reports nothing. */
  lemma NoDiffWithoutChange(item: Item)
    ensures FindDifferences(item, item) == []
  {
    SelectNone(item.fields, name => Reported(item, item, name));
  }

  /** The one field name that has a different value, the same ID and no
      namesake passes the test; every other name fails it. */
  lemma ReportedOnlyAt(newItem: Item, original: Item, i: nat, j: nat)
    requires |newItem.fields| == |original.fields| && i < |newItem.fields| && j < |newItem.fields|
    requires forall a, b :: 0 <= a < b < |newItem.fields| ==> newItem.fields[a].name != newItem.fields[b].name
    requires forall a, b :: 0 <= a < b < |original.fields| ==> original.fields[a].name != original.fields[b].name
    requires j != i ==> newItem.fields[j] == original.fields[j]
    requires newItem.fields[i].id == original.fields[i].id && newItem.fields[i].name == original.fields[i].name
    requires newItem.fields[i].value != original.fields[i].value
    requires !IsSystemName(newItem.fields[i].name)
    ensures Reported(newItem, original, newItem.fields[j].name) <==> j == i
  {
    FieldIndexUnique(newItem.fields, j);
    FieldIndexUnique(original.fields, j);
  }

  /** Two versions that differ only in the value of one content field, with
      field names unique, yield exactly that field's name. */
  lemma SingleFieldEdit(newItem: Item, original: Item, i: nat)
    requires |newItem.fields| == |original.fields| && i < |newItem.fields|
    requires forall a, b :: 0 <= a < b < |newItem.fields| ==> newItem.fields[a].name != newItem.fields[b].name
    requires forall j :: 0 <= j < |newItem.fields| && j != i ==> newItem.fields[j] == original.fields[j]
    requires newItem.fields[i].id == original.fields[i].id && newItem.fields[i].name == original.fields[i].name
    requires newItem.fields[i].value != original.fields[i].value
    requires !IsSystemName(newItem.fields[i].name)
    ensures FindDifferences(newItem, original) == [newItem.fields[i].name]
  {
    var fs, gs := newItem.fields, original.fields;
    assert forall j :: 0 <= j < |gs| ==> gs[j].name == fs[j].name;
    var keep := name => Reported(newItem, original, name);
    forall j | 0 <= j < |fs|
      ensures keep(fs[j].name) <==> j == i
    {
      ReportedOnlyAt(newItem, original, i, j);
    }
    SelectOne(fs, keep, i);
  }

  /** The test looks at a field's name only, so any two fields of the new
      version that share a name are both kept or both dropped. */
  lemma DuplicatedNameAllOrNothing(newItem: Item, original: Item, i: nat, j: nat)
    requires i < |newItem.fields| && j < |newItem.fields|
    requires newItem.fields[i].name == newItem.fields[j].name
    ensures var keep := name => Reported(newItem, original, name);
      i in Positions(newItem.fields, keep) <==> j in Positions(newItem.fields, keep)
  {
    DiffFollowsFieldOrder(newItem, original);
  }

  /** Why `SingleFieldEdit` needs unique names: the model resolves a name to
      the first field carrying it, so with two fields named "X" an edit of
      the first is reported once per namesake ... */
  lemma DuplicateNameReportedTwice(newItem: Item, original: Item)
    requires newItem.fields == [Field("{A}", "X", "X", "2"), Field("{B}", "X", "X", "1")]
    requires original.fields == [Field("{A}", "X", "X", "1"), Field("{B}", "X", "X", "1")]
    ensures FindDifferences(newItem, original) == ["X", "X"]
  {
    assert !IsSystemName("X") by { assert "X"[0] != '_'; }
    assert FieldIndex(newItem.fields, "X") == Some(0);
    assert FieldIndex(original.fields, "X") == Some(0);
    var fs, keep := newItem.fields, name => Reported(newItem, original, name);
    assert keep(fs[0].name) && keep(fs[1..][0].name);
    assert fs[1..][1..] == [];
    assert SelectNames(fs[1..], keep) == ["X"];
  }

  /** ... and an edit of the second is not reported at all. */
  lemma DuplicateNameEditMissed(newItem: Item, original: Item)
    requires newItem.fields == [Field("{A}", "X", "X", "1"), Field("{B}", "X", "X", "2")]
    requires original.fields == [Field("{A}", "X", "X", "1"), Field("{B}", "X", "X", "1")]
    ensures FindDifferences(newItem, original) == []
  {
    assert FieldIndex(newItem.fields, "X") == Some(0);
    assert FieldIndex(original.fields, "X") == Some(0);
    var keep := name => Reported(newItem, original, name);
    assert forall j :: 0 <= j < |newItem.fields| ==> !keep(newItem.fields[j].name);
    SelectNone(newItem.fields, keep);
  }
}
