/**
 * Pack's last check: the archive that was written carries exactly the files the closure resolved.
 */
module PackInventory {
  import opened Options

  datatype Entry = Entry(path: string, size: nat, sha256: string)

  /** A file of the closure: what it must be in the archive, and where it came from. */
  datatype File = File(entry: Entry, source: string)

  /** The entry a JavaScript Map built from the inventory holds for a path: the last one. */
  function LastEntry(inventory: seq<Entry>, path: string): Option<Entry> {
    if inventory == [] then None
    else if inventory[|inventory| - 1].path == path then Some(inventory[|inventory| - 1])
    else LastEntry(inventory[..|inventory| - 1], path)
  }

  /** Its keys, in the order of their first appearance. */
  function KeyOrder(inventory: seq<Entry>): seq<string> {
    if inventory == [] then []
    else
      var before, path := KeyOrder(inventory[..|inventory| - 1]), inventory[|inventory| - 1].path;
      if path in before then before else before + [path]
  }

  /** File `i` was not written as it was resolved, or names a path that an earlier file named. */
  predicate Differs(files: seq<File>, inventory: seq<Entry>, i: nat)
    requires i < |files|
  {
    LastEntry(inventory, files[i].entry.path) != Some(files[i].entry)
      || exists j :: 0 <= j < i && files[j].entry.path == files[i].entry.path
  }

  predicate Lists(files: seq<File>, path: string) {
    exists i :: 0 <= i < |files| && files[i].entry.path == path
  }

  /** What the comparison answers: the first file that differs, else the first path written that no file names. */
  ghost predicate IsAnswer(files: seq<File>, inventory: seq<Entry>, answer: Option<string>) {
    if exists i: nat :: i < |files| && Differs(files, inventory, i) then
      exists i: nat :: i < |files| && Differs(files, inventory, i)
        && (forall j: nat | j < i :: !Differs(files, inventory, j)) && answer == Some(files[i].source)
    else if exists k: nat :: k < |KeyOrder(inventory)| && !Lists(files, KeyOrder(inventory)[k]) then
      exists k: nat :: k < |KeyOrder(inventory)| && !Lists(files, KeyOrder(inventory)[k])
        && (forall j: nat | j < k :: Lists(files, KeyOrder(inventory)[j])) && answer == Some(KeyOrder(inventory)[k])
    else answer == None
  }

  /** The Map of the inventory: its entries and the order of its keys. */
  method BuildMap(inventory: seq<Entry>) returns (written: map<string, Entry>, order: seq<string>)
    ensures order == KeyOrder(inventory)
    ensures forall path :: LastEntry(inventory, path) == if path in written then Some(written[path]) else None
    ensures forall path :: path in order <==> path in written
  {
    written, order := map[], [];
    for i := 0 to |inventory|
      invariant order == KeyOrder(inventory[..i])
      invariant forall path :: LastEntry(inventory[..i], path) == if path in written then Some(written[path]) else None
      invariant forall path :: path in order <==> path in written
    {
      assert inventory[..i + 1][..i] == inventory[..i];
      var entry := inventory[i];
      if entry.path !in written { order := order + [entry.path]; }
      written := written[entry.path := entry];
    }
    assert inventory[..|inventory|] == inventory;
  }

  /** The map of what is still to be asked for after the first `i` files. */
  ghost predicate Remaining(written: map<string, Entry>, inventory: seq<Entry>, files: seq<File>, i: nat)
    requires i <= |files|
  {
    forall path :: (if path in written then Some(written[path]) else None)
      == if Lists(files[..i], path) then None else LastEntry(inventory, path)
  }

  lemma {:induction false} RemainingStep(written: map<string, Entry>, inventory: seq<Entry>, files: seq<File>, i: nat)
    requires i < |files| && Remaining(written, inventory, files, i)
    ensures var entry := files[i].entry;
      Differs(files, inventory, i) <==> entry.path !in written || written[entry.path] != entry
    ensures Remaining(written - {files[i].entry.path}, inventory, files, i + 1)
  {
    var entry := files[i].entry;
    ListsPrefix(files, i, entry.path);
    var rest := written - {entry.path};
    forall path ensures (if path in rest then Some(rest[path]) else None)
      == if Lists(files[..i + 1], path) then None else LastEntry(inventory, path)
    {
      ListsSnoc(files, i, path);
    }
  }

  /** Delete each file's path from the map as it is found as resolved, up to the first that differs. */
  method DeleteFound(files: seq<File>, inventory: seq<Entry>, written: map<string, Entry>) returns (differing: Option<nat>, left: map<string, Entry>)
    requires Remaining(written, inventory, files, 0)
    ensures differing.Some? ==> differing.value < |files| && Differs(files, inventory, differing.value)
    ensures differing.Some? ==> forall j: nat | j < differing.value :: !Differs(files, inventory, j)
    ensures differing.None? ==> Remaining(left, inventory, files, |files|) && forall j: nat | j < |files| :: !Differs(files, inventory, j)
  {
    left := written;
    for i := 0 to |files|
      invariant Remaining(left, inventory, files, i)
      invariant forall j: nat | j < i :: !Differs(files, inventory, j)
    {
      var entry := files[i].entry;
      RemainingStep(left, inventory, files, i);
      if entry.path !in left || left[entry.path] != entry { return Some(i), left; }
      left := left - {entry.path};
    }
    differing := None;
  }

  /** The first key that is left over: an entry no file asked for. */
  method FirstLeftOver(order: seq<string>, left: map<string, Entry>) returns (k: nat)
    ensures k <= |order| && (forall j | 0 <= j < k :: order[j] !in left) && (k < |order| ==> order[k] in left)
  {
    k := 0;
    while k < |order| && order[k] !in left
      invariant k <= |order| && forall j | 0 <= j < k :: order[j] !in left
    {
      k := k + 1;
    }
  }

  /** The comparison: the first file that differs, else the first entry left over. */
  method ChangedFile(files: seq<File>, inventory: seq<Entry>) returns (changed: Option<string>)
    ensures IsAnswer(files, inventory, changed)
  {
    var written, order := BuildMap(inventory);
    assert files[..0] == [];
    var differing, left := DeleteFound(files, inventory, written);
    if differing.Some? { return Some(files[differing.value].source); }
    assert files[..|files|] == files;
    var k := FirstLeftOver(order, left);
    forall j | 0 <= j < |order| ensures order[j] in left <==> !Lists(files, order[j]) { assert order[j] in written; }
    changed := if k < |order| then Some(order[k]) else None;
  }

  lemma {:induction false} ListsPrefix(files: seq<File>, i: nat, path: string)
    requires i <= |files|
    ensures Lists(files[..i], path) <==> exists j :: 0 <= j < i && files[j].entry.path == path
  {
    if Lists(files[..i], path) {
      var j :| 0 <= j < i && files[..i][j].entry.path == path;
      assert files[j].entry.path == path;
    }
    if j :| 0 <= j < i && files[j].entry.path == path {
      assert files[..i][j].entry.path == path;
    }
  }

  lemma {:induction false} ListsSnoc(files: seq<File>, i: nat, path: string)
    requires i < |files|
    ensures Lists(files[..i + 1], path) <==> Lists(files[..i], path) || path == files[i].entry.path
  {
    ListsPrefix(files, i, path);
    ListsPrefix(files, i + 1, path);
    if path == files[i].entry.path {
      assert files[i].entry.path == path;
    }
  }

  // ---- what "unchanged" means ---------------------------------------------------------------------------

  function Entries(files: seq<File>): seq<Entry> {
    seq(|files|, i requires 0 <= i < |files| => files[i].entry)
  }

  predicate DistinctPaths(entries: seq<Entry>) {
    forall i, j | 0 <= i < j < |entries| :: entries[i].path != entries[j].path
  }

  lemma {:induction false} LastEntryOfDistinct(inventory: seq<Entry>, path: string)
    requires DistinctPaths(inventory)
    ensures forall e: Entry :: LastEntry(inventory, path) == Some(e) <==> e in inventory && e.path == path
    decreases |inventory|
  {
    if inventory != [] {
      var n := |inventory| - 1;
      LastEntryOfDistinct(inventory[..n], path);
      assert inventory[..n] + [inventory[n]] == inventory;
      forall e: Entry ensures LastEntry(inventory, path) == Some(e) <==> e in inventory && e.path == path {
        if e in inventory[..n] && e.path == path {
          var i :| 0 <= i < n && inventory[i] == e;
          assert inventory[i].path != inventory[n].path;
        }
      }
    }
  }

  lemma {:induction false} KeyOrderMembers(inventory: seq<Entry>, path: string)
    ensures path in KeyOrder(inventory) <==> exists e :: e in inventory && e.path == path
    decreases |inventory|
  {
    if inventory != [] {
      var n := |inventory| - 1;
      KeyOrderMembers(inventory[..n], path);
      assert inventory[..n] + [inventory[n]] == inventory;
    }
  }

  lemma {:induction false} HasMember(b: seq<Entry>)
    requires b != []
    ensures exists e :: e in b
  {
    assert b[0] in b;
  }

  /** The same members, no path twice: the one list is the other in some order. */
  lemma {:induction false} SameMembersSameMultiset(a: seq<Entry>, b: seq<Entry>)
    requires DistinctPaths(a) && DistinctPaths(b)
    requires forall e :: e in a <==> e in b
    ensures multiset(a) == multiset(b)
    decreases |a|
  {
    if a == [] {
      if b != [] {
        HasMember(b);
        assert false;
      }
    } else {
      assert a[0] in a;
      var i :| 0 <= i < |b| && b[i] == a[0];
      var rest := b[..i] + b[i + 1..];
      assert b == b[..i] + [b[i]] + b[i + 1..];
      forall e ensures e in a[1..] <==> e in rest { MembersWithout(a, 0, e); MembersWithout(b, i, e); assert a[..0] + a[1..] == a[1..]; }
      SameMembersSameMultiset(a[1..], rest);
      assert a == [a[0]] + a[1..];
    }
  }

  lemma {:induction false} MembersWithout(entries: seq<Entry>, i: nat, e: Entry)
    requires DistinctPaths(entries) && i < |entries|
    ensures e in entries[..i] + entries[i + 1..] <==> e in entries && e != entries[i]
  {
    if e in entries && e != entries[i] {
      var k :| 0 <= k < |entries| && entries[k] == e;
      if k < i { assert entries[..i][k] == e; } else { assert entries[i + 1..][k - i - 1] == e; }
    }
  }

  lemma {:induction false} MultisetMembers(a: seq<Entry>, b: seq<Entry>)
    requires multiset(a) == multiset(b)
    ensures forall e :: e in a <==> e in b
  {
    forall e ensures e in a <==> e in b {
      assert e in a <==> multiset(a)[e] > 0;
      assert e in b <==> multiset(b)[e] > 0;
    }
  }

  lemma {:induction false} DistinctFromMultiset(a: seq<Entry>, b: seq<Entry>)
    requires multiset(a) == multiset(b) && DistinctPaths(b)
    ensures DistinctPaths(a)
  {
    MultisetMembers(a, b);
    forall i, j | 0 <= i < j < |a| ensures a[i].path != a[j].path {
      if a[i].path == a[j].path {
        assert a[i] in a && a[j] in a;
        SamePathSameEntry(b, a[i], a[j]);
        assert a == a[..j] + [a[j]] + a[j + 1..] && a[i] in a[..j];
        OnceInDistinct(b, a[i]);
        assert false;
      }
    }
  }

  lemma {:induction false} SamePathSameEntry(b: seq<Entry>, x: Entry, y: Entry)
    requires DistinctPaths(b) && x in b && y in b && x.path == y.path
    ensures x == y
  {
    var p :| 0 <= p < |b| && b[p] == x;
    var q :| 0 <= q < |b| && b[q] == y;
  }

  lemma {:induction false} OnceInDistinct(b: seq<Entry>, x: Entry)
    requires DistinctPaths(b) && x in b
    ensures multiset(b)[x] == 1
  {
    var p :| 0 <= p < |b| && b[p] == x;
    assert b == b[..p] + [b[p]] + b[p + 1..];
    assert x !in b[..p] && x !in b[p + 1..];
  }

  /**
   * For an inventory that names each path once, the comparison finds nothing exactly when the archive
   * carries the closure's files, each once, and nothing else.
   */
  lemma {:induction false} NothingChangedIff(files: seq<File>, inventory: seq<Entry>, answer: Option<string>)
    requires IsAnswer(files, inventory, answer) && DistinctPaths(inventory)
    ensures answer == None <==> multiset(Entries(files)) == multiset(inventory)
  {
    var entries := Entries(files);
    if answer == None {
      forall i, j | 0 <= i < j < |entries| ensures entries[i].path != entries[j].path {
        assert !Differs(files, inventory, j);
        assert entries[i] == files[i].entry && entries[j] == files[j].entry;
      }
      forall e ensures e in entries <==> e in inventory { MembersAgree(files, inventory, e); }
      SameMembersSameMultiset(entries, inventory);
    }
    if multiset(entries) == multiset(inventory) {
      DistinctFromMultiset(entries, inventory);
      MultisetMembers(entries, inventory);
      forall i: nat | i < |files| ensures !Differs(files, inventory, i) {
        LastEntryOfDistinct(inventory, files[i].entry.path);
        assert entries[i] == files[i].entry && entries[i] in entries;
        forall j | 0 <= j < i ensures files[j].entry.path != files[i].entry.path { assert entries[j].path != entries[i].path; }
      }
      forall k: nat | k < |KeyOrder(inventory)| ensures Lists(files, KeyOrder(inventory)[k]) {
        var path := KeyOrder(inventory)[k];
        KeyOrderMembers(inventory, path);
        var e :| e in inventory && e.path == path;
        assert e in entries;
        var i :| 0 <= i < |entries| && entries[i] == e;
        assert files[i].entry.path == path;
      }
    }
  }

  lemma {:induction false} MembersAgree(files: seq<File>, inventory: seq<Entry>, e: Entry)
    requires IsAnswer(files, inventory, None) && DistinctPaths(inventory)
    ensures e in Entries(files) <==> e in inventory
  {
    var entries := Entries(files);
    LastEntryOfDistinct(inventory, e.path);
    if e in entries {
      var i: nat :| i < |entries| && entries[i] == e;
      assert !Differs(files, inventory, i);
    }
    if e in inventory {
      KeyOrderMembers(inventory, e.path);
      var k: nat :| k < |KeyOrder(inventory)| && KeyOrder(inventory)[k] == e.path;
      assert Lists(files, KeyOrder(inventory)[k]);
      var i: nat :| i < |files| && files[i].entry.path == e.path;
      assert !Differs(files, inventory, i);
      assert entries[i] == files[i].entry;
    }
  }
}
