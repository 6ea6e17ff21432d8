/** The disk-usage report of report_vm_du.py: the sizes of all attached disks summed per
    resource pool (a VM without a pool counts under its own None key), a grand total, and
    the rows sorted by pool or by size. */
module ReportVmDu {
  import opened Wrappers
  import Seqs
  import Strings
  import opened VsphereObjects

  /** sort_order: 0 (by pool) exactly for "resource_pool"; any other value, the default "size"
      included, gives 1 (by size). */
  function SortOrder(sort: string): (order: nat)
    ensures order == 0 <==> sort == "resource_pool"
    ensures order == 0 || order == 1
  {
    if sort == "resource_pool" then 0 else 1
  }

  function SizeOf(disk: Disk): int {
    disk.size
  }

  function PoolOf(vm: Vm): Option<string> {
    vm.resourcePool
  }

  function VmDiskSize(vm: Vm): int {
    Seqs.Sum(vm.disks, SizeOf)
  }

  /** The disk sizes of the VMs whose resource pool is pool, summed. */
  function PoolUsage(vms: seq<Vm>, pool: Option<string>): int {
    Seqs.WeightIn(vms, PoolOf, VmDiskSize, {pool})
  }

  /** The disk sizes of all VMs, summed. */
  function TotalUsage(vms: seq<Vm>): int {
    Seqs.Sum(vms, VmDiskSize)
  }

  /** The pools of the VMs that have at least one disk: the keys the defaultdict receives. */
  function PoolsWithDisks(vms: seq<Vm>): set<Option<string>> {
    set vm | vm in vms && |vm.disks| > 0 :: vm.resourcePool
  }

  lemma PoolsWithDisksStep(vms: seq<Vm>, i: nat)
    requires i < |vms|
    ensures PoolsWithDisks(vms[..i + 1]) ==
              PoolsWithDisks(vms[..i]) + (if |vms[i].disks| > 0 then {vms[i].resourcePool} else {})
  {
    assert vms[..i + 1] == vms[..i] + [vms[i]];
  }

  /** A pool none of whose VMs has a disk has usage 0. */
  lemma {:induction false} PoolUsageOutside(vms: seq<Vm>, pool: Option<string>)
    requires pool !in PoolsWithDisks(vms)
    ensures PoolUsage(vms, pool) == 0
    decreases |vms|
  {
    if vms != [] {
      var n := |vms| - 1;
      assert vms[..n + 1] == vms;
      PoolsWithDisksStep(vms, n);
      PoolUsageOutside(vms[..n], pool);
    }
  }

  /** The nested loops: disk_usage[vm.resourcePool] += disk.size and total += disk.size for
      every disk of every VM. */
  method AggregateUsage(vms: seq<Vm>) returns (usage: map<Option<string>, int>, total: int)
    ensures usage.Keys == PoolsWithDisks(vms)
    ensures forall k :: k in usage ==> usage[k] == PoolUsage(vms, k)
    ensures total == TotalUsage(vms)
  {
    usage, total := map[], 0;
    for i := 0 to |vms|
      invariant usage.Keys == PoolsWithDisks(vms[..i])
      invariant forall k :: k in usage ==> usage[k] == PoolUsage(vms[..i], k)
      invariant total == TotalUsage(vms[..i])
    {
      var vm := vms[i];
      var pool := vm.resourcePool;
      if pool !in usage {
        PoolUsageOutside(vms[..i], pool);
      }
      for j := 0 to |vm.disks|
        invariant usage.Keys == PoolsWithDisks(vms[..i]) + (if j > 0 then {pool} else {})
        invariant forall k :: k in usage ==>
                    usage[k] == PoolUsage(vms[..i], k) + (if k == pool then Seqs.Sum(vm.disks[..j], SizeOf) else 0)
        invariant total == TotalUsage(vms[..i]) + Seqs.Sum(vm.disks[..j], SizeOf)
      {
        Seqs.SumPrefix(vm.disks, SizeOf, j);
        var disk := vm.disks[j];
        var current := if pool in usage then usage[pool] else 0;
        usage := usage[pool := current + disk.size];
        total := total + disk.size;
      }
      assert vm.disks[..|vm.disks|] == vm.disks;
      assert vms[..i + 1][..i] == vms[..i];
      PoolsWithDisksStep(vms, i);
    }
    assert vms[..|vms|] == vms;
  }

  // ----- properties of the totals -----

  /** The test selecting the VMs of one pool. */
  function InPool(pool: Option<string>): Vm -> bool {
    (vm: Vm) => vm.resourcePool == pool
  }

  /** A pool's usage is the total usage of just the VMs in that pool. */
  lemma {:induction false} PoolUsageIsTotalOfPool(vms: seq<Vm>, pool: Option<string>)
    ensures PoolUsage(vms, pool) == TotalUsage(Seqs.Filter(vms, InPool(pool)))
    decreases |vms|
  {
    if vms != [] {
      var n := |vms| - 1;
      PoolUsageIsTotalOfPool(vms[..n], pool);
      var f := Seqs.Filter(vms, InPool(pool));
      var g := Seqs.Filter(vms[..n], InPool(pool));
      if vms[n].resourcePool == pool {
        assert f == g + [vms[n]];
        assert f[..|f| - 1] == g;
      } else {
        assert f == g;
      }
    }
  }

  function Value(n: int): int {
    n
  }

  /** Over any repeat-free enumeration of the pools, the pool values add up to the total. */
  lemma TotalIsSumOfPools(vms: seq<Vm>, usage: map<Option<string>, int>, ks: seq<Option<string>>)
    requires usage.Keys == PoolsWithDisks(vms)
    requires forall k :: k in usage ==> usage[k] == PoolUsage(vms, k)
    requires Seqs.Distinct(ks) && (set k | k in ks) == usage.Keys
    ensures Seqs.SumValues(usage, ks, Value) == TotalUsage(vms)
  {
    var keys := set k | k in ks;
    assert forall i :: 0 <= i < |ks| ==> ks[i] in keys;
    Seqs.SumValuesPerKey(usage, Value, vms, PoolOf, VmDiskSize, ks);
    Seqs.SumPerKeyDistinct(vms, PoolOf, VmDiskSize, ks);
    forall i | 0 <= i < |vms| ensures PoolOf(vms[i]) in keys || VmDiskSize(vms[i]) == 0 {
      if |vms[i].disks| > 0 {
        assert vms[i] in vms;
      }
    }
    Seqs.WeightInCovering(vms, PoolOf, VmDiskSize, keys);
  }

  /** With non-negative disk sizes every pool value lies between 0 and the total. */
  lemma PoolUsageBounds(vms: seq<Vm>, pool: Option<string>)
    requires forall i, j :: 0 <= i < |vms| && 0 <= j < |vms[i].disks| ==> vms[i].disks[j].size >= 0
    ensures 0 <= PoolUsage(vms, pool) <= TotalUsage(vms)
  {
    forall i | 0 <= i < |vms| ensures VmDiskSize(vms[i]) >= 0 {
      Seqs.SumNonNegative(vms[i].disks, SizeOf);
    }
    Seqs.WeightInBounds(vms, PoolOf, VmDiskSize, {pool});
  }

  // ----- the sorted rows -----

  type Row = (Option<string>, int)

  /** Python 2 order of pool keys: None before every name, names lexicographically. */
  predicate KeyLe(a: Option<string>, b: Option<string>) {
    a.None? || (b.Some? && Strings.StrLe(a.value, b.value))
  }

  /** The order sorted() produces: ascending key for sort order 0, descending size otherwise. */
  predicate RowLe(order: nat, x: Row, y: Row) {
    if order == 0 then KeyLe(x.0, y.0) else x.1 >= y.1
  }

  predicate SortedRows(rows: seq<Row>, order: nat) {
    forall i, j :: 0 <= i < j < |rows| ==> RowLe(order, rows[i], rows[j])
  }

  lemma RowLeTotal(order: nat, x: Row, y: Row)
    ensures RowLe(order, x, y) || RowLe(order, y, x)
  {
    if order == 0 && x.0.Some? && y.0.Some? {
      Strings.StrLeTotal(x.0.value, y.0.value);
    }
  }

  lemma RowLeTransitive(order: nat, x: Row, y: Row, z: Row)
    requires RowLe(order, x, y) && RowLe(order, y, z)
    ensures RowLe(order, x, z)
  {
    if order == 0 && x.0.Some? {
      Strings.StrLeTransitive(x.0.value, y.0.value, z.0.value);
    }
  }

  /** rows with x placed before the first row it does not follow. */
  function InsertRow(order: nat, x: Row, rows: seq<Row>): (r: seq<Row>)
    ensures multiset(r) == multiset(rows) + multiset{x}
  {
    if rows == [] || RowLe(order, x, rows[0]) then [x] + rows
    else
      assert rows == [rows[0]] + rows[1..];
      [rows[0]] + InsertRow(order, x, rows[1..])
  }

  lemma {:induction false} InsertRowSorted(order: nat, x: Row, rows: seq<Row>)
    requires SortedRows(rows, order)
    ensures SortedRows(InsertRow(order, x, rows), order)
  {
    if rows != [] {
      if RowLe(order, x, rows[0]) {
        forall j | 0 <= j < |rows| ensures RowLe(order, x, rows[j]) {
          if j > 0 {
            RowLeTransitive(order, x, rows[0], rows[j]);
          }
        }
      } else {
        RowLeTotal(order, x, rows[0]);
        var rest := InsertRow(order, x, rows[1..]);
        InsertRowSorted(order, x, rows[1..]);
        forall j | 0 <= j < |rest| ensures RowLe(order, rows[0], rest[j]) {
          assert rest[j] in multiset(rest);
          if rest[j] != x {
            assert rest[j] in multiset(rows[1..]);
            var k :| 0 <= k < |rows[1..]| && rows[1..][k] == rest[j];
            assert rows[k + 1] == rest[j];
          }
        }
        assert InsertRow(order, x, rows) == [rows[0]] + rest;
      }
    }
  }

  /** sorted(items, key=itemgetter(order), reverse=order != 0): a permutation of the items in
      ascending key order for order 0 and descending size order otherwise. */
  function SortRows(items: seq<Row>, order: nat): (r: seq<Row>)
    ensures multiset(r) == multiset(items)
    ensures SortedRows(r, order)
  {
    if items == [] then []
    else
      assert items == [items[0]] + items[1..];
      var sorted := SortRows(items[1..], order);
      InsertRowSorted(order, items[0], sorted);
      InsertRow(order, items[0], sorted)
  }

  lemma KeyLeReflexive(a: Option<string>)
    ensures KeyLe(a, a)
  {
    if a.Some? {
      Strings.StrLeTotal(a.value, a.value);
    }
  }

  lemma KeyLeAntisymmetric(a: Option<string>, b: Option<string>)
    requires KeyLe(a, b) && KeyLe(b, a)
    ensures a == b
  {
    if a.Some? && b.Some? {
      Strings.StrLeAntisymmetric(a.value, b.value);
    }
  }

  /** No two rows share a pool key. */
  predicate DistinctKeys(rows: seq<Row>) {
    forall i, j :: 0 <= i < j < |rows| ==> rows[i].0 != rows[j].0
  }

  lemma SortedTail(rows: seq<Row>, order: nat)
    requires rows != [] && SortedRows(rows, order)
    ensures SortedRows(rows[1..], order)
  {
    forall i, j | 0 <= i < j < |rows| - 1 ensures RowLe(order, rows[1..][i], rows[1..][j]) {
      assert rows[1..][i] == rows[i + 1] && rows[1..][j] == rows[j + 1];
    }
  }

  lemma DistinctKeysTail(rows: seq<Row>)
    requires rows != [] && DistinctKeys(rows)
    ensures DistinctKeys(rows[1..])
  {
    forall i, j | 0 <= i < j < |rows| - 1 ensures rows[1..][i].0 != rows[1..][j].0 {
      assert rows[1..][i] == rows[i + 1] && rows[1..][j] == rows[j + 1];
    }
  }

  /** Two non-empty permutations of rows with distinct keys, both sorted by pool, start with the same row. */
  lemma SortedByPoolHead(a: seq<Row>, b: seq<Row>)
    requires a != [] && multiset(a) == multiset(b) && DistinctKeys(a)
    requires SortedRows(a, 0) && SortedRows(b, 0)
    ensures b != [] && a[0] == b[0]
  {
    assert a[0] in multiset(b) && |b| == |multiset(b)| > 0;
    assert b[0] in multiset(a);
    var k :| 0 <= k < |b| && b[k] == a[0];
    var m :| 0 <= m < |a| && a[m] == b[0];
    assert KeyLe(b[0].0, a[0].0) by {
      if k > 0 { assert RowLe(0, b[0], b[k]); } else { KeyLeReflexive(a[0].0); }
    }
    assert KeyLe(a[0].0, b[0].0) by {
      if m > 0 { assert RowLe(0, a[0], a[m]); } else { KeyLeReflexive(a[0].0); }
    }
    KeyLeAntisymmetric(a[0].0, b[0].0);
    assert m == 0;
  }

  lemma MultisetTail(a: seq<Row>, b: seq<Row>)
    requires a != [] && b != [] && a[0] == b[0] && multiset(a) == multiset(b)
    ensures multiset(a[1..]) == multiset(b[1..])
  {
    assert a == [a[0]] + a[1..] && b == [b[0]] + b[1..];
    assert multiset(a[1..]) == multiset(a) - multiset{a[0]};
    assert multiset(b[1..]) == multiset(b) - multiset{b[0]};
  }

  /** Two permutations of rows with distinct keys, both sorted by pool, are the same sequence. */
  lemma {:induction false} SortedByPoolUnique(a: seq<Row>, b: seq<Row>)
    requires multiset(a) == multiset(b) && DistinctKeys(a)
    requires SortedRows(a, 0) && SortedRows(b, 0)
    ensures a == b
    decreases |a|
  {
    if a == [] {
      assert |b| == |multiset(b)| == 0;
    } else {
      SortedByPoolHead(a, b);
      MultisetTail(a, b);
      DistinctKeysTail(a);
      SortedTail(a, 0);
      SortedTail(b, 0);
      SortedByPoolUnique(a[1..], b[1..]);
      assert a == [a[0]] + a[1..] && b == [b[0]] + b[1..];
    }
  }

  /** Any permutation of a map's entries has distinct keys. */
  lemma EntriesDistinctKeys(m: map<Option<string>, int>, rows: seq<Row>)
    requires multiset(rows) == multiset(m.Items)
    ensures DistinctKeys(rows)
  {
    forall i, j | 0 <= i < j < |rows| ensures rows[i].0 != rows[j].0 {
      assert rows[i] in multiset(rows) && rows[j] in multiset(rows);
      assert rows == rows[..j] + rows[j..];
      assert rows[i] in multiset(rows[..j]) && rows[j] in multiset(rows[j..]);
    }
  }

  /** Sorted by pool, the report's rows are fully determined by the usage map: the dictionary's
      iteration order cannot change them, because no two entries share a key. */
  lemma SortByPoolDetermined(m: map<Option<string>, int>, items: seq<Row>, items': seq<Row>)
    requires multiset(items) == multiset(m.Items) && multiset(items') == multiset(m.Items)
    ensures SortRows(items, 0) == SortRows(items', 0)
  {
    EntriesDistinctKeys(m, SortRows(items, 0));
    SortedByPoolUnique(SortRows(items, 0), SortRows(items', 0));
  }

  /** disk_usage.items(): every entry once, in the dictionary's unspecified order. */
  method Items(m: map<Option<string>, int>) returns (items: seq<Row>)
    ensures multiset(items) == multiset(m.Items)
  {
    items := [];
    var todo := m.Keys;
    while todo != {}
      invariant todo <= m.Keys
      invariant forall p :: multiset(items)[p] == if p.0 in m && m[p.0] == p.1 && p.0 !in todo then 1 else 0
      decreases |todo|
    {
      var k :| k in todo;
      items := items + [(k, m[k])];
      todo := todo - {k};
    }
    forall p ensures multiset(items)[p] == multiset(m.Items)[p] {
      assert p in m.Items <==> p.0 in m && m[p.0] == p.1;
    }
  }

  /** The whole report: usage per pool, the rows in the requested order, and the total. */
  method ReportDiskUsage(vms: seq<Vm>, sort: string)
    returns (usage: map<Option<string>, int>, rows: seq<Row>, total: int)
    ensures usage.Keys == PoolsWithDisks(vms)
    ensures forall k :: k in usage ==> usage[k] == PoolUsage(vms, k)
    ensures total == TotalUsage(vms)
    ensures multiset(rows) == multiset(usage.Items)
    ensures SortedRows(rows, SortOrder(sort))
  {
    usage, total := AggregateUsage(vms);
    var items := Items(usage);
    rows := SortRows(items, SortOrder(sort));
  }

  // ----- the worked example -----

  function ExampleDisk(path: string, size: int): Disk {
    Disk("Hard disk", "", path, size, "persistent", "thin")
  }

  /** A in pool p1 with disks of 100 and 200, B in p1 with 50, C without a pool with 10. */
  function ExampleVms(): seq<Vm> {
    [Vm("A", "[DS] A/A.vmx", Some("p1"), "poweredOn", None,
        [ExampleDisk("[DS] A/A.vmdk", 100), ExampleDisk("[DS] A/A_1.vmdk", 200)]),
     Vm("B", "[DS] B/B.vmx", Some("p1"), "poweredOn", None, [ExampleDisk("[DS] B/B.vmdk", 50)]),
     Vm("C", "[DS] C/C.vmx", None, "poweredOff", None, [ExampleDisk("[DS] C/C.vmdk", 10)])]
  }

  lemma UsageExample()
    ensures PoolUsage(ExampleVms(), Some("p1")) == 350
    ensures PoolUsage(ExampleVms(), None) == 10
    ensures TotalUsage(ExampleVms()) == 360
  {
    var vms := ExampleVms();
    var a, b, c := vms[0], vms[1], vms[2];
    assert a.disks[..1][..0] == [] && b.disks[..0] == [] && c.disks[..0] == [];
    assert Seqs.Sum(a.disks[..1], SizeOf) == 100;
    assert VmDiskSize(a) == 300;
    assert VmDiskSize(b) == 50;
    assert VmDiskSize(c) == 10;
    assert vms[..2][..1][..0] == [];
    assert vms[..2][..1] == [a];
    assert vms[..2] == [a, b];
    assert Seqs.Sum(vms[..2][..1], VmDiskSize) == 300;
    assert Seqs.Sum(vms[..2], VmDiskSize) == 350;
    assert PoolOf(a) == Some("p1") && PoolOf(b) == Some("p1") && PoolOf(c) == None;
    assert PoolUsage(vms[..2][..1][..0], Some("p1")) == 0;
    assert PoolUsage(vms[..2][..1][..0], None) == 0;
    assert PoolUsage(vms[..2][..1], Some("p1")) == 300;
    assert PoolUsage(vms[..2][..1], None) == 0;
    assert PoolUsage(vms[..2], Some("p1")) == 350;
    assert PoolUsage(vms[..2], None) == 0;
  }

  /** Sorting those two rows by size, in either input order, puts p1 before the absent pool. */
  lemma SortBySizeExample()
    ensures SortRows([(None, 10), (Some("p1"), 350)], 1) == [(Some("p1"), 350), (None, 10)]
    ensures SortRows([(Some("p1"), 350), (None, 10)], 1) == [(Some("p1"), 350), (None, 10)]
  {
  }
}
