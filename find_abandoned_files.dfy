/** The reconciliation in find_abandoned_files.py: drop ignored paths, drop every file some VM
    accounts for, group what is left by folder and count the folders in four buckets. */
module FindAbandonedFiles {
  import opened Wrappers
  import Seqs
  import Strings
  import PosixPath
  import opened VsphereObjects

  // ----- the ignore list -----

  /** parse_ignore_list: the -i values, followed, when the ignore file exists, by each of its
      lines stripped of surrounding whitespace (fileLines is None when the file does not exist). */
  function ParseIgnoreList(cli: seq<string>, fileLines: Option<seq<string>>): (r: seq<string>)
    ensures |r| == |cli| + (if fileLines.Some? then |fileLines.value| else 0)
    ensures r[..|cli|] == cli
    ensures fileLines.Some? ==>
              forall i :: 0 <= i < |fileLines.value| ==> r[|cli| + i] == Strings.Strip(fileLines.value[i])
  {
    cli + (if fileLines.Some? then Seqs.MapSeq(fileLines.value, Strings.Strip) else [])
  }

  /** Some ignore string s has pathTo.find(s) != -1. */
  predicate Ignored(pathTo: string, ignore: seq<string>) {
    exists i :: 0 <= i < |ignore| && Strings.Find(pathTo, ignore[i]) != -1
  }

  function NotIgnored(ignore: seq<string>): DsFile -> bool {
    (f: DsFile) => !Ignored(f.pathTo, ignore)
  }

  /** The "skip certain files" comprehension: the files, in order, whose pathTo contains no ignore string. */
  function IgnoreFilter(files: seq<DsFile>, ignore: seq<string>): (r: seq<DsFile>)
    ensures |r| <= |files|
    ensures forall f :: f in r <==> f in files && !Ignored(f.pathTo, ignore)
  {
    Seqs.Filter(files, NotIgnored(ignore))
  }

  /** The filter keeps exactly the files in whose pathTo no ignore string occurs, in order. */
  lemma IgnoreFilterKeeps(files: seq<DsFile>, ignore: seq<string>, f: DsFile)
    ensures f in IgnoreFilter(files, ignore) <==>
              f in files && forall i, j :: 0 <= i < |ignore| && 0 <= j ==> !Strings.OccursAt(f.pathTo, ignore[i], j)
  {
    if f in files && !Ignored(f.pathTo, ignore) {
      var k :| 0 <= k < |files| && files[k] == f;
      assert NotIgnored(ignore)(files[k]);
    }
  }

  lemma IgnoreFilterOrder(files: seq<DsFile>, ignore: seq<string>)
    ensures Seqs.IsSubsequence(IgnoreFilter(files, ignore), files)
  {
    Seqs.FilterIsSubsequence(files, NotIgnored(ignore));
  }

  /** The empty string occurs in every path, so an empty ignore string removes every file. */
  lemma EmptyIgnoreStringRemovesAll(files: seq<DsFile>, ignore: seq<string>)
    requires "" in ignore
    ensures IgnoreFilter(files, ignore) == []
  {
    var i :| 0 <= i < |ignore| && ignore[i] == "";
    forall k | 0 <= k < |files| ensures !NotIgnored(ignore)(files[k]) {
      assert Strings.OccursAt(files[k].pathTo, ignore[i], 0);
    }
    Seqs.FilterKeepsNone(files, NotIgnored(ignore));
  }

  /** A blank line in the ignore file strips to "", so then every file is ignored. */
  lemma BlankIgnoreLineRemovesAll(files: seq<DsFile>, cli: seq<string>, lines: seq<string>, n: nat)
    requires n < |lines| && forall k :: 0 <= k < |lines[n]| ==> Strings.IsSpace(lines[n][k])
    ensures IgnoreFilter(files, ParseIgnoreList(cli, Some(lines))) == []
  {
    var ignore := ParseIgnoreList(cli, Some(lines));
    Strings.StripBlank(lines[n]);
    assert ignore[|cli| + n] == "";
    EmptyIgnoreStringRemovesAll(files, ignore);
  }

  lemma NoIgnoreStringsKeepsAll(files: seq<DsFile>)
    ensures IgnoreFilter(files, []) == files
  {
    Seqs.FilterKeepsAll(files, NotIgnored([]));
  }

  // ----- the three rules by which a VM accounts for a file -----

  /** The file sits directly in the folder named after the VM, on the file's own datastore. */
  predicate FolderRootRule(vm: Vm, f: DsFile) {
    f.pathTo == "[" + f.datastore + "] " + vm.name + "/"
  }

  /** The file's folder is the first '/'-separated part of the VM's path, plus '/'. */
  predicate DiskLocationRule(vm: Vm, f: DsFile) {
    f.pathTo == Strings.FirstSegment(vm.path) + "/"
  }

  /** os.path.join(pathTo, fileName) is the path of one of the VM's disks. */
  predicate AttachedDiskRule(vm: Vm, f: DsFile) {
    exists k :: 0 <= k < |vm.disks| && PosixPath.Join(f.pathTo, f.fileName) == vm.disks[k].path
  }

  predicate Accounts(vm: Vm, f: DsFile) {
    FolderRootRule(vm, f) || DiskLocationRule(vm, f) || AttachedDiskRule(vm, f)
  }

  function KeptBy(vm: Vm): DsFile -> bool {
    (f: DsFile) => !Accounts(vm, f)
  }

  /** No VM of vms accounts for f. */
  predicate Unaccounted(vms: seq<Vm>, f: DsFile) {
    forall i :: 0 <= i < |vms| ==> !Accounts(vms[i], f)
  }

  function UnaccountedBy(vms: seq<Vm>): DsFile -> bool {
    (f: DsFile) => Unaccounted(vms, f)
  }

  /** The abandoned files: the files, in order, that no VM accounts for. */
  function Abandoned(vms: seq<Vm>, files: seq<DsFile>): seq<DsFile> {
    Seqs.Filter(files, UnaccountedBy(vms))
  }

  /** Narrowing the abandoned files of the first i VMs by VM i gives those of the first i + 1. */
  lemma AbandonedStep(vms: seq<Vm>, i: nat, files: seq<DsFile>)
    requires i < |vms|
    ensures Seqs.Filter(Abandoned(vms[..i], files), KeptBy(vms[i])) == Abandoned(vms[..i + 1], files)
  {
    forall f ensures UnaccountedBy(vms[..i + 1])(f) == (UnaccountedBy(vms[..i])(f) && KeptBy(vms[i])(f)) {
      assert vms[..i + 1] == vms[..i] + [vms[i]];
    }
    Seqs.FilterCompose(files, UnaccountedBy(vms[..i]), KeptBy(vms[i]), UnaccountedBy(vms[..i + 1]));
  }

  /** The loop over the VMs: each pass keeps, in order, the files this VM does not account for. */
  method Reconcile(files: seq<DsFile>, vms: seq<Vm>) returns (remaining: seq<DsFile>)
    ensures remaining == Abandoned(vms, files)
  {
    remaining := files;
    Seqs.FilterKeepsAll(files, UnaccountedBy(vms[..0]));
    for i := 0 to |vms|
      invariant remaining == Abandoned(vms[..i], files)
    {
      var vm := vms[i];
      var newFiles: seq<DsFile> := [];
      for j := 0 to |remaining|
        invariant newFiles == Seqs.Filter(remaining[..j], KeptBy(vm))
      {
        var f := remaining[j];
        assert remaining[..j + 1][..j] == remaining[..j];
        // remove paths starting with the VM name
        if f.pathTo == "[" + f.datastore + "] " + vm.name + "/" {
          continue;
        }
        // remove other references to VM files
        var vmDisksLoc := Strings.FirstSegment(vm.path);
        if f.pathTo == vmDisksLoc + "/" {
          continue;
        }
        // remove attached disks
        if exists k :: 0 <= k < |vm.disks| && PosixPath.Join(f.pathTo, f.fileName) == vm.disks[k].path {
          continue;
        }
        newFiles := newFiles + [f];
      }
      assert remaining[..|remaining|] == remaining;
      AbandonedStep(vms, i, files);
      remaining := newFiles;
    }
    assert vms[..|vms|] == vms;
  }

  // ----- properties of the reconciliation -----

  /** A file is abandoned exactly when it is one of the files and no VM accounts for it. */
  lemma AbandonedIff(vms: seq<Vm>, files: seq<DsFile>, f: DsFile)
    ensures f in Abandoned(vms, files) <==> f in files && forall vm :: vm in vms ==> !Accounts(vm, f)
  {
    if f in files && forall vm :: vm in vms ==> !Accounts(vm, f) {
      var k :| 0 <= k < |files| && files[k] == f;
      assert UnaccountedBy(vms)(files[k]);
    }
  }

  /** Nothing is added and the relative order of the files is kept. */
  lemma AbandonedIsSubsequence(vms: seq<Vm>, files: seq<DsFile>)
    ensures Seqs.IsSubsequence(Abandoned(vms, files), files)
  {
    Seqs.FilterIsSubsequence(files, UnaccountedBy(vms));
  }

  lemma AbandonedNoVms(files: seq<DsFile>)
    ensures Abandoned([], files) == files
  {
    Seqs.FilterKeepsAll(files, UnaccountedBy([]));
  }

  lemma AbandonedNoFiles(vms: seq<Vm>)
    ensures Abandoned(vms, []) == []
  {
  }

  /** The result depends only on which VMs there are, not on the order they are visited in. */
  lemma AbandonedOrderIndependent(vms: seq<Vm>, vms': seq<Vm>, files: seq<DsFile>)
    requires forall vm :: vm in vms <==> vm in vms'
    ensures Abandoned(vms, files) == Abandoned(vms', files)
  {
    forall i | 0 <= i < |files| ensures UnaccountedBy(vms)(files[i]) == UnaccountedBy(vms')(files[i]) {
      var f := files[i];
      if !Unaccounted(vms, f) {
        var k :| 0 <= k < |vms| && Accounts(vms[k], f);
        assert vms[k] in vms';
      }
      if !Unaccounted(vms', f) {
        var k :| 0 <= k < |vms'| && Accounts(vms'[k], f);
        assert vms'[k] in vms;
      }
    }
    Seqs.FilterExt(files, UnaccountedBy(vms), UnaccountedBy(vms'));
  }

  /** Reconciling the result again against the same VMs changes nothing. */
  lemma AbandonedIdempotent(vms: seq<Vm>, files: seq<DsFile>)
    ensures Abandoned(vms, Abandoned(vms, files)) == Abandoned(vms, files)
  {
    Seqs.FilterIdempotent(files, UnaccountedBy(vms));
  }

  /** A VM named X accounts for the folder "[D] X/" on every datastore D. */
  lemma FolderRootOnAnyDatastore(vms: seq<Vm>, files: seq<DsFile>, vm: Vm, f: DsFile)
    requires vm in vms && f.pathTo == "[" + f.datastore + "] " + vm.name + "/"
    ensures f !in Abandoned(vms, files)
  {
    AbandonedIff(vms, files, f);
  }

  /** A file whose joined path is a disk of some VM is never abandoned, wherever it lies. */
  lemma AttachedDiskNeverAbandoned(vms: seq<Vm>, files: seq<DsFile>, vm: Vm, d: Disk, f: DsFile)
    requires vm in vms && d in vm.disks && PosixPath.Join(f.pathTo, f.fileName) == d.path
    ensures f !in Abandoned(vms, files)
  {
    var k :| 0 <= k < |vm.disks| && vm.disks[k] == d;
    assert AttachedDiskRule(vm, f);
    AbandonedIff(vms, files, f);
  }

  /** "[DS1] myvm/" is accounted for by a VM named myvm on DS1. */
  lemma FolderRootExample()
    ensures var f := DsFile("DS1", "[DS1] myvm/", "myvm.vmx", 10);
            Abandoned([Vm("myvm", "[DS1] myvm/myvm.vmx", None, "poweredOn", None, [])], [f]) == []
  {
    var f := DsFile("DS1", "[DS1] myvm/", "myvm.vmx", 10);
    var vm := Vm("myvm", "[DS1] myvm/myvm.vmx", None, "poweredOn", None, []);
    assert [vm][0] == vm && FolderRootRule(vm, f);
    assert !UnaccountedBy([vm])(f);
    Seqs.FilterKeepsNone([f], UnaccountedBy([vm]));
  }

  // ----- grouping by folder -----

  /** The names of the files whose folder is k, in file order. */
  function NamesIn(files: seq<DsFile>, k: string): seq<string>
    decreases |files|
  {
    if files == [] then []
    else
      var last := files[|files| - 1];
      NamesIn(files[..|files| - 1], k) + (if last.pathTo == k then [last.fileName] else [])
  }

  function FolderKeys(files: seq<DsFile>): set<string> {
    set f | f in files :: f.pathTo
  }

  lemma FolderKeysStep(files: seq<DsFile>, i: nat)
    requires i < |files|
    ensures FolderKeys(files[..i + 1]) == FolderKeys(files[..i]) + {files[i].pathTo}
  {
    assert files[..i + 1] == files[..i] + [files[i]];
  }

  /** A folder has names exactly when some file lies in it. */
  lemma {:induction false} NamesInNonEmpty(files: seq<DsFile>, k: string)
    ensures NamesIn(files, k) != [] <==> k in FolderKeys(files)
    decreases |files|
  {
    if files != [] {
      var n := |files| - 1;
      NamesInNonEmpty(files[..n], k);
      assert files[..n + 1] == files;
      FolderKeysStep(files, n);
    }
  }

  /** folders = defaultdict(list); folders[f.pathTo].append(f.fileName) for each file. */
  method GroupByFolder(files: seq<DsFile>) returns (folders: map<string, seq<string>>)
    ensures folders.Keys == FolderKeys(files)
    ensures forall k :: k in folders ==> folders[k] == NamesIn(files, k)
  {
    folders := map[];
    for i := 0 to |files|
      invariant folders.Keys == FolderKeys(files[..i])
      invariant forall k :: k in folders ==> folders[k] == NamesIn(files[..i], k)
    {
      var f := files[i];
      assert files[..i + 1][..i] == files[..i];
      FolderKeysStep(files, i);
      if f.pathTo !in folders {
        NamesInNonEmpty(files[..i], f.pathTo);
      }
      var names := if f.pathTo in folders then folders[f.pathTo] else [];
      folders := folders[f.pathTo := names + [f.fileName]];
    }
    assert files[..|files|] == files;
  }

  function PathOf(f: DsFile): string {
    f.pathTo
  }

  function One(f: DsFile): int {
    1
  }

  function Length(names: seq<string>): int {
    |names|
  }

  lemma {:induction false} NamesInCount(files: seq<DsFile>, k: string)
    ensures |NamesIn(files, k)| == Seqs.WeightIn(files, PathOf, One, {k})
    decreases |files|
  {
    if files != [] {
      NamesInCount(files[..|files| - 1], k);
    }
  }

  lemma {:induction false} SumOfOnes(files: seq<DsFile>)
    ensures Seqs.Sum(files, One) == |files|
    decreases |files|
  {
    if files != [] {
      SumOfOnes(files[..|files| - 1]);
    }
  }

  /** Taking the folders in any order without repeats, the list lengths add up to the number of files. */
  lemma GroupSizesSum(files: seq<DsFile>, folders: map<string, seq<string>>, ks: seq<string>)
    requires folders.Keys == FolderKeys(files)
    requires forall k :: k in folders ==> folders[k] == NamesIn(files, k)
    requires Seqs.Distinct(ks) && (set k | k in ks) == folders.Keys
    ensures Seqs.SumValues(folders, ks, Length) == |files|
  {
    var keys := set k | k in ks;
    forall k | k in folders ensures Length(folders[k]) == Seqs.WeightIn(files, PathOf, One, {k}) {
      NamesInCount(files, k);
    }
    assert forall i :: 0 <= i < |ks| ==> ks[i] in keys;
    Seqs.SumValuesPerKey(folders, Length, files, PathOf, One, ks);
    Seqs.SumPerKeyDistinct(files, PathOf, One, ks);
    forall i | 0 <= i < |files| ensures PathOf(files[i]) in keys {
      assert files[i] in files;
      assert files[i].pathTo in FolderKeys(files);
    }
    Seqs.WeightInCovering(files, PathOf, One, keys);
    SumOfOnes(files);
  }

  // ----- the four buckets -----

  datatype Bucket = EnvPair | OneFile | NoFiles | MoreThanTwo

  predicate InBucket(b: Bucket, names: seq<string>) {
    match b
    case EnvPair => |names| == 2 && "env.iso" in names && "env.json" in names
    case OneFile => |names| == 1
    case NoFiles => |names| == 0
    case MoreThanTwo => |names| > 2
  }

  function BucketMembers(folders: map<string, seq<string>>, b: Bucket): set<string> {
    set k | k in folders && InBucket(b, folders[k])
  }

  /** One of the four counting loops: the folders whose names fall in bucket b, and their number.
      Dictionary order is unspecified, so the loop takes the folders in an arbitrary order. */
  method CountBucket(folders: map<string, seq<string>>, b: Bucket) returns (members: set<string>, count: nat)
    ensures members == BucketMembers(folders, b)
    ensures count == |members|
  {
    members, count := {}, 0;
    var todo := folders.Keys;
    while todo != {}
      invariant todo <= folders.Keys
      invariant forall k :: k in members <==> k in folders && k !in todo && InBucket(b, folders[k])
      invariant count == |members|
      decreases |todo|
    {
      var k :| k in todo;
      if InBucket(b, folders[k]) {
        members, count := members + {k}, count + 1;
      }
      todo := todo - {k};
    }
    assert members == BucketMembers(folders, b);
  }

  datatype BucketCount = BucketCount(members: set<string>, count: nat)

  datatype Classification = Classification(envPair: BucketCount, oneFile: BucketCount,
                                           noFiles: BucketCount, moreThanTwo: BucketCount) {
    function Select(b: Bucket): BucketCount {
      match b
      case EnvPair => envPair
      case OneFile => oneFile
      case NoFiles => noFiles
      case MoreThanTwo => moreThanTwo
    }
  }

  method Classify(folders: map<string, seq<string>>) returns (c: Classification)
    ensures forall b :: c.Select(b).members == BucketMembers(folders, b)
    ensures forall b :: c.Select(b).count == |BucketMembers(folders, b)|
  {
    var m1, n1 := CountBucket(folders, EnvPair);
    var m2, n2 := CountBucket(folders, OneFile);
    var m3, n3 := CountBucket(folders, NoFiles);
    var m4, n4 := CountBucket(folders, MoreThanTwo);
    c := Classification(BucketCount(m1, n1), BucketCount(m2, n2), BucketCount(m3, n3), BucketCount(m4, n4));
  }

  /** No name list falls in two buckets, so no folder is counted twice. */
  lemma BucketsDisjoint(folders: map<string, seq<string>>, b1: Bucket, b2: Bucket)
    requires b1 != b2
    ensures BucketMembers(folders, b1) !! BucketMembers(folders, b2)
  {
  }

  /** A two-name folder is counted only when its names are env.iso and env.json. */
  lemma OtherPairsUncounted(names: seq<string>)
    requires |names| == 2 && !("env.iso" in names && "env.json" in names)
    ensures forall b :: !InBucket(b, names)
  {
  }

  /** After grouping, no folder is empty, so the empty-folder count is always zero. */
  lemma NoEmptyFolders(files: seq<DsFile>, folders: map<string, seq<string>>)
    requires folders.Keys == FolderKeys(files)
    requires forall k :: k in folders ==> folders[k] == NamesIn(files, k)
    ensures BucketMembers(folders, NoFiles) == {}
  {
    forall k | k in folders ensures !InBucket(NoFiles, folders[k]) {
      NamesInNonEmpty(files, k);
    }
  }

  /** The folders F1 = [env.json, env.iso], F2 = [a.vmdk], F3 = [], F4 = [x, y, z]. */
  lemma BucketExample()
    ensures var folders := map["F1" := ["env.json", "env.iso"], "F2" := ["a.vmdk"], "F3" := [], "F4" := ["x", "y", "z"]];
            && BucketMembers(folders, EnvPair) == {"F1"}
            && BucketMembers(folders, OneFile) == {"F2"}
            && BucketMembers(folders, NoFiles) == {"F3"}
            && BucketMembers(folders, MoreThanTwo) == {"F4"}
  {
    var folders := map["F1" := ["env.json", "env.iso"], "F2" := ["a.vmdk"], "F3" := [], "F4" := ["x", "y", "z"]];
    assert "env.iso" in folders["F1"] && "env.json" in folders["F1"];
    assert BucketMembers(folders, EnvPair) == {"F1"};
  }

  // ----- the whole script -----

  /** Ignore filter, reconciliation against all VMs, grouping and the four bucket counts. */
  method FindAbandoned(files: seq<DsFile>, vms: seq<Vm>, ignore: seq<string>)
    returns (remaining: seq<DsFile>, folders: map<string, seq<string>>, c: Classification)
    ensures remaining == Abandoned(vms, IgnoreFilter(files, ignore))
    ensures folders.Keys == FolderKeys(remaining)
    ensures forall k :: k in folders ==> folders[k] == NamesIn(remaining, k)
    ensures forall b :: c.Select(b) == BucketCount(BucketMembers(folders, b), |BucketMembers(folders, b)|)
    ensures c.noFiles == BucketCount({}, 0)
  {
    var kept := IgnoreFilter(files, ignore);
    remaining := Reconcile(kept, vms);
    folders := GroupByFolder(remaining);
    c := Classify(folders);
    NoEmptyFolders(remaining, folders);
    assert c.Select(NoFiles) == c.noFiles;
  }

  /** A file whose path contains an ignore string is never reported, whatever VM owns it. */
  lemma IgnoredNeverAbandoned(files: seq<DsFile>, vms: seq<Vm>, ignore: seq<string>, f: DsFile)
    requires Ignored(f.pathTo, ignore)
    ensures f !in Abandoned(vms, IgnoreFilter(files, ignore))
  {
    AbandonedIff(vms, IgnoreFilter(files, ignore), f);
  }
}
