# vSphere reporting utilities, modelled in Dafny

This project models the core of a small set of vSphere reporting scripts written in Python 2.

- **The object records and their JSON cache** (`vsphere_objects.py`).
  - The `Vm`, `Disk` and `DsFile` records.
  - The object store. It saves lists of VMs and datastore files to a cache and loads them back.
- **The abandoned-file finder** (`find_abandoned_files.py`). It works in stages:
  - It builds the ignore list from `-i` values plus the stripped lines of an ignore file.
  - It drops every datastore file whose folder path contains an ignore string.
  - It removes every file some VM accounts for. A VM accounts for a file in three cases:
    - the file sits in the VM's own folder `[datastore] name/`;
    - the file sits in the first path segment of the VM's `.vmx` path;
    - the file is one of the VM's attached disks.
  - It groups the remaining files by folder.
  - It counts the folders in four buckets:
    - exactly `env.iso` and `env.json`;
    - one file;
    - no file;
    - more than two files.
- **The disk-usage report** (`report_vm_du.py`).
  - It sums the sizes of the attached disks per resource pool. A VM without a pool counts under the key `None`.
  - It sums them into a grand total as well.
  - It sorts the rows by pool name, or by size in descending order.

## Modules

The Dafny modules follow the Python files. Four helper modules hold the Python built-ins the scripts rely on.

| module | file | contents |
|---|---|---|
| `Wrappers` | wrappers.dfy | `Option` and `Result`, failure-compatible |
| `Seqs` | seqs.dfy | generic filter, map, subsequence and weighted sums by key |
| `Strings` | strings.dfy | `str.find`, `str.strip` (ASCII whitespace), `split('/')[0]`, Python's string order |
| `PosixPath` | posix_path.dfy | `os.path.join` on POSIX |
| `VsphereObjects` | vsphere_objects.dfy | records, JSON encoding and decoding, the `ObjectStore` class |
| `FindAbandonedFiles` | find_abandoned_files.dfy | ignore filter, reconciliation loop, grouping, buckets |
| `ReportVmDu` | report_vm_du.dfy | sort order, usage accumulation, sorted rows |

The code's loops are modelled as Dafny methods with loops:

- the reconciliation loop;
- the `defaultdict` grouping;
- the four bucket-counting loops;
- the usage accumulation;
- `dict.items()`;
- the JSON load loops.

Each method is proved against a specification function. The properties are then proved about that function.

The JSON files are modelled as a `Json` value: null, integer, string or array.

- Each record is saved as an array of its fields, in field order.
- A VM's disks are a nested array of disk arrays.
- A missing optional field (`resourcePool`, `ip`) is saved as `null`.

The object store's two cache files are fields of type `Option<Json>`. `None` means the file does not exist.

## Model

| member | source | states |
|---|---|---|
| VsphereObjects.AsStr | vsphere_objects.py:41-43 | a string field decodes only from a JSON string, and to that string |
| VsphereObjects.AsInt | vsphere_objects.py:43 | an integer field (a size) decodes only from a JSON integer, and to that integer |
| VsphereObjects.AsOptStr | vsphere_objects.py:41 | an optional field decodes from `null` or a string, and re-encodes to the same JSON |
| VsphereObjects.DecodeAll | vsphere_objects.py:40-44 | a list decodes when every element decodes, to the element values in order; otherwise the error of some element is reported and every earlier element decoded |
| VsphereObjects.DecodeDisk | vsphere_objects.py:43 | `Disk._make` accepts exactly six fields; on success the disk re-encodes to the input; any other arity is a field-count error |
| VsphereObjects.DecodeDisks | vsphere_objects.py:42-43 | on success the disk list re-encodes to the input array |
| VsphereObjects.DecodeVm | vsphere_objects.py:41-43 | a VM record needs at least six fields (five copied, the sixth holds the disks); on success its first six fields are the VM's encoding; fewer fields is an error |
| VsphereObjects.DecodeFile | vsphere_objects.py:49 | `DsFile._make` accepts exactly four fields; on success the file re-encodes to the input; any other arity is an error |
| VsphereObjects.LoadVmRecord | vsphere_objects.py:41-43 | the disk-appending loop for one VM computes DecodeVm |
| VsphereObjects.LoadVmsFromJson | vsphere_objects.py:38-45 | the loop over the cached VMs computes DecodeVms: all VMs in order, or the first error |
| VsphereObjects.DiskRoundTrip | vsphere_objects.py:12-17 | decoding an encoded disk gives the disk back |
| VsphereObjects.VmRoundTrip | vsphere_objects.py:6-11 | decoding an encoded VM gives the VM back, disks included |
| VsphereObjects.VmsRoundTrip | vsphere_objects.py:31-32 | loading a saved VM list gives the list back |
| VsphereObjects.FilesRoundTrip | vsphere_objects.py:34-35 | loading a saved file list gives the list back |
| VsphereObjects.DecodeFiles | vsphere_objects.py:47-49 | the comprehension over the file cache; a file list that loads re-encodes to exactly the cached JSON |
| VsphereObjects.DecodeVms | vsphere_objects.py:38-45 | the VM list a cache holds; a list that loads has one VM per cached array, in array order, and each VM re-encodes to the first six elements of its array |
| VsphereObjects.StoreRoundTrip | vsphere_objects.py:25-49 | a store without caches reports none; after saving both lists, loading returns them unchanged |
| VsphereObjects.VmExtraFieldsIgnored | vsphere_objects.py:41-42 | fields after the sixth of a VM record are ignored |
| VsphereObjects.ShortVmFailsLoad | vsphere_objects.py:41-42 | one VM record with fewer than six fields makes the whole load fail |
| VsphereObjects.BadDiskFailsLoad | vsphere_objects.py:42-43 | one disk record without exactly six fields makes the whole load fail |
| VsphereObjects.BadFileFailsLoad | vsphere_objects.py:49 | one file record without exactly four fields makes the whole load fail |
| VsphereObjects.ObjectStore.VmsCacheExists | vsphere_objects.py:25-26 | true exactly when the VM cache exists |
| VsphereObjects.ObjectStore.FilesCacheExists | vsphere_objects.py:28-29 | true exactly when the file cache exists |
| VsphereObjects.ObjectStore.SaveVms | vsphere_objects.py:31-32 | the VM cache now holds the encoding of the list; the file cache is unchanged |
| VsphereObjects.ObjectStore.SaveFiles | vsphere_objects.py:34-35 | the file cache now holds the encoding of the list; the VM cache is unchanged |
| VsphereObjects.ObjectStore.LoadVms | vsphere_objects.py:37-45 | a missing cache is an error; otherwise the result is the decoded cache |
| VsphereObjects.ObjectStore.LoadFiles | vsphere_objects.py:47-49 | a missing cache is an error; otherwise the result is the decoded cache |
| Strings.Find | find_abandoned_files.py:67 | `str.find`: -1 exactly when the substring occurs nowhere; otherwise its first position |
| Strings.Strip | find_abandoned_files.py:40 | `str.strip`: the input with leading and trailing whitespace removed; the result neither starts nor ends with whitespace |
| Strings.StripIdempotent | find_abandoned_files.py:40 | stripping twice is stripping once |
| Strings.StripBlank | find_abandoned_files.py:40 | a blank line strips to the empty string |
| Strings.FirstSegment | find_abandoned_files.py:79 | `split('/')[0]`: the longest prefix without '/', followed by '/' or by the end |
| Strings.StrLeTotal | report_vm_du.py:42-44 | Python's string comparison is total |
| Strings.StrLeTransitive | report_vm_du.py:42-44 | Python's string comparison is transitive |
| Strings.StrLeAntisymmetric | report_vm_du.py:42-44 | Python's string comparison is antisymmetric |
| PosixPath.Join | find_abandoned_files.py:83 | `os.path.join`: an absolute second part replaces the first; otherwise the result starts with the first part and ends with the second |
| PosixPath.JoinInjective | find_abandoned_files.py:83-84 | within one folder, different relative names join to different paths |
| PosixPath.JoinFolder | find_abandoned_files.py:83 | a folder ending in '/' joins by plain concatenation |
| FindAbandonedFiles.ParseIgnoreList | find_abandoned_files.py:32-40 | the ignore list is the `-i` values followed, when the file exists, by each of its lines stripped, one per line |
| FindAbandonedFiles.IgnoreFilter | find_abandoned_files.py:66-67 | the "skip certain files" comprehension: a file is in the result exactly when it is an input file and its folder path contains no ignore string |
| FindAbandonedFiles.IgnoreFilterKeeps | find_abandoned_files.py:66-67 | a file survives the filter exactly when it is an input file and no ignore string occurs anywhere in its folder path |
| FindAbandonedFiles.IgnoreFilterOrder | find_abandoned_files.py:66-67 | the filter only removes files and keeps their order |
| FindAbandonedFiles.EmptyIgnoreStringRemovesAll | find_abandoned_files.py:67 | an empty ignore string removes every file |
| FindAbandonedFiles.BlankIgnoreLineRemovesAll | find_abandoned_files.py:40 | a blank line in the ignore file removes every file |
| FindAbandonedFiles.NoIgnoreStringsKeepsAll | find_abandoned_files.py:66-67 | with no ignore strings every file is kept |
| FindAbandonedFiles.AbandonedStep | find_abandoned_files.py:72-87 | one pass of the VM loop narrows the previous VMs' remainder to the remainder for one more VM |
| FindAbandonedFiles.Reconcile | find_abandoned_files.py:72-87 | the nested loops leave exactly the files, in order, that no VM accounts for by any of its three rules |
| FindAbandonedFiles.AbandonedIff | find_abandoned_files.py:72-87 | a file remains exactly when it was an input file and no VM accounts for it |
| FindAbandonedFiles.AbandonedIsSubsequence | find_abandoned_files.py:72-87 | reconciliation only removes files and keeps their order |
| FindAbandonedFiles.AbandonedNoVms | find_abandoned_files.py:72 | with no VMs every file remains |
| FindAbandonedFiles.AbandonedNoFiles | find_abandoned_files.py:72-87 | with no files nothing remains |
| FindAbandonedFiles.AbandonedOrderIndependent | find_abandoned_files.py:72-87 | the order in which VMs are visited does not change the result |
| FindAbandonedFiles.AbandonedIdempotent | find_abandoned_files.py:72-87 | reconciling the remainder again against the same VMs changes nothing |
| FindAbandonedFiles.FolderRootOnAnyDatastore | find_abandoned_files.py:76-77 | the folder `[D] X/` is accounted for by a VM named X on every datastore D |
| FindAbandonedFiles.AttachedDiskNeverAbandoned | find_abandoned_files.py:82-85 | a file whose joined path is a disk of some VM never remains |
| FindAbandonedFiles.FolderRootExample | find_abandoned_files.py:76-77 | `[DS1] myvm/` is removed by a VM named myvm |
| FindAbandonedFiles.NamesInNonEmpty | find_abandoned_files.py:92-94 | a folder has names exactly when some remaining file lies in it |
| FindAbandonedFiles.GroupByFolder | find_abandoned_files.py:92-94 | the keys are the folders of the remaining files; each value lists that folder's file names in file order |
| FindAbandonedFiles.GroupSizesSum | find_abandoned_files.py:92-94 | over the folders in any order without repeats, the list lengths add up to the number of remaining files |
| FindAbandonedFiles.CountBucket | find_abandoned_files.py:98-127 | any one counting loop visits the folders in any order; it picks out exactly the folders of its bucket and counts them |
| FindAbandonedFiles.Classify | find_abandoned_files.py:96-127 | the four counts are the sizes of the four bucket sets |
| FindAbandonedFiles.BucketsDisjoint | find_abandoned_files.py:98-127 | no folder is counted in two buckets |
| FindAbandonedFiles.OtherPairsUncounted | find_abandoned_files.py:98-127 | a two-file folder that is not env.iso and env.json is in no bucket |
| FindAbandonedFiles.NoEmptyFolders | find_abandoned_files.py:114-119 | grouping never makes an empty folder, so the empty-folder count is always 0 |
| FindAbandonedFiles.BucketExample | find_abandoned_files.py:98-127 | four example folders land in one bucket each |
| FindAbandonedFiles.FindAbandoned | find_abandoned_files.py:66-127 | the whole pipeline: ignore filter, reconciliation, grouping, the four counts, and an empty-folder count of zero |
| FindAbandonedFiles.IgnoredNeverAbandoned | find_abandoned_files.py:66-67 | a file whose path contains an ignore string is never reported, whatever VM owns it |
| ReportVmDu.SortOrder | report_vm_du.py:22-27 | 0 (by pool) exactly for `resource_pool`; 1 (by size) for anything else |
| ReportVmDu.PoolUsageOutside | report_vm_du.py:34-38 | a pool none of whose VMs has a disk has usage 0 |
| ReportVmDu.AggregateUsage | report_vm_du.py:34-39 | the keys are the pools of the VMs that have disks; each value is that pool's disk total; `total` is the sum of all disk sizes |
| ReportVmDu.PoolUsageIsTotalOfPool | report_vm_du.py:37-38 | a pool's value is the total of just the VMs in that pool |
| ReportVmDu.TotalIsSumOfPools | report_vm_du.py:34-39 | over the pools in any order without repeats, the pool values add up to the total |
| ReportVmDu.PoolUsageBounds | report_vm_du.py:34-39 | with non-negative sizes, each pool value lies between 0 and the total |
| ReportVmDu.RowLeTotal | report_vm_du.py:42-44 | the row order compares any two rows |
| ReportVmDu.RowLeTransitive | report_vm_du.py:42-44 | the row order is transitive |
| ReportVmDu.InsertRow | report_vm_du.py:42-44 | insertion adds exactly the one row |
| ReportVmDu.InsertRowSorted | report_vm_du.py:42-44 | inserting into sorted rows keeps them sorted |
| ReportVmDu.SortRows | report_vm_du.py:42-44 | `sorted(..., key=itemgetter(order), reverse=order != 0)`: a permutation of the rows, ascending by pool (`None` first) for order 0 and descending by size otherwise |
| ReportVmDu.SortedByPoolUnique | report_vm_du.py:42-44 | two permutations of rows with distinct pool keys, both sorted by pool, are equal |
| ReportVmDu.EntriesDistinctKeys | report_vm_du.py:42 | the entries of `disk_usage.items()`, in any order, never share a pool key |
| ReportVmDu.SortByPoolDetermined | report_vm_du.py:42-44 | sorted by pool, the rows are the same whatever order `items()` yields the entries in |
| ReportVmDu.Items | report_vm_du.py:42 | `dict.items()`: every entry exactly once, in unspecified order |
| ReportVmDu.ReportDiskUsage | report_vm_du.py:27-47 | the report's rows are exactly the pool entries, each once, sorted as requested; the total is the sum of all disk sizes |
| ReportVmDu.UsageExample | report_vm_du.py:34-39 | VMs in pool p1 with disks 100, 200 and 50, and a pool-less VM with 10, give p1 = 350, None = 10, total 360 |
| ReportVmDu.SortBySizeExample | report_vm_du.py:42-44 | sorted by size, p1 (350) comes before None (10) whatever the input order |

## Left out

- `vsphere_api.py`: the vCenter connection, the paged searches, the worker threads and the queues. Its results, the VM list and the file list, are inputs to the model.
- `cli_helper.py`, `utils.py` and `setup.py`: argument parsing, password prompting and packaging.
- File I/O: `os.path.exists`, `open`, `readlines`, `json.dump` and `json.load` become values.
  - The ignore file's lines are an `Option<seq<string>>`.
  - The caches are `Option<Json>` fields.
  - The printed warning for a missing ignore file is not modelled.
- Printing: the console output is not modelled. This covers the progress messages, the folder listings, and the `hurry.filesize` size formatting.
- `VsphereObjects.DecodeVm`: it is stricter than Python's duck typing. Each of elements 0 to 4 must have its field's JSON kind (a string, or null or a string for `resourcePool` and `ip`), while `Vm._make` accepts any JSON value there. Element 5 must be an array; the cases where Python accepts something else are listed under `DecodeDisks`.
- `VsphereObjects.DecodeDisks`: it rejects a string in place of the disk list. Python's `for disk in vm[5]` runs zero times over `""`, so that VM loads with no disks. Over a non-empty string `Disk._make` fails at the first character, which the model's error matches.
- `VsphereObjects.DecodeDisk`: it rejects a six-element array holding a field of the wrong JSON kind (say a null or string size), which `Disk._make` accepts. It also rejects a six-character string, from which `Disk._make` builds a disk with one character per field.
- `VsphereObjects.DecodeFile`: it rejects a four-element array holding a field of the wrong JSON kind (say a null size), which `DsFile._make` accepts. It also rejects a four-character string, from which `DsFile._make` builds a file.
- `VsphereObjects.DecodeVms`: it rejects a cache holding the string `""`, over which Python's loop runs zero times and returns `[]`.
- `VsphereObjects.DecodeFiles`: it rejects a cache holding the string `""`, over which Python's comprehension returns `[]`.
- JSON objects (dicts) are not part of the `Json` model. Python iterates over a dict's keys wherever the code iterates a list.
- Strings are modelled as sequences of code points. Python 2 mixes byte strings and `unicode` (what `json.load` returns), and its coercion errors are not modelled:
  - `'[{}] {}/'.format(f.datastore, vm.name)` at `find_abandoned_files.py:76` and `'{}/'.format(vmDisksLoc)` at `find_abandoned_files.py:80` raise `UnicodeEncodeError` for a non-ASCII unicode name, which aborts the script;
  - `f.pathTo.find(s)` at `find_abandoned_files.py:67` raises `UnicodeDecodeError` when `pathTo` is unicode and an ignore string holds non-ASCII bytes.
  The model returns a normal result on these inputs.
- `Strings.Strip`: it removes only the six ASCII whitespace characters Python 2's `str.strip` removes. Unicode whitespace is not modelled.
- `ReportVmDu.SortRows`: only the sort order itself is stated for rows of equal size. Which of them comes first depends on the dictionary's iteration order, which the model leaves unspecified. The code applies no tie-break by pool name, and neither does the model. This gap concerns the size order only: sorted by pool the rows are fully determined (`ReportVmDu.SortByPoolDetermined`).
- `FindAbandonedFiles.CountBucket`: it leaves out the printed folder lists. The count and the set of counted folders are modelled; the printing order is not.
- The persistent-disk folders mentioned in the TODO at `find_abandoned_files.py:129-131` are not handled by the code, and not by the model either.
- `vsphere_api.py:115` calls `load_list_of_files_from_json()` without the unused `fileName` parameter that `vsphere_objects.py:47` declares. In Python that call raises a `TypeError`. The model's `LoadFiles` takes no such parameter.
- Disks and VMs are compared by their field values; Python namedtuples compare the same way. Object identity is not modelled.
