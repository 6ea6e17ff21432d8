/** The inventory records (Vm, Disk, DsFile) and the JSON cache that stores them.
    json.dump writes each record as a positional array; the loaders rebuild the records
    from those arrays. JSON values are modelled as trees; reading and writing the files is not. */
module VsphereObjects {
  import opened Wrappers
  import Seqs

  /** A disk attached to a VM: six positional fields. */
  datatype Disk = Disk(deviceLabel: string, summary: string, path: string, size: int, mode: string, diskType: string)

  /** A virtual machine: six positional fields, the last being its attached disks in order. */
  datatype Vm = Vm(name: string, path: string, resourcePool: Option<string>, state: string,
                   ip: Option<string>, disks: seq<Disk>)

  /** A file found on a datastore: four positional fields. */
  datatype DsFile = DsFile(datastore: string, pathTo: string, fileName: string, size: int)

  /** The JSON values the cache files hold. */
  datatype Json = JNull | JInt(n: int) | JStr(s: string) | JArr(elems: seq<Json>)

  datatype Record = VmRecord | DiskRecord | FileRecord

  /** Why loading a cache fails. */
  datatype LoadError =
    | CacheMissing                              // the cache file does not exist
    | NotAnArray                                // a value that must be a JSON array is not one
    | TooFewFields(record: Record, got: nat)    // a VM array shorter than six elements
    | WrongFieldCount(record: Record, got: nat) // a disk array not of six elements, a file array not of four
    | WrongFieldType(record: Record, index: nat) // a field holds a JSON value of the wrong kind

  // ----- encoding: what json.dump writes for the records -----

  function EncodeOptStr(o: Option<string>): Json {
    match o
    case None => JNull
    case Some(s) => JStr(s)
  }

  function EncodeDisk(d: Disk): Json {
    JArr([JStr(d.deviceLabel), JStr(d.summary), JStr(d.path), JInt(d.size), JStr(d.mode), JStr(d.diskType)])
  }

  function EncodeVm(vm: Vm): Json {
    JArr([JStr(vm.name), JStr(vm.path), EncodeOptStr(vm.resourcePool), JStr(vm.state),
          EncodeOptStr(vm.ip), JArr(Seqs.MapSeq(vm.disks, EncodeDisk))])
  }

  function EncodeFile(f: DsFile): Json {
    JArr([JStr(f.datastore), JStr(f.pathTo), JStr(f.fileName), JInt(f.size)])
  }

  /** save_list_of_vms_to_json: the list of VMs as an array of VM arrays. */
  function EncodeVms(vms: seq<Vm>): Json {
    JArr(Seqs.MapSeq(vms, EncodeVm))
  }

  /** save_list_of_files_to_json: the list of files as an array of file arrays. */
  function EncodeFiles(files: seq<DsFile>): Json {
    JArr(Seqs.MapSeq(files, EncodeFile))
  }

  // ----- decoding -----

  function AsStr(j: Json, record: Record, index: nat): (r: Result<string, LoadError>)
    ensures r.Ok? ==> j == JStr(r.value)
  {
    if j.JStr? then Ok(j.s) else Err(WrongFieldType(record, index))
  }

  function AsInt(j: Json, record: Record, index: nat): (r: Result<int, LoadError>)
    ensures r.Ok? ==> j == JInt(r.value)
  {
    if j.JInt? then Ok(j.n) else Err(WrongFieldType(record, index))
  }

  /** A nullable string field: null is None. */
  function AsOptStr(j: Json, record: Record, index: nat): (r: Result<Option<string>, LoadError>)
    ensures r.Ok? ==> j == EncodeOptStr(r.value)
  {
    match j
    case JNull => Ok(None)
    case JStr(s) => Ok(Some(s))
    case _ => Err(WrongFieldType(record, index))
  }

  /** Decodes every element in order; the first element that fails makes the whole list fail,
      as the exception raised inside the loop or comprehension does. */
  function DecodeAll<T>(es: seq<Json>, dec: Json -> Result<T, LoadError>): (r: Result<seq<T>, LoadError>)
    ensures r.Ok? ==> |r.value| == |es| && forall i :: 0 <= i < |es| ==> dec(es[i]) == Ok(r.value[i])
    ensures r.Err? ==> exists i :: 0 <= i < |es| && dec(es[i]) == Err(r.error)
                                   && forall k :: 0 <= k < i ==> dec(es[k]).Ok?
    decreases |es|
  {
    if es == [] then Ok([])
    else
      var init :- DecodeAll(es[..|es| - 1], dec);
      var last :- dec(es[|es| - 1]);
      Ok(init + [last])
  }

  /** Disk._make(disk): exactly six elements. */
  function DecodeDisk(j: Json): (r: Result<Disk, LoadError>)
    ensures r.Ok? ==> EncodeDisk(r.value) == j
    ensures j.JArr? && |j.elems| != 6 ==> r == Err(WrongFieldCount(DiskRecord, |j.elems|))
  {
    match j
    case JArr(e) =>
      if |e| != 6 then Err(WrongFieldCount(DiskRecord, |e|))
      else
        var deviceLabel :- AsStr(e[0], DiskRecord, 0);
        var summary :- AsStr(e[1], DiskRecord, 1);
        var path :- AsStr(e[2], DiskRecord, 2);
        var size :- AsInt(e[3], DiskRecord, 3);
        var mode :- AsStr(e[4], DiskRecord, 4);
        var diskType :- AsStr(e[5], DiskRecord, 5);
        assert e == [e[0], e[1], e[2], e[3], e[4], e[5]];
        Ok(Disk(deviceLabel, summary, path, size, mode, diskType))
    case _ => Err(NotAnArray)
  }

  /** `for disk in vm[5]`: element 5 of a VM array, one Disk per inner array, in order. */
  function DecodeDisks(j: Json): (r: Result<seq<Disk>, LoadError>)
    ensures r.Ok? ==> j == JArr(Seqs.MapSeq(r.value, EncodeDisk))
  {
    match j
    case JArr(e) =>
      var disks :- DecodeAll(e, DecodeDisk);
      assert e == Seqs.MapSeq(disks, EncodeDisk);
      Ok(disks)
    case _ => Err(NotAnArray)
  }

  /** Vm._make(vm[0:5] + [[]]) and then the disks of vm[5]: elements 0 to 4 are name to ip,
      element 5 holds the disks, and anything after element 5 is ignored. */
  function DecodeVm(j: Json): (r: Result<Vm, LoadError>)
    ensures r.Ok? ==> j.JArr? && |j.elems| >= 6 && EncodeVm(r.value) == JArr(j.elems[..6])
    ensures j.JArr? && |j.elems| < 6 ==> r == Err(TooFewFields(VmRecord, |j.elems|))
  {
    match j
    case JArr(e) =>
      if |e| < 6 then Err(TooFewFields(VmRecord, |e|))
      else
        var name :- AsStr(e[0], VmRecord, 0);
        var path :- AsStr(e[1], VmRecord, 1);
        var pool :- AsOptStr(e[2], VmRecord, 2);
        var state :- AsStr(e[3], VmRecord, 3);
        var ip :- AsOptStr(e[4], VmRecord, 4);
        var disks :- DecodeDisks(e[5]);
        var vm := Vm(name, path, pool, state, ip, disks);
        assert EncodeVm(vm) == JArr(e[..6]);
        Ok(vm)
    case _ => Err(NotAnArray)
  }

  /** DsFile._make(f): exactly four elements. */
  function DecodeFile(j: Json): (r: Result<DsFile, LoadError>)
    ensures r.Ok? ==> EncodeFile(r.value) == j
    ensures j.JArr? && |j.elems| != 4 ==> r == Err(WrongFieldCount(FileRecord, |j.elems|))
  {
    match j
    case JArr(e) =>
      if |e| != 4 then Err(WrongFieldCount(FileRecord, |e|))
      else
        var datastore :- AsStr(e[0], FileRecord, 0);
        var pathTo :- AsStr(e[1], FileRecord, 1);
        var fileName :- AsStr(e[2], FileRecord, 2);
        var size :- AsInt(e[3], FileRecord, 3);
        assert e == [e[0], e[1], e[2], e[3]];
        Ok(DsFile(datastore, pathTo, fileName, size))
    case _ => Err(NotAnArray)
  }

  /** The VM list a cache holds. A list that loads has one VM per cached array, in array order,
      and each VM is the encoding of the first six elements of its array. */
  function DecodeVms(j: Json): (r: Result<seq<Vm>, LoadError>)
    ensures r.Ok? ==> j.JArr? && |r.value| == |j.elems|
    ensures r.Ok? ==> forall i :: 0 <= i < |r.value| ==>
              j.elems[i].JArr? && |j.elems[i].elems| >= 6 && EncodeVm(r.value[i]) == JArr(j.elems[i].elems[..6])
  {
    match j
    case JArr(e) => DecodeAll(e, DecodeVm)
    case _ => Err(NotAnArray)
  }

  /** load_list_of_files_from_json: [DsFile._make(f) for f in files_json]. A list that loads
      is exactly what the cache holds, re-encoded. */
  function DecodeFiles(j: Json): (r: Result<seq<DsFile>, LoadError>)
    ensures r.Ok? ==> EncodeFiles(r.value) == j
  {
    match j
    case JArr(e) =>
      var files :- DecodeAll(e, DecodeFile);
      assert e == Seqs.MapSeq(files, EncodeFile);
      Ok(files)
    case _ => Err(NotAnArray)
  }

  // ----- the loader loop -----

  /** Once a prefix of the array fails, the whole array fails with the same error. */
  lemma {:induction false} DecodeAllPrefixErr<T>(es: seq<Json>, dec: Json -> Result<T, LoadError>, n: nat)
    requires n <= |es| && DecodeAll(es[..n], dec).Err?
    ensures DecodeAll(es, dec) == DecodeAll(es[..n], dec)
    decreases |es|
  {
    if n < |es| {
      var init := es[..|es| - 1];
      assert init[..n] == es[..n];
      DecodeAllPrefixErr(init, dec, n);
    } else {
      assert es[..n] == es;
    }
  }

  /** The body of the loader loop for one element: Vm._make(vm[0:5] + [[]]), then one Disk
      appended to vm_rec.disks for each inner array of vm[5]. */
  method LoadVmRecord(vm: Json) returns (r: Result<Vm, LoadError>)
    ensures r == DecodeVm(vm)
  {
    if !vm.JArr? {
      return Err(NotAnArray);
    }
    if |vm.elems| < 6 {
      return Err(TooFewFields(VmRecord, |vm.elems|));
    }
    var e := vm.elems;
    var name :- AsStr(e[0], VmRecord, 0);
    var path :- AsStr(e[1], VmRecord, 1);
    var pool :- AsOptStr(e[2], VmRecord, 2);
    var state :- AsStr(e[3], VmRecord, 3);
    var ip :- AsOptStr(e[4], VmRecord, 4);
    if !e[5].JArr? {
      return Err(NotAnArray);
    }
    var ds := e[5].elems;
    var disks: seq<Disk> := [];
    var k := 0;
    while k < |ds|
      invariant 0 <= k <= |ds|
      invariant DecodeAll(ds[..k], DecodeDisk) == Ok(disks)
    {
      assert ds[..k + 1][..k] == ds[..k];
      var d := DecodeDisk(ds[k]);
      if d.Err? {
        DecodeAllPrefixErr(ds, DecodeDisk, k + 1);
        return Err(d.error);
      }
      disks := disks + [d.value];
      k := k + 1;
    }
    assert ds[..k] == ds;
    r := Ok(Vm(name, path, pool, state, ip, disks));
  }

  /** load_list_of_vms_from_json on the parsed content of vms.json. */
  method LoadVmsFromJson(cache: Json) returns (r: Result<seq<Vm>, LoadError>)
    ensures r == DecodeVms(cache)
  {
    if !cache.JArr? {
      return Err(NotAnArray);
    }
    var es := cache.elems;
    var vms: seq<Vm> := [];
    var i := 0;
    while i < |es|
      invariant 0 <= i <= |es|
      invariant DecodeAll(es[..i], DecodeVm) == Ok(vms)
    {
      assert es[..i + 1][..i] == es[..i];
      var vm := LoadVmRecord(es[i]);
      if vm.Err? {
        DecodeAllPrefixErr(es, DecodeVm, i + 1);
        return Err(vm.error);
      }
      vms := vms + [vm.value];
      i := i + 1;
    }
    assert es[..i] == es;
    r := Ok(vms);
  }

  // ----- properties of the cache format -----

  /** Decoding the encodings of a list, element by element, gives back the list. */
  lemma {:induction false} DecodeAllMapped<T>(xs: seq<T>, enc: T -> Json, dec: Json -> Result<T, LoadError>)
    requires forall i :: 0 <= i < |xs| ==> dec(enc(xs[i])) == Ok(xs[i])
    ensures DecodeAll(Seqs.MapSeq(xs, enc), dec) == Ok(xs)
    decreases |xs|
  {
    if xs != [] {
      var init := xs[..|xs| - 1];
      DecodeAllMapped(init, enc, dec);
      var es := Seqs.MapSeq(xs, enc);
      assert es[..|es| - 1] == Seqs.MapSeq(init, enc);
      assert xs == init + [xs[|xs| - 1]];
    }
  }

  lemma DiskRoundTrip(d: Disk)
    ensures DecodeDisk(EncodeDisk(d)) == Ok(d)
  {
  }

  lemma DisksRoundTrip(disks: seq<Disk>)
    ensures DecodeDisks(JArr(Seqs.MapSeq(disks, EncodeDisk))) == Ok(disks)
  {
    forall i | 0 <= i < |disks| ensures DecodeDisk(EncodeDisk(disks[i])) == Ok(disks[i]) {
      DiskRoundTrip(disks[i]);
    }
    DecodeAllMapped(disks, EncodeDisk, DecodeDisk);
  }

  lemma OptStrRoundTrip(o: Option<string>, record: Record, index: nat)
    ensures AsOptStr(EncodeOptStr(o), record, index) == Ok(o)
  {
  }

  lemma VmRoundTrip(vm: Vm)
    ensures DecodeVm(EncodeVm(vm)) == Ok(vm)
  {
    var e := EncodeVm(vm).elems;
    DisksRoundTrip(vm.disks);
    OptStrRoundTrip(vm.resourcePool, VmRecord, 2);
    OptStrRoundTrip(vm.ip, VmRecord, 4);
    assert DecodeDisks(e[5]) == Ok(vm.disks);
  }

  /** Loading what save_list_of_vms_to_json wrote gives back the same VMs, disks included. */
  lemma {:induction false} VmsRoundTrip(vms: seq<Vm>)
    ensures DecodeVms(EncodeVms(vms)) == Ok(vms)
  {
    forall i | 0 <= i < |vms| ensures DecodeVm(EncodeVm(vms[i])) == Ok(vms[i]) {
      VmRoundTrip(vms[i]);
    }
    DecodeAllMapped(vms, EncodeVm, DecodeVm);
  }

  /** Loading what save_list_of_files_to_json wrote gives back the same files. */
  lemma {:induction false} FilesRoundTrip(files: seq<DsFile>)
    ensures DecodeFiles(EncodeFiles(files)) == Ok(files)
  {
    DecodeAllMapped(files, EncodeFile, DecodeFile);
  }

  /** Elements after the sixth of a VM array are ignored. */
  lemma VmExtraFieldsIgnored(e: seq<Json>, extra: seq<Json>)
    requires |e| == 6
    ensures DecodeVm(JArr(e + extra)) == DecodeVm(JArr(e))
  {
    assert (e + extra)[..6] == e;
    assert forall i :: 0 <= i < 6 ==> (e + extra)[i] == e[i];
  }

  /** One VM array that is too short makes the whole VM cache fail to load. */
  lemma ShortVmFailsLoad(es: seq<Json>, i: nat)
    requires i < |es| && es[i].JArr? && |es[i].elems| < 6
    ensures DecodeVms(JArr(es)).Err?
  {
    assert DecodeVm(es[i]).Err?;
  }

  /** One disk array of the wrong length makes its VM, and so the VM cache, fail to load. */
  lemma BadDiskFailsLoad(es: seq<Json>, i: nat, k: nat)
    requires i < |es| && es[i].JArr? && |es[i].elems| >= 6
    requires es[i].elems[5].JArr? && k < |es[i].elems[5].elems|
    requires es[i].elems[5].elems[k].JArr? && |es[i].elems[5].elems[k].elems| != 6
    ensures DecodeVms(JArr(es)).Err?
  {
    var ds := es[i].elems[5].elems;
    assert DecodeDisk(ds[k]).Err?;
    assert DecodeDisks(es[i].elems[5]).Err?;
    assert DecodeVm(es[i]).Err?;
  }

  /** One file array not of four elements makes the file cache fail to load. */
  lemma BadFileFailsLoad(es: seq<Json>, i: nat)
    requires i < |es| && es[i].JArr? && |es[i].elems| != 4
    ensures DecodeFiles(JArr(es)).Err?
  {
    assert DecodeFile(es[i]).Err?;
  }

  // ----- the cache store -----

  /** VSphereObjectStore: the two cache files, each present with its parsed JSON or absent. */
  class ObjectStore {
    var vmsCache: Option<Json>
    var filesCache: Option<Json>

    constructor (vmsCache: Option<Json>, filesCache: Option<Json>)
      ensures this.vmsCache == vmsCache && this.filesCache == filesCache
    {
      this.vmsCache := vmsCache;
      this.filesCache := filesCache;
    }

    method VmsCacheExists() returns (b: bool)
      ensures b <==> vmsCache.Some?
    {
      b := vmsCache.Some?;
    }

    method FilesCacheExists() returns (b: bool)
      ensures b <==> filesCache.Some?
    {
      b := filesCache.Some?;
    }

    /** Overwrites vms.json; files.json is untouched. */
    method SaveVms(vms: seq<Vm>)
      modifies this`vmsCache
      ensures vmsCache == Some(EncodeVms(vms))
    {
      vmsCache := Some(EncodeVms(vms));
    }

    /** Overwrites files.json; vms.json is untouched. */
    method SaveFiles(files: seq<DsFile>)
      modifies this`filesCache
      ensures filesCache == Some(EncodeFiles(files))
    {
      filesCache := Some(EncodeFiles(files));
    }

    method LoadVms() returns (r: Result<seq<Vm>, LoadError>)
      ensures vmsCache.None? ==> r == Err(CacheMissing)
      ensures vmsCache.Some? ==> r == DecodeVms(vmsCache.value)
    {
      if vmsCache.None? {
        return Err(CacheMissing);
      }
      r := LoadVmsFromJson(vmsCache.value);
    }

    method LoadFiles() returns (r: Result<seq<DsFile>, LoadError>)
      ensures filesCache.None? ==> r == Err(CacheMissing)
      ensures filesCache.Some? ==> r == DecodeFiles(filesCache.value)
    {
      if filesCache.None? {
        return Err(CacheMissing);
      }
      r := DecodeFiles(filesCache.value);
    }
  }

  /** A fresh store has neither cache; saving both lists and loading them back returns what was saved. */
  method StoreRoundTrip(vms: seq<Vm>, files: seq<DsFile>)
    returns (vmsBefore: bool, filesBefore: bool, v: Result<seq<Vm>, LoadError>, f: Result<seq<DsFile>, LoadError>)
    ensures !vmsBefore && !filesBefore
    ensures v == Ok(vms) && f == Ok(files)
  {
    var store := new ObjectStore(None, None);
    vmsBefore := store.VmsCacheExists();
    filesBefore := store.FilesCacheExists();
    store.SaveVms(vms);
    store.SaveFiles(files);
    v := store.LoadVms();
    VmsRoundTrip(vms);
    f := store.LoadFiles();
    FilesRoundTrip(files);
  }
}
