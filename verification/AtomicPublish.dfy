/** Writing a file by way of a temporary name, one system call at a time.

    `PublishExclusive` is `_phase_f_atomic_publish`: a temporary name fixed by the plan, opened
    exclusively and left behind when a call fails.  `ReplaceFile` and `WriteNew` are the owner profile's
    `_atomic_write` and `_write_new`: a fresh temporary name, removed when a call fails.  `budget` is how many system
    calls succeed before one raises; the writes are short, each taking as many bytes as the kernel
    likes. */
module AtomicPublish {
  import opened PhaseFWorld
  import opened PhaseFBackend
  import opened PhaseFDriver

  datatype Ending = Returned | Collided | Failed

  /** The path and its temporary name. */
  class Entry {
    var file: FileState
    var temp: FileState

    constructor (file: FileState)
      ensures this.file == file && temp == Absent
    {
      this.file := file;
      this.temp := Absent;
    }

    /** What `_observe_file` answers AMBIGUOUS to, apart from drift of the path itself. */
    predicate TempExists()
      reads this
    {
      temp.Present?
    }

    /** The write loop.  `accepts` says how many bytes the kernel would take at each offset; `left` is
        what remains of the budget, negative if a write raised. */
    method WriteAll(payload: Bytes, accepts: nat -> nat, budget: nat) returns (left: int)
      requires temp.Present? && temp.payload == []
      modifies this`temp
      ensures temp.Present? && temp == old(temp).(payload := temp.payload) && temp.payload <= payload
      ensures left >= 0 ==> temp.payload == payload
      ensures left <= budget && (budget >= |payload| ==> left >= budget - |payload|)
    {
      var offset := 0;
      left := budget;
      while offset < |payload|
        invariant 0 <= offset <= |payload| && budget - offset <= left <= budget && 0 <= left
        invariant temp.Present? && temp == old(temp).(payload := payload[..offset])
        decreases |payload| - offset
      {
        if left == 0 {
          return -1;
        }
        left := left - 1;
        var room := |payload| - offset;
        var taken := if accepts(offset) < 1 then 1 else if accepts(offset) > room then room else accepts(offset);
        temp := temp.(payload := temp.payload + payload[offset..offset + taken]);
        offset := offset + taken;
      }
    }

    /** `_phase_f_atomic_publish`: create exclusively, write, set mode and owner, sync, rename, sync.
        However it ends, the path holds the old file or the whole new one with the right owner and mode,
        and a temporary name that was there before keeps every later publish out. */
    method PublishExclusive(payload: Bytes, prior: FileState, accepts: nat -> nat, budget: nat) returns (ending: Ending)
      modifies this
      ensures ending.Collided? <==> old(TempExists()) && budget > 0
      ensures old(TempExists()) ==> file == old(file) && temp == old(temp)
      ensures file == old(file) || file == Published(prior, payload)
      ensures !old(TempExists()) && TempExists() ==> file == old(file)
      ensures ending.Returned? ==> file == Published(prior, payload) && !TempExists()
      ensures !old(TempExists()) && budget >= |payload| + 6 ==> ending.Returned?
    {
      var left: int := budget;
      if left == 0 { return Failed; }
      left := left - 1;
      if temp.Present? { return Collided; }
      temp := Present([], ROOT, ROOT, 0x180);
      left := WriteAll(payload, accepts, left);
      if left <= 0 { return Failed; }
      temp := temp.(mode := if prior.Absent? then DEFAULT_MODE else prior.mode);
      left := left - 1;
      if prior.Present? {
        if left == 0 { return Failed; }
        temp := temp.(uid := prior.uid, gid := prior.gid);
        left := left - 1;
      }
      if left == 0 { return Failed; }
      left := left - 1;
      if left == 0 { return Failed; }
      file, temp := temp, Absent;
      left := left - 1;
      if left == 0 { return Failed; }
      return Returned;
    }

    /** The owner profile's `_atomic_write`: the temporary name is fresh, and it is gone again however
        the call ends. */
    method ReplaceFile(payload: Bytes, mode: nat, uid: nat, gid: nat, accepts: nat -> nat, budget: nat)
      returns (ending: Ending)
      requires temp.Absent?
      modifies this
      ensures temp.Absent? && !ending.Collided?
      ensures file == old(file) || file == Present(payload, uid, gid, mode)
      ensures ending.Returned? ==> file == Present(payload, uid, gid, mode)
      ensures budget >= |payload| + 6 ==> ending.Returned?
    {
      ending := Failed;
      var left: int := budget;
      if left == 0 { return; }
      temp := Present([], ROOT, ROOT, 0x180);
      left := WriteAll(payload, accepts, left - 1);
      if left > 2 {
        // fsync, fchown and fchmod have succeeded.
        temp := temp.(uid := uid, gid := gid, mode := mode);
        left := left - 3;
        if left > 0 {
          file := temp;
          if left > 1 {
            ending := Returned;
          }
        }
      }
      temp := Absent;
    }

    /** `_write_new`: as above, but the path is created by an exclusive link, so a file that is there is
        never overwritten. */
    method WriteNew(payload: Bytes, mode: nat, uid: nat, gid: nat, accepts: nat -> nat, budget: nat)
      returns (ending: Ending)
      requires temp.Absent?
      modifies this
      ensures temp.Absent?
      ensures old(file).Present? ==> file == old(file) && !ending.Returned?
      ensures old(file).Absent? ==> (file.Absent? || file == Present(payload, uid, gid, mode)) && !ending.Collided?
      ensures ending.Returned? ==> file == Present(payload, uid, gid, mode)
      ensures ending.Collided? ==> old(file).Present?
      ensures old(file).Absent? && budget >= |payload| + 7 ==> ending.Returned?
    {
      ending := Failed;
      var left: int := budget;
      if left < 3 { return; }
      temp := Present([], uid, gid, mode);
      left := WriteAll(payload, accepts, left - 3);
      if left > 1 {
        if file.Present? {
          ending := Collided;
        } else {
          file := temp;
          if left > 3 {
            ending := Returned;
          }
        }
      }
      temp := Absent;
    }
  }

  // ----- What the transaction's model says about the same publish -----

  /** The host with this path and this temporary name. */
  function Install(w: World, f: FileId, file: FileState, tempExists: bool): World {
    w.(files := w.files.Set(f, file), temps := if tempExists then w.temps + {f} else w.temps)
  }

  /** Every way in which `PublishExclusive` can end is one of the faults that the transaction's drivers
      are proved against, so the proofs there cover every interrupted write. */
  lemma EndingIsFault(l: Live, f: FileId, payload: Bytes, prior: FileState, file: FileState, tempExists: bool)
    requires f !in l.world.temps
    requires file == l.world.files.Get(f) || file == Published(prior, payload)
    requires tempExists ==> file == l.world.files.Get(f)
    ensures exists fault: Fault ::
              Faulted(l, Lift(l, Publish(l.world, f, payload, prior)), Some(f), fault).live.world
                == Install(l.world, f, file, tempExists)
  {
    var r := Lift(l, Publish(l.world, f, payload, prior));
    var w := l.world;
    SetSame(w.files, f);
    if tempExists {
      assert Faulted(l, r, Some(f), LeavesTemp).live.world == Install(w, f, file, tempExists);
    } else if file == Published(prior, payload) {
      assert Faulted(l, r, Some(f), AfterEffect).live.world == Install(w, f, file, tempExists);
    } else {
      assert Faulted(l, r, Some(f), BeforeEffect).live.world == Install(w, f, file, tempExists);
    }
  }

  lemma SetSame(files: PerFile<FileState>, f: FileId)
    ensures files.Set(f, files.Get(f)) == files
  {
  }
}
