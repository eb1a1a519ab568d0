/**
 * The vault directory (`~/.gotion`) as the note application sees it through
 * the os package: a flat map from entry name to node. A file carries an inode
 * number, so that an open handle stays bound to the file it opened even after
 * that name is removed or created again.
 */
module Vault {
  import opened Wrappers
  import opened FileNames

  datatype Node = File(ino: nat, content: string) | Dir(empty: bool)

  /** An open *os.File: the name it was opened under and the file it is bound to. */
  datatype Handle = Handle(path: string, ino: nat)

  datatype Disk = Disk(files: map<string, Node>, nextIno: nat)

  /** One os.DirEntry; `info` is what entry.Info() yields (its formatted
      modification time), None when that lookup fails. */
  datatype DirEntry = DirEntry(name: string, isDir: bool, info: Option<string>)

  /** Every file has an inode number below `nextIno`, and no two names share one. */
  ghost predicate WellFormed(d: Disk) {
    (forall p :: p in d.files && d.files[p].File? ==> d.files[p].ino < d.nextIno) &&
    (forall p, q :: p in d.files && q in d.files && p != q && d.files[p].File? && d.files[q].File?
                    ==> d.files[p].ino != d.files[q].ino)
  }

  /** The handle still names a file of the vault (it was not removed since it was opened). */
  predicate Live(d: Disk, h: Handle) {
    h.path in d.files && d.files[h.path].File? && d.files[h.path].ino == h.ino
  }

  /** os.Create: truncates an existing file, creates an empty one otherwise,
      and fails on a directory. */
  function CreateFile(d: Disk, path: string): (r: (Disk, Option<Handle>))
    ensures path in d.files && d.files[path].Dir? ==> r == (d, None)
    ensures path in d.files && d.files[path].File? ==>
              r.0 == d.(files := d.files[path := File(d.files[path].ino, "")]) &&
              r.1 == Some(Handle(path, d.files[path].ino))
    ensures path !in d.files ==>
              r.0 == Disk(d.files[path := File(d.nextIno, "")], d.nextIno + 1) &&
              r.1 == Some(Handle(path, d.nextIno))
    ensures r.1.Some? ==> r.1.value.path == path && Live(r.0, r.1.value) && r.0.files[path].content == ""
  {
    if path in d.files then
      match d.files[path]
      case Dir(_) => (d, None)
      case File(ino, _) => (d.(files := d.files[path := File(ino, "")]), Some(Handle(path, ino)))
    else
      (Disk(d.files[path := File(d.nextIno, "")], d.nextIno + 1), Some(Handle(path, d.nextIno)))
  }

  /** os.ReadFile: the whole content of a file; a missing name or a directory fails. */
  function ReadContent(d: Disk, path: string): (r: Option<string>)
    ensures r.Some? <==> path in d.files && d.files[path].File?
    ensures r.Some? ==> r.value == d.files[path].content
  {
    if path in d.files && d.files[path].File? then Some(d.files[path].content) else None
  }

  /** os.OpenFile with O_RDWR: a handle bound to the file now under `path`. */
  function OpenHandle(d: Disk, path: string): (r: Option<Handle>)
    ensures r.Some? <==> path in d.files && d.files[path].File?
    ensures r.Some? ==> r.value.path == path && Live(d, r.value)
  {
    if path in d.files && d.files[path].File? then Some(Handle(path, d.files[path].ino)) else None
  }

  /** Replace the whole content of the file behind `h`. A handle whose file
      was removed writes to an unlinked inode: the vault does not change. */
  function WriteThrough(d: Disk, h: Handle, content: string): (r: Disk)
    ensures r.nextIno == d.nextIno && r.files.Keys == d.files.Keys
    ensures forall p :: p in d.files && p != h.path ==> r.files[p] == d.files[p]
    ensures Live(d, h) ==> r.files[h.path] == File(h.ino, content)
    ensures !Live(d, h) ==> r == d
  {
    if Live(d, h) then d.(files := d.files[h.path := File(h.ino, content)]) else d
  }

  /** os.Remove: removes a file or an empty directory. */
  function RemoveEntry(d: Disk, path: string): (r: Option<Disk>)
    ensures r.Some? <==> path in d.files && d.files[path] != Dir(false)
    ensures r.Some? ==> r.value == d.(files := d.files - {path})
  {
    if path in d.files && d.files[path] != Dir(false) then Some(d.(files := d.files - {path})) else None
  }

  function Stamp(stamps: map<string, string>, name: string): Option<string> {
    if name in stamps then Some(stamps[name]) else None
  }

  function Names(entries: seq<DirEntry>): (r: seq<string>)
    ensures |r| == |entries| && forall i :: 0 <= i < |r| ==> r[i] == entries[i].name
  {
    seq(|entries|, i requires 0 <= i < |entries| => entries[i].name)
  }

  /** os.ReadDir on the vault: every entry once, sorted by name. `stamps`
      holds the result of entry.Info() for the names whose lookup succeeds. */
  function ReadDir(d: Disk, stamps: map<string, string>): seq<DirEntry> {
    var names := SortedNames(d.files.Keys);
    seq(|names|, i requires 0 <= i < |names| =>
        DirEntry(names[i], d.files[names[i]].Dir?, Stamp(stamps, names[i])))
  }

  /** ReadDir reports each vault entry exactly once, as what it is, in ascending name order. */
  lemma ReadDirEntries(d: Disk, stamps: map<string, string>)
    ensures var r := ReadDir(d, stamps);
      |r| == |d.files| &&
      (forall i :: 0 <= i < |r| ==>
         r[i].name in d.files && r[i].isDir == d.files[r[i].name].Dir? &&
         r[i].info == Stamp(stamps, r[i].name)) &&
      (forall n :: n in d.files <==> n in Names(r)) &&
      Ascending(Names(r))
  {
    assert Names(ReadDir(d, stamps)) == SortedNames(d.files.Keys);
  }

  /** The file system, updated in place by the os calls the application makes. */
  class Store {
    var files: map<string, Node>
    var nextIno: nat

    function Snapshot(): Disk
      reads this
    {
      Disk(files, nextIno)
    }

    constructor (d: Disk)
      ensures Snapshot() == d
    {
      files := d.files;
      nextIno := d.nextIno;
    }

    /** os.Stat succeeds exactly for an existing entry. */
    method Stat(path: string) returns (found: bool)
      ensures found <==> path in Snapshot().files
    {
      found := path in files;
    }

    method Create(path: string, fails: bool) returns (h: Option<Handle>)
      modifies this
      ensures (Snapshot(), h) == if fails then (old(Snapshot()), None) else CreateFile(old(Snapshot()), path)
    {
      if fails {
        h := None;
        return;
      }
      var r := CreateFile(Snapshot(), path);
      files, nextIno, h := r.0.files, r.0.nextIno, r.1;
    }

    method ReadFile(path: string, fails: bool) returns (content: Option<string>)
      ensures content == if fails then None else ReadContent(Snapshot(), path)
    {
      content := if fails then None else ReadContent(Snapshot(), path);
    }

    method OpenFile(path: string, fails: bool) returns (h: Option<Handle>)
      ensures h == if fails then None else OpenHandle(Snapshot(), path)
    {
      h := if fails then None else OpenHandle(Snapshot(), path);
    }

    /** File.Truncate(0) through the handle. */
    method Truncate(h: Handle, fails: bool) returns (ok: bool)
      modifies this
      ensures ok == !fails
      ensures Snapshot() == if fails then old(Snapshot()) else WriteThrough(old(Snapshot()), h, "")
    {
      ok := !fails;
      if ok {
        files := WriteThrough(Snapshot(), h, "").files;
      }
    }

    /** File.WriteString at offset 0 of a truncated file. `failsAfter` is
        None when the write completes, Some(n) when it fails after n characters. */
    method WriteString(h: Handle, text: string, failsAfter: Option<nat>) returns (ok: bool)
      modifies this
      ensures ok == failsAfter.None?
      ensures Snapshot() == WriteThrough(old(Snapshot()), h, Written(text, failsAfter))
    {
      ok := failsAfter.None?;
      files := WriteThrough(Snapshot(), h, Written(text, failsAfter)).files;
    }

    method Remove(path: string, fails: bool) returns (ok: bool)
      modifies this
      ensures ok == (!fails && RemoveEntry(old(Snapshot()), path).Some?)
      ensures Snapshot() == if ok then RemoveEntry(old(Snapshot()), path).value else old(Snapshot())
    {
      var r := RemoveEntry(Snapshot(), path);
      ok := !fails && r.Some?;
      if ok {
        files := r.value.files;
      }
    }

    method ReadDirectory(stamps: map<string, string>, fails: bool) returns (entries: Option<seq<DirEntry>>)
      ensures entries == if fails then None else Some(ReadDir(Snapshot(), stamps))
    {
      entries := if fails then None else Some(ReadDir(Snapshot(), stamps));
    }
  }

  /** What a write leaves in the file: all of `text`, or the prefix written before it failed. */
  function Written(text: string, failsAfter: Option<nat>): (r: string)
    ensures r <= text
    ensures failsAfter.None? ==> r == text
  {
    match failsAfter
    case None => text
    case Some(n) => if n < |text| then text[..n] else text
  }
}
