/** The directory of snapshot files, newest first. A file's name holds the applied count of
    its state and the time it was written, and names decide which file is newer. */
module SnapshotFiles {
  import opened States
  import opened Snapshots

  datatype FileName = FileName(appliedCount: nat, savedAt: nat)

  /** A file whose checksum matches its state, or one that fails verification. */
  datatype File = Valid(name: FileName, saved: Serialized) | Corrupt(name: FileName)

  const RETAIN := 5

  predicate Newer(a: FileName, b: FileName)
  {
    b.appliedCount < a.appliedCount || (a.appliedCount == b.appliedCount && b.savedAt < a.savedAt)
  }

  ghost predicate NewestFirst(files: seq<File>)
  {
    forall i, j :: 0 <= i < j < |files| ==> Newer(files[i].name, files[j].name)
  }

  /** The listing after a file is written; a file of the same name is replaced. */
  function AddFile(f: File, files: seq<File>): seq<File>
  {
    if files == [] || Newer(f.name, files[0].name) then [f] + files
    else if files[0].name == f.name then [f] + files[1..]
    else [files[0]] + AddFile(f, files[1..])
  }

  /** Only the newest files are kept. */
  function Prune(files: seq<File>): seq<File>
  {
    if |files| <= RETAIN then files else files[..RETAIN]
  }

  function FileOf(s: Serialized, savedAt: nat): File { Valid(FileName(s.appliedCount, savedAt), s) }

  lemma {:induction false} AddFileMembers(f: File, files: seq<File>)
    ensures f in AddFile(f, files)
    ensures forall g :: g in AddFile(f, files) ==> g == f || g in files
    ensures forall g :: g in files && g.name != f.name ==> g in AddFile(f, files)
  {
    if files != [] {
      assert files == [files[0]] + files[1..];
      AddFileMembers(f, files[1..]);
    }
  }

  lemma {:induction false} AddFileOrdered(f: File, files: seq<File>)
    requires NewestFirst(files)
    ensures NewestFirst(AddFile(f, files))
  {
    if files != [] && !Newer(f.name, files[0].name) && files[0].name != f.name {
      assert NewestFirst(files[1..]);
      AddFileOrdered(f, files[1..]);
      AddFileMembers(f, files[1..]);
      var r := AddFile(f, files[1..]);
      forall j | 0 <= j < |r| ensures Newer(files[0].name, r[j].name) {
        assert r[j] in r;
        if r[j] != f {
          var k :| 0 <= k < |files[1..]| && files[1..][k] == r[j];
          assert files[k + 1] == r[j];
        }
      }
    } else if files != [] {
      assert forall j :: 0 < j < |files| ==> Newer(files[0].name, files[j].name);
    }
  }

  lemma InPrefix(all: seq<File>, n: nat, j: nat)
    requires n <= |all| && j < |all|
    ensures j < n ==> all[j] in all[..n]
  {
    if j < n { assert all[..n][j] == all[j]; }
  }

  /** Saving keeps the order and, of all files there were, exactly the newest ones: whatever
      it drops is older than everything it keeps. */
  lemma SaveKeepsNewest(f: File, files: seq<File>)
    requires NewestFirst(files)
    ensures var all, kept := AddFile(f, files), Prune(AddFile(f, files));
      && NewestFirst(kept) && |kept| <= RETAIN
      && (forall g :: g in kept ==> g == f || g in files)
      && (forall g, h :: g in kept && h in all && h !in kept ==> Newer(g.name, h.name) && |kept| == RETAIN)
  {
    AddFileOrdered(f, files);
    AddFileMembers(f, files);
    var all, kept := AddFile(f, files), Prune(AddFile(f, files));
    hide AddFile, Newer;
    forall g | g in kept ensures g in all {}
    forall g, h | g in kept && h in all && h !in kept ensures Newer(g.name, h.name) && |kept| == RETAIN {
      var i :| 0 <= i < |kept| && kept[i] == g;
      var j :| 0 <= j < |all| && all[j] == h;
      assert all[i] == g;
      InPrefix(all, |kept|, j);
    }
  }
}
