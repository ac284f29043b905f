/** The extraction directory: its files, and the most bytes it ever held. */
module OutputFiles {
  import opened Bytes
  import opened Sums
  import opened LimitReaders

  type Files = map<Text, Text>

  const TEMP_PREFIX: Text := [46, 99, 111, 109, 105, 99, 45, 101, 110, 116, 114, 121, 45]  // ".comic-entry-"

  predicate IsTemp(name: Text) {
    TEMP_PREFIX <= name
  }

  ghost function Sizes(files: Files): map<Text, int> {
    map name | name in files :: |files[name]|
  }

  ghost function TotalBytes(files: Files): int {
    Sum(Sizes(files))
  }

  lemma TotalBytesUpdate(files: Files, name: Text, content: Text)
    ensures TotalBytes(files[name := content]) ==
            TotalBytes(files) - (if name in files then |files[name]| else 0) + |content|
  {
    assert Sizes(files[name := content]) == Sizes(files)[name := |content|];
    SumUpdate(Sizes(files), name, |content|);
  }

  lemma TotalBytesRemove(files: Files, name: Text)
    ensures TotalBytes(files - {name}) == TotalBytes(files) - if name in files then |files[name]| else 0
  {
    assert Sizes(files - {name}) == Sizes(files) - {name};
    if name in files {
      SumRemove(Sizes(files), name);
    } else {
      assert files - {name} == files;
    }
  }

  // ----- A name that no file has -----

  ghost function Longest(names: set<Text>): nat {
    if names == {} then 0
    else
      var n :| n in names;
      var rest := Longest(names - {n});
      if |n| > rest then |n| else rest
  }

  lemma {:induction false} LongestBounds(names: set<Text>, n: Text)
    requires n in names
    ensures |n| <= Longest(names)
    decreases names
  {
    var first :| first in names && Longest(names) ==
      var rest := Longest(names - {first}); if |first| > rest then |first| else rest;
    if n != first {
      LongestBounds(names - {first}, n);
    }
  }

  lemma FreshTempExists(files: Files)
    ensures exists name :: IsTemp(name) && name !in files
  {
    var zeros: Text := seq(Longest(files.Keys) + 1, _ => ZERO);
    var name := TEMP_PREFIX + zeros;
    if name in files {
      LongestBounds(files.Keys, name);
    }
    assert IsTemp(name) && name !in files;
  }

  datatype Stat = Present | Absent | StatFailed

  /** A directory that only this extraction writes to. Removals succeed. */
  class OutputDir {
    var files: Files
    ghost var bytes: int  // the bytes it holds
    ghost var peak: int   // the most bytes it ever held

    ghost predicate Valid()
      reads this
    {
      bytes == TotalBytes(files) && bytes <= peak
    }

    constructor (files: Files)
      ensures Valid() && this.files == files && peak == bytes
    {
      this.files := files;
      bytes := TotalBytes(files);
      peak := TotalBytes(files);
    }

    /** `os.CreateTemp`: an empty file under a name that is not in use. */
    method CreateTemp(ctx: Context) returns (ok: bool, name: Text)
      requires Valid()
      modifies this, ctx
      ensures ctx.interrupted == (old(ctx.interrupted) || !ok)
      ensures Valid() && peak == old(peak) && bytes == old(bytes)
      ensures ok ==> IsTemp(name) && name !in old(files) && files == old(files)[name := []]
      ensures !ok ==> files == old(files)
    {
      name := [];
      ok := ctx.FileOperation();
      if ok {
        FreshTempExists(files);
        name :| IsTemp(name) && name !in files;
        TotalBytesUpdate(files, name, []);
        files := files[name := []];
      }
    }

    /** A write appends the chunk, or fails after a part of it. */
    method Append(ctx: Context, name: Text, chunk: Text) returns (ok: bool)
      requires Valid() && name in files
      modifies this, ctx
      ensures ctx.interrupted == (old(ctx.interrupted) || !ok)
      ensures Valid() && name in files && files - {name} == old(files) - {name}
      ensures ok ==> files[name] == old(files[name]) + chunk && bytes == old(bytes) + |chunk|
      ensures old(bytes) <= bytes <= old(bytes) + |chunk|
      ensures peak == if bytes > old(peak) then bytes else old(peak)
    {
      ok := ctx.FileOperation();
      var n: nat := |chunk|;
      if !ok {
        n :| n <= |chunk|;
      }
      TotalBytesUpdate(files, name, files[name] + chunk[..n]);
      files := files[name := files[name] + chunk[..n]];
      bytes := bytes + n;
      peak := if peak > bytes then peak else bytes;
    }

    method Remove(name: Text)
      requires Valid()
      modifies this
      ensures Valid() && peak == old(peak) && files == old(files) - {name}
      ensures bytes == old(bytes) - if name in old(files) then |old(files[name])| else 0
    {
      TotalBytesRemove(files, name);
      bytes := bytes - if name in files then |files[name]| else 0;
      files := files - {name};
    }

    method Lstat(ctx: Context, name: Text) returns (stat: Stat)
      modifies ctx
      ensures ctx.interrupted == (old(ctx.interrupted) || stat == StatFailed)
      ensures stat == Present ==> name in files
      ensures stat == Absent ==> name !in files
    {
      var readable := ctx.FileOperation();
      stat := if !readable then StatFailed else if name in files then Present else Absent;
    }

    method Rename(ctx: Context, from: Text, to: Text) returns (ok: bool)
      requires Valid() && from in files && to !in files
      modifies this, ctx
      ensures ctx.interrupted == (old(ctx.interrupted) || !ok)
      ensures Valid() && peak == old(peak) && bytes == old(bytes)
      ensures ok ==> files == (old(files) - {from})[to := old(files[from])]
      ensures !ok ==> files == old(files)
    {
      ok := ctx.FileOperation();
      if ok {
        TotalBytesRemove(files, from);
        TotalBytesUpdate(files - {from}, to, files[from]);
        files := (files - {from})[to := files[from]];
      }
    }
  }
}
