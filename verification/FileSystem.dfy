/** The local disk: whole files by path, written in order. */
module FileSystem {
  import opened Bytes

  type Files = map<string, seq<byte>>

  class Disk {
    var files: Files

    constructor ()
      ensures files == map[]
    {
      files := map[];
    }

    /** `open(path, "wb")` */
    method Create(path: string)
      modifies this
      ensures files == old(files)[path := []]
    {
      files := files[path := []];
    }

    /** `out.write(chunk)` on a file opened for writing */
    method Append(path: string, chunk: seq<byte>)
      requires path in files
      modifies this
      ensures files == old(files)[path := old(files)[path] + chunk]
    {
      files := files[path := files[path] + chunk];
    }

    /** What an operation that fails half-way leaves: these paths hold anything, or nothing. */
    method LeaveAnything(paths: set<string>)
      modifies this
      ensures files - paths == old(files) - paths
    {
      var left: Files := *;
      files := (files - paths) + (map p | p in left && p in paths :: left[p]);
    }

    /** `if os.path.isfile(path): os.remove(path)` */
    method RemoveIfPresent(path: string)
      modifies this
      ensures files == old(files) - {path}
    {
      files := files - {path};
    }
  }
}
