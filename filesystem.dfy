/**
  The part of Node's `fs` module the scripts use, over an abstract store of
  whole-file contents. Paths in `locked` cannot be written: writing or copying
  onto them throws when the file is opened (a permission error), before any
  content changes.
 */
module FileSystem {

  class FileStore {
    var files: map<string, string>
    const locked: set<string>

    constructor (contents: map<string, string>, readOnly: set<string>)
      ensures files == contents && locked == readOnly
    {
      files := contents;
      locked := readOnly;
    }

    /** `fs.existsSync(path)`. */
    function Exists(path: string): bool
      reads this
    {
      path in files
    }

    /** `fs.writeFileSync(path, data)`; `ok` is false where it throws. */
    method Write(path: string, data: string) returns (ok: bool)
      modifies this
      ensures ok <==> path !in locked
      ensures files == if ok then old(files)[path := data] else old(files)
    {
      ok := path !in locked;
      if ok {
        files := files[path := data];
      }
    }

    /** `fs.copyFileSync(src, dst)`; `ok` is false where it throws. */
    method Copy(src: string, dst: string) returns (ok: bool)
      modifies this
      ensures ok <==> src in old(files) && dst !in locked
      ensures files == if ok then old(files)[dst := old(files)[src]] else old(files)
    {
      ok := src in files && dst !in locked;
      if ok {
        files := files[dst := files[src]];
      }
    }
  }
}
