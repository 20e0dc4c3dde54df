// The local project directory the `new` and `init` commands write into:
// the directories that exist and the files with their contents.

module Workspace {
  datatype Fs = Fs(dirs: set<string>, files: map<string, string>)

  /** `Path(p).exists()`: a directory or a file of that name. */
  predicate Exists(fs: Fs, p: string) {
    p in fs.dirs || p in fs.files
  }

  /** The working directory, changed in place. */
  class Project {
    var dirs: set<string>
    var files: map<string, string>

    constructor (fs: Fs)
      ensures dirs == fs.dirs && files == fs.files
    {
      dirs := fs.dirs;
      files := fs.files;
    }

    function State(): Fs
      reads this
    {
      Fs(dirs, files)
    }

    /** `mkdir(parents=True, exist_ok=True)` for each of `ds`. */
    method MakeDirs(ds: set<string>)
      modifies this
      ensures State() == Fs(old(dirs) + ds, old(files))
    {
      dirs := dirs + ds;
    }

    /** `Path(path).write_text(text)` */
    method Write(path: string, text: string)
      modifies this
      ensures State() == Fs(old(dirs), old(files)[path := text])
    {
      files := files[path := text];
    }
  }
}
