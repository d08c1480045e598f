/** The files the generators write and read back: the www directory tree as
    a map from path to contents. Directory creation needs no counterpart. */
module FileStore {
  import opened Common

  class Files {
    var contents: map<string, string>

    constructor(initial: map<string, string>)
      ensures contents == initial
    {
      contents := initial;
    }

    /** `os.path.exists`. */
    predicate Exists(path: string)
      reads this
    {
      path in contents
    }

    /** `open(path).read()`: the contents, or the IOError of a missing file. */
    method Read(path: string) returns (r: Result<string>)
      ensures path in contents ==> r == Ok(contents[path])
      ensures path !in contents ==> r == Err("IOError: " + path)
    {
      if path in contents {
        r := Ok(contents[path]);
      } else {
        r := Err("IOError: " + path);
      }
    }

    /** `open(path, 'w')` followed by writing `text`: the file is replaced
        and no other file changes. */
    method Write(path: string, text: string)
      modifies this
      ensures contents == old(contents)[path := text]
    {
      contents := contents[path := text];
    }
  }
}
