/**
 Slash-separated paths: Join glues two elements with '/', ignoring an empty
 one, and Dir drops the last element. Neither removes repeated separators or
 "." and ".." elements, which the Go library's path cleaning would.
 */
module FilePath {
  import opened Wrappers
  import opened Text

  /** Two path elements separated by '/'; an empty element is ignored. */
  function Join(a: string, b: string): (r: string)
    ensures r == "" <==> a == "" && b == ""
  {
    if b == "" then a
    else if a == "" then b
    else a + "/" + b
  }

  /** Everything before the last '/'; "." when there is none and "/" for a path directly under the root. */
  function Dir(p: string): (r: string)
    ensures r != ""
    ensures '/' !in p ==> r == "."
  {
    match LastIndexOf(p, '/')
    case None => "."
    case Some(i) => if i == 0 then "/" else p[..i]
  }

  /** A non-empty last element is the suffix of the joined path. */
  lemma JoinEndsWith(d: string, f: string)
    requires f != ""
    ensures EndsWith(Join(d, f), f)
  {
  }

  /** Dir undoes appending a slash-free file name to a non-empty directory. */
  lemma DirOfJoin(d: string, f: string)
    requires f != "" && '/' !in f
    requires d != ""
    ensures Dir(Join(d, f)) == d
  {
    LastIndexOfBefore(d, '/', f);
    assert (d + "/" + f)[..|d|] == d;
  }
}
