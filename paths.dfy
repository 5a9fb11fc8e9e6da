/**
 * The URLs the server hands out for images and the POSIX `path.basename`
 * that turns such a URL back into a file name inside the uploads directory.
 */
module Paths {

  /** Where the server publishes the files of its uploads directory. */
  const UploadsBase: string := "http://localhost:8000/uploads/"

  /** The shared default image, served from the assets directory. */
  const PlaceholderUrl: string := "http://localhost:8000/assets/placeholder.png"

  /** The public URL of an uploaded file. */
  function UploadUrl(filename: string): string
  {
    UploadsBase + filename
  }

  /** The length of `p[..n]` once the run of `/` it ends with is dropped. */
  function TrimmedEnd(p: string, n: nat): (e: nat)
    requires n <= |p|
    ensures e <= n
    ensures e == 0 || p[e - 1] != '/'
    ensures forall j :: e <= j < n ==> p[j] == '/'
  {
    if n > 0 && p[n - 1] == '/' then TrimmedEnd(p, n - 1) else n
  }

  /** The index of the last `/` in `p[..n]`, or -1 when there is none. */
  function LastSlashBefore(p: string, n: nat): (k: int)
    requires n <= |p|
    ensures -1 <= k < n
    ensures k >= 0 ==> p[k] == '/'
    ensures forall j :: k < j < n ==> p[j] != '/'
  {
    if n == 0 then -1 else if p[n - 1] == '/' then n - 1 else LastSlashBefore(p, n - 1)
  }

  /**
   * POSIX `path.basename`: trailing separators are ignored, and the result is
   * the last path segment ("" for a path made of separators only).
   */
  function Basename(p: string): (r: string)
    ensures '/' !in r
    ensures |r| <= |p|
    ensures '/' !in p ==> r == p
  {
    var e := TrimmedEnd(p, |p|);
    var r := p[LastSlashBefore(p, e) + 1..e];
    assert forall c :: c in r ==> c != '/' by {
      forall c | c in r ensures c != '/' {
        var j :| 0 <= j < |r| && r[j] == c;
        assert r[j] == p[LastSlashBefore(p, e) + 1 + j];
      }
    }
    r
  }

  /** A name that the uploads directory can hold as a regular file. */
  predicate IsFileName(f: string)
  {
    f != "" && f != "." && f != ".." && '/' !in f
  }

  /** The basename of a path is the segment after its last separator. */
  lemma BasenameOfSegment(dir: string, f: string)
    requires f != "" && '/' !in f
    ensures Basename(dir + "/" + f) == f
  {
    var p := dir + "/" + f;
    assert p[|p| - 1] == f[|f| - 1];
    var e := TrimmedEnd(p, |p|);
    assert e == |p|;
    var k := LastSlashBefore(p, e);
    assert p[|dir|] == '/';
    assert forall j :: |dir| < j < |p| ==> p[j] == f[j - |dir| - 1];
    assert k == |dir|;
    assert p[|dir| + 1..] == f;
  }

  /** The file name of an upload survives the round trip through its public URL. */
  lemma BasenameOfUploadUrl(filename: string)
    requires IsFileName(filename)
    ensures Basename(UploadUrl(filename)) == filename
  {
    assert UploadUrl(filename) == "http://localhost:8000/uploads" + "/" + filename;
    BasenameOfSegment("http://localhost:8000/uploads", filename);
  }
}
