/**
 * Local file paths of one work item: the download path under /tmp and the
 * upload path obtained by replacing its extension with ".pdf", where the
 * extension is the one POSIX os.path.splitext finds.
 */
module Paths {

  /** Python's str.rfind for one character: the last index of c in s, or -1. */
  function RFind(s: string, c: char): (r: int)
    ensures -1 <= r < |s|
    ensures r >= 0 ==> s[r] == c
    ensures forall k :: r < k < |s| ==> s[k] != c
  {
    if |s| == 0 then -1
    else if s[|s| - 1] == c then |s| - 1
    else RFind(s[..|s| - 1], c)
  }

  predicate AllDots(s: string) {
    forall k :: 0 <= k < |s| ==> s[k] == '.'
  }

  /**
   * Where posixpath.splitext starts the extension: the last '.', provided it
   * lies after the last '/' and is preceded, within that last component, by
   * some character other than '.'; -1 when there is no extension.
   */
  function ExtStart(p: string): (i: int)
    ensures i == -1 || (0 <= i < |p| && p[i] == '.')
    ensures forall k :: 0 <= i < k < |p| ==> p[k] != '.' && p[k] != '/'
  {
    var sep := RFind(p, '/');
    var dot := RFind(p, '.');
    if dot > sep && !AllDots(p[sep + 1..dot]) then dot else -1
  }

  /** os.path.splitext on POSIX: (root, ext) with root + ext == p. */
  function SplitExt(p: string): (r: (string, string))
    ensures r.0 + r.1 == p
    ensures r.1 == [] || (r.1[0] == '.' && forall k :: 1 <= k < |r.1| ==> r.1[k] != '.' && r.1[k] != '/')
  {
    var i := ExtStart(p);
    if i < 0 then (p, [])
    else
      assert forall k :: 1 <= k < |p[i..]| ==> p[i..][k] == p[i + k];
      (p[..i], p[i..])
  }

  /**
   * Reference definition of an extension: p[i] is the last '.' of p, no '/'
   * follows it, and some character other than '.' and '/' precedes it in the
   * same path component.
   */
  ghost predicate ExtensionAt(p: string, i: int) {
    0 <= i < |p| && p[i] == '.' &&
    (forall k :: i < k < |p| ==> p[k] != '.' && p[k] != '/') &&
    NamedComponent(p[..i])
  }

  /** The last path component of s holds a character other than '.'. */
  ghost predicate NamedComponent(s: string) {
    exists j: nat :: j < |s| && s[j] != '.' && s[j] != '/' && NoSlashAfter(s, j)
  }

  predicate NoSlashAfter(s: string, j: nat) {
    forall k :: j < k < |s| ==> s[k] != '/'
  }

  /** Every extension in the reference sense is the one splitext finds. */
  lemma ExtensionIsExtStart(p: string, i: int)
    requires ExtensionAt(p, i)
    ensures ExtStart(p) == i
  {
    var root := p[..i];
    var j: nat :| j < |root| && root[j] != '.' && root[j] != '/' && NoSlashAfter(root, j);
    assert root[j] == p[j];
    var dot := RFind(p, '.');
    assert dot == i;
    var sep := RFind(p, '/');
    forall k | j <= k < |p| ensures p[k] != '/' {
      if k < i {
        assert root[k] == p[k];
      }
    }
    assert sep < j;
    var named := p[sep + 1..dot];
    assert named[j - sep - 1] == p[j];
    assert !AllDots(named);
  }

  /** What splitext finds is an extension in the reference sense. */
  lemma ExtStartIsExtension(p: string)
    requires ExtStart(p) >= 0
    ensures ExtensionAt(p, ExtStart(p))
  {
    var sep := RFind(p, '/');
    var dot := RFind(p, '.');
    assert dot == ExtStart(p) && sep < dot;
    var named := p[sep + 1..dot];
    var m :| 0 <= m < |named| && named[m] != '.';
    var j: nat := sep + 1 + m;
    var root := p[..dot];
    assert root[j] == named[m] == p[j];
    assert p[j] != '/';
    assert NoSlashAfter(root, j) by {
      forall k | j < k < |root| ensures root[k] != '/' {
        assert root[k] == p[k];
      }
    }
    assert NamedComponent(root);
  }

  /** SplitExt finds an extension exactly where the reference definition puts one. */
  lemma SplitExtSpec(p: string)
    ensures SplitExt(p).1 != [] <==> exists i :: ExtensionAt(p, i)
    ensures forall i :: ExtensionAt(p, i) ==> SplitExt(p) == (p[..i], p[i..])
  {
    forall i | ExtensionAt(p, i) ensures ExtStart(p) == i {
      ExtensionIsExtStart(p, i);
    }
    if ExtStart(p) >= 0 {
      ExtStartIsExtension(p);
    }
  }

  /** download_path: the scratch directory, the fresh identifier, then the object key. */
  function DownloadPath(uuid: string, key: string): (d: string)
    ensures |d| == 5 + |uuid| + |key| && d[..5] == "/tmp/"
    ensures d[5..5 + |uuid|] == uuid && d[5 + |uuid|..] == key
  {
    "/tmp/" + uuid + key
  }

  /** upload_path: the download path without its last extension, then ".pdf". */
  function UploadPath(downloadPath: string): string {
    SplitExt(downloadPath).0 + ".pdf"
  }

  /**
   * The upload path is the download path itself exactly when the download
   * path's extension is already ".pdf": the converted file then takes the
   * place of the downloaded one.
   */
  lemma UploadPathIsDownloadPath(downloadPath: string)
    ensures UploadPath(downloadPath) == downloadPath <==> SplitExt(downloadPath).1 == ".pdf"
  {
    var (root, ext) := SplitExt(downloadPath);
    if UploadPath(downloadPath) == downloadPath {
      assert root + ".pdf" == root + ext;
      assert ext == (root + ext)[|root|..];
    }
  }

  /** For instance, the key "a.pdf" gives the same download and upload path, whatever the uuid. */
  lemma PdfKeyAliases(uuid: string)
    requires IsUuidText(uuid)
    ensures UploadPath(DownloadPath(uuid, "a.pdf")) == DownloadPath(uuid, "a.pdf")
  {
    var d := DownloadPath(uuid, "a.pdf");
    var i := |d| - 4;
    assert d[i..] == ".pdf" && d[i - 1] == 'a';
    forall k | i < k < |d| ensures d[k] != '.' && d[k] != '/' {
      assert d[k] == ".pdf"[k - i];
    }
    assert NoSlashAfter(d[..i], i - 1);
    assert NamedComponent(d[..i]);
    assert ExtensionAt(d, i);
    SplitExtSpec(d);
    UploadPathIsDownloadPath(d);
  }

  /** The text form of a uuid4: 32 lower-case hex digits in groups 8-4-4-4-12. */
  predicate IsUuidText(u: string) {
    |u| == 36 &&
    forall i :: 0 <= i < 36 ==>
      if i == 8 || i == 13 || i == 18 || i == 23 then u[i] == '-'
      else ('0' <= u[i] <= '9' || 'a' <= u[i] <= 'f')
  }

  /** The upload path stays in the scratch directory and always ends in ".pdf". */
  lemma UploadPathShape(uuid: string, key: string)
    ensures var up := UploadPath(DownloadPath(uuid, key));
      |up| >= 9 && up[..5] == "/tmp/" && up[|up| - 4..] == ".pdf"
  {
    var d := DownloadPath(uuid, key);
    var sep := RFind(d, '/');
    assert d[4] == '/';
    assert sep >= 4;
    var base := SplitExt(d).0;
    assert |base| >= 5 && base[..5] == d[..5];
  }

  /**
   * Replacing the extension is undone by splitext: when the stem's last
   * component has a name, splitext(upload path) gives back that stem and ".pdf".
   */
  lemma UploadPathSplitsBack(downloadPath: string)
    requires NamedComponent(SplitExt(downloadPath).0)
    ensures SplitExt(UploadPath(downloadPath)) == (SplitExt(downloadPath).0, ".pdf")
  {
    var base := SplitExt(downloadPath).0;
    var up := UploadPath(downloadPath);
    var i := |base|;
    assert up[..i] == base && up[i..] == ".pdf";
    assert up[i] == '.';
    forall k | i < k < |up| ensures up[k] != '.' && up[k] != '/' {
      assert up[k] == ".pdf"[k - i];
    }
    assert ExtensionAt(up, i);
    SplitExtSpec(up);
  }

  /**
   * For a real work item the round trip above holds: the identifier is a
   * uuid4, and the key either has no '/' or has a last component holding a
   * character other than '.' (as in "folder/file.docx").
   */
  lemma DownloadPathSplitsBack(uuid: string, key: string)
    requires IsUuidText(uuid)
    requires (forall k :: 0 <= k < |key| ==> key[k] != '/') || NamedComponent(key)
    ensures var d := DownloadPath(uuid, key);
      SplitExt(UploadPath(d)) == (SplitExt(d).0, ".pdf")
  {
    var d := DownloadPath(uuid, key);
    SplitExtSpec(d);
    if SplitExt(d).1 != [] {
      var i :| ExtensionAt(d, i);
    } else if forall k :: 0 <= k < |key| ==> key[k] != '/' {
      assert d[5] == uuid[0];
      forall k | 5 < k < |d| ensures d[k] != '/' {
        if k < 5 + |uuid| { assert d[k] == uuid[k - 5]; } else { assert d[k] == key[k - 5 - |uuid|]; }
      }
      assert NoSlashAfter(d, 5);
    } else {
      var j: nat :| j < |key| && key[j] != '.' && key[j] != '/' && NoSlashAfter(key, j);
      var n := 5 + |uuid|;
      assert d[n + j] == key[j];
      forall k | n + j < k < |d| ensures d[k] != '/' {
        assert d[k] == key[k - n];
      }
      assert NoSlashAfter(d, n + j);
    }
    UploadPathSplitsBack(d);
  }
}
