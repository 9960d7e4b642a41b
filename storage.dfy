/** Object storage as the two hooks use it: the upload path built from a fresh
    UUID and the file name's extension, and the public URL of a stored object.
    The upload itself is a success/failure parameter of the callers. */
module Storage {
  import opened Text

  /** `images/${uuid}.${name.split(".").pop()}`; the path keeps the file's extension. */
  function UploadPath(uuid: string, fileName: string): (p: string)
    ensures StartsWith(p, "images/")
    ensures AfterLastDot(p) == AfterLastDot(fileName)
  {
    AfterLastDotOfJoin("images/" + uuid, AfterLastDot(fileName));
    "images/" + uuid + "." + AfterLastDot(fileName)
  }

  /** Two uploads that got different UUIDs never share a path, whatever the
      file names: the path determines both the UUID and the extension. */
  lemma UploadPathInjective(uuid1: string, name1: string, uuid2: string, name2: string)
    requires UploadPath(uuid1, name1) == UploadPath(uuid2, name2)
    ensures uuid1 == uuid2 && AfterLastDot(name1) == AfterLastDot(name2)
  {
    var e1, e2 := AfterLastDot(name1), AfterLastDot(name2);
    assert e1 == e2 by {
      assert AfterLastDot(UploadPath(uuid1, name1)) == e1;
      assert AfterLastDot(UploadPath(uuid2, name2)) == e2;
    }
    assert UploadPath(uuid1, name1) == "images/" + uuid1 + ("." + e1);
    assert UploadPath(uuid2, name2) == "images/" + uuid2 + ("." + e1);
    SameFrameSameMiddle("images/", uuid1, uuid2, "." + e1);
  }

  /** Equal strings with the same prefix and suffix have the same middle. */
  lemma SameFrameSameMiddle(prefix: string, a: string, b: string, suffix: string)
    requires prefix + a + suffix == prefix + b + suffix
    ensures a == b
  {
    var s := prefix + a + suffix;
    assert |a| == |b|;
    assert s[|prefix|..|prefix| + |a|] == a;
    assert (prefix + b + suffix)[|prefix|..|prefix| + |b|] == b;
  }

  /** Supabase's public URL of an object in the "uploads" bucket. */
  function PublicUrl(projectUrl: string, path: string): (url: string)
    ensures EndsWith(url, path)
    ensures StartsWith(url, projectUrl)
  {
    projectUrl + "/storage/v1/object/public/uploads/" + path
  }

  /** The public URL of an upload still ends in the file's extension. */
  lemma PublicUrlKeepsExtension(projectUrl: string, uuid: string, fileName: string)
    ensures AfterLastDot(PublicUrl(projectUrl, UploadPath(uuid, fileName))) == AfterLastDot(fileName)
  {
    var ext := AfterLastDot(fileName);
    var head := projectUrl + "/storage/v1/object/public/uploads/" + "images/" + uuid;
    assert PublicUrl(projectUrl, UploadPath(uuid, fileName)) == head + "." + ext;
    AfterLastDotOfJoin(head, ext);
  }
}
