/** The upload endpoint (`upload_file`): the request checks, the object
    key made of a random token and the file's extension, and the public
    URL derived from the bucket and the key. */
module Upload {
  import opened Http

  /** The index of the last `c` in `s`, or -1 (Python's `str.rfind`). */
  function LastIndexOf(s: string, c: char): (i: int)
    ensures -1 <= i < |s|
    ensures 0 <= i ==> s[i] == c
    ensures forall j :: i < j < |s| ==> s[j] != c
  {
    if s == [] then -1
    else if s[|s| - 1] == c then |s| - 1
    else LastIndexOf(s[..|s| - 1], c)
  }

  predicate AllDots(s: string) {
    forall i :: 0 <= i < |s| ==> s[i] == '.'
  }

  /** Where `os.path.splitext` (POSIX separators) cuts a path: at the
      last dot of the last path component, unless only dots precede that
      dot in the component (so `.bashrc` has no extension); `|p|` when
      there is no extension. */
  function ExtensionStart(p: string): (k: nat)
    ensures k <= |p|
    ensures k < |p| ==> p[k] == '.'
    ensures forall j :: k < j < |p| ==> p[j] != '.' && p[j] != '/'
  {
    var sepIndex := LastIndexOf(p, '/');
    var dotIndex := LastIndexOf(p, '.');
    if dotIndex > sepIndex && !AllDots(p[sepIndex + 1..dotIndex]) then dotIndex else |p|
  }

  /** `os.path.splitext(p)`: the root and the extension. */
  function SplitExt(p: string): (parts: (string, string))
    ensures parts.0 + parts.1 == p
  {
    var k := ExtensionStart(p);
    assert p[..k] + p[k..] == p;
    (p[..k], p[k..])
  }

  function Extension(filename: string): (ext: string)
    ensures ext != "" ==> ext[0] == '.'
    ensures forall i :: 1 <= i < |ext| ==> ext[i] != '.'
    ensures forall i :: 0 <= i < |ext| ==> ext[i] != '/'
  {
    var k := ExtensionStart(filename);
    assert forall i :: 0 <= i < |filename| - k ==> filename[k..][i] == filename[k + i];
    SplitExt(filename).1
  }

  /** The object key: the token, then the uploaded file's extension. */
  function Key(token: string, filename: string): string {
    token + Extension(filename)
  }

  function UrlPrefix(bucket: string): string {
    "https://" + bucket + ".s3.amazonaws.com/"
  }

  /** The public URL of an object, derived from the bucket and the key. */
  function Url(bucket: string, key: string): string {
    UrlPrefix(bucket) + key
  }

  lemma LastIndexOfIs(s: string, c: char, i: nat)
    requires i < |s| && s[i] == c
    requires forall j :: i < j < |s| ==> s[j] != c
    ensures LastIndexOf(s, c) == i
  {
  }

  lemma LastIndexOfBefore(s: string, c: char, lo: int)
    requires forall j :: 0 <= lo <= j < |s| ==> s[j] != c
    ensures LastIndexOf(s, c) < lo || lo < 0
  {
  }

  lemma NotAllDots(s: string, lo: nat, hi: nat, k: nat)
    requires lo <= k < hi <= |s| && s[k] != '.'
    ensures !AllDots(s[lo..hi])
  {
    assert s[lo..hi][k - lo] == s[k];
  }

  /** A name whose last component has a non-dot character before its last
      dot has the text from that dot on as its extension. */
  lemma ExtensionOfNamedFile(dir: string, stem: string, ext: string)
    requires forall i :: 0 <= i < |stem| ==> stem[i] != '/'
    requires !AllDots(stem)
    requires forall i :: 0 <= i < |ext| ==> ext[i] != '.' && ext[i] != '/'
    ensures SplitExt(dir + stem + "." + ext) == (dir + stem, "." + ext)
  {
    var p := dir + stem + "." + ext;
    var d := |dir| + |stem|;
    assert p[d] == '.';
    assert forall j :: d < j < |p| ==> p[j] == ext[j - d - 1];
    LastIndexOfIs(p, '.', d);
    assert forall j :: |dir| <= j < d ==> p[j] == stem[j - |dir|];
    LastIndexOfBefore(p, '/', |dir|);
    var sepIndex := LastIndexOf(p, '/');
    var k :| 0 <= k < |stem| && stem[k] != '.';
    NotAllDots(p, sepIndex + 1, d, |dir| + k);
    assert p[..d] == dir + stem;
    assert p[d..] == "." + ext;
  }

  /** A name without a dot has no extension. */
  lemma NoDotNoExtension(filename: string)
    requires forall i :: 0 <= i < |filename| ==> filename[i] != '.'
    ensures Extension(filename) == ""
  {
  }

  /** The last separator of `dir + rest` is the last character of `dir`
      when `rest` has none. */
  lemma LastSeparatorOf(dir: string, rest: string)
    requires dir == [] || dir[|dir| - 1] == '/'
    requires forall i :: 0 <= i < |rest| ==> rest[i] != '/'
    ensures LastIndexOf(dir + rest, '/') == |dir| - 1
  {
    var p := dir + rest;
    assert forall j :: |dir| <= j < |p| ==> p[j] == rest[j - |dir|];
    if dir == [] {
      LastIndexOfBefore(p, '/', 0);
    } else {
      LastIndexOfIs(p, '/', |dir| - 1);
    }
  }

  /** Leading dots do not start an extension: `.bashrc`, `..` and
      `dir/.bashrc` have none. The last component is `dots + name`, so
      what precedes it is empty or ends with a separator. */
  lemma DotfileHasNoExtension(dir: string, dots: string, name: string)
    requires dir == [] || dir[|dir| - 1] == '/'
    requires AllDots(dots)
    requires forall i :: 0 <= i < |name| ==> name[i] != '.' && name[i] != '/'
    ensures Extension(dir + dots + name) == ""
  {
    var rest := dots + name;
    var p := dir + rest;
    assert p == dir + dots + name;
    var s := |dir|;
    assert forall j :: 0 <= j < |rest| ==> rest[j] == if j < |dots| then dots[j] else name[j - |dots|];
    LastSeparatorOf(dir, rest);
    assert forall j :: s <= j < |p| ==> p[j] == rest[j - s];
    LastIndexOfBefore(p, '.', s + |dots|);
    var dotIndex := LastIndexOf(p, '.');
    if dotIndex > s - 1 {
      assert AllDots(p[s..dotIndex]);
    }
  }

  /** The key keeps the uploaded file's extension, so a reader of the key
      sees the same extension as the uploader's file name had. */
  lemma KeyKeepsExtension(token: string, filename: string)
    requires token != ""
    requires forall i :: 0 <= i < |token| ==> token[i] != '.' && token[i] != '/'
    ensures Extension(Key(token, filename)) == Extension(filename)
  {
    var ext := Extension(filename);
    if ext == "" {
      assert Key(token, filename) == token;
      NoDotNoExtension(token);
    } else {
      TokenThenExtension(token, ext);
    }
  }

  lemma TokenThenExtension(token: string, ext: string)
    requires token != ""
    requires forall i :: 0 <= i < |token| ==> token[i] != '.' && token[i] != '/'
    requires ext != "" && ext[0] == '.'
    requires forall i :: 1 <= i < |ext| ==> ext[i] != '.' && ext[i] != '/'
    ensures Extension(token + ext) == ext
  {
    assert token[0] != '.';
    var e := ext[1..];
    assert forall i :: 0 <= i < |e| ==> e[i] == ext[i + 1];
    assert "" + token + "." + e == token + ext;
    ExtensionOfNamedFile("", token, e);
  }

  /** The client's file name cannot put a path separator into the key. */
  lemma KeyHasNoSlash(token: string, filename: string)
    requires forall i :: 0 <= i < |token| ==> token[i] != '/'
    ensures forall i :: 0 <= i < |Key(token, filename)| ==> Key(token, filename)[i] != '/'
  {
  }

  /** Distinct keys in one bucket have distinct URLs, and the key is what
      follows the bucket's prefix. */
  lemma UrlDeterminesKey(bucket: string, key1: string, key2: string)
    ensures Url(bucket, key1)[|UrlPrefix(bucket)|..] == key1
    ensures Url(bucket, key1) == Url(bucket, key2) ==> key1 == key2
  {
    assert Url(bucket, key1)[|UrlPrefix(bucket)|..] == key1;
    assert Url(bucket, key2)[|UrlPrefix(bucket)|..] == key2;
  }

  /** The one call made to the object store. */
  datatype PutObject = PutObject(bucket: string, key: string)

  /** The body of an upload reply: the object's URL, or an error. */
  datatype UploadPayload = FileUrl(url: string) | ErrorJson(message: string)

  /** The reply, and the store call made on the way if any. */
  datatype UploadOutcome = UploadOutcome(reply: Reply<UploadPayload>, put: Option<PutObject>)

  /** `upload_file`. `files` maps each multipart field to its file name,
      `token` stands for `str(uuid4())`, and `failure` is the message of
      the store's exception when the upload fails. */
  function UploadFile(files: map<string, string>, token: string, bucket: string, failure: Option<string>)
    : (r: UploadOutcome)
    ensures r.put.Some? <==> "file" in files && files["file"] != ""
    ensures "file" !in files ==> r.reply == Reply(BAD_REQUEST, ErrorJson("No file part"))
    ensures "file" in files && files["file"] == "" ==> r.reply == Reply(BAD_REQUEST, ErrorJson("No selected file"))
    ensures r.put.Some? ==>
      && r.put.value == PutObject(bucket, token + Extension(files["file"]))
      && (failure.None? ==> r.reply == Reply(CREATED, FileUrl(Url(bucket, r.put.value.key))))
      && (failure.Some? ==> r.reply == Reply(SERVER_ERROR, ErrorJson(failure.value)))
  {
    if "file" !in files then
      UploadOutcome(Reply(BAD_REQUEST, ErrorJson("No file part")), None)
    else if files["file"] == "" then
      UploadOutcome(Reply(BAD_REQUEST, ErrorJson("No selected file")), None)
    else
      var key := Key(token, files["file"]);
      var reply := match failure
        case None => Reply(CREATED, FileUrl(Url(bucket, key)))
        case Some(message) => Reply(SERVER_ERROR, ErrorJson(message));
      UploadOutcome(reply, Some(PutObject(bucket, key)))
  }
}
