/** The artifact key sanitiser and the local artifact store. The hash is a parameter, assumed injective
    where a result needs it; the file system is a map from paths to bytes. */
module ArtifactStore {
  import opened Domain

  type Bytes = seq<bv8>

  // ----- Keys ------------------------------------------------------------------------------------

  /** The whitelist `[A-Za-z0-9._/-]`. */
  predicate SafeChar(c: char) {
    'A' <= c <= 'Z' || 'a' <= c <= 'z' || '0' <= c <= '9' || c == '.' || c == '_' || c == '/' || c == '-'
  }

  /** `_SAFE_KEY.sub("_", key)` */
  function Clean(key: string): (s: string)
    ensures |s| == |key|
    ensures forall i :: 0 <= i < |s| ==> SafeChar(s[i])
  {
    seq(|key|, i requires 0 <= i < |key| => if SafeChar(key[i]) then key[i] else '_')
  }

  /** `s.split("/")`: never empty, and no piece holds a slash. */
  function Split(s: string): (parts: seq<string>)
    ensures parts != []
    ensures forall p :: p in parts ==> '/' !in p
    ensures (forall c :: c in s ==> SafeChar(c)) ==> forall p, c :: p in parts && c in p ==> SafeChar(c)
    decreases |s|
  {
    if s == [] then [""]
    else
      var rest := Split(s[1..]);
      if s[0] == '/' then [""] + rest else [[s[0]] + rest[0]] + rest[1..]
  }

  /** `"/".join(parts)` */
  function Join(parts: seq<string>): string {
    if parts == [] then ""
    else if |parts| == 1 then parts[0]
    else parts[0] + "/" + Join(parts[1..])
  }

  predicate KeptSegment(p: string) {
    p != "" && p != "." && p != ".."
  }

  function KeptSegments(parts: seq<string>): (kept: seq<string>)
    ensures forall p :: p in kept ==> p in parts && KeptSegment(p)
    ensures (forall p :: p in parts ==> KeptSegment(p)) ==> kept == parts
  {
    if parts == [] then []
    else (if KeptSegment(parts[0]) then [parts[0]] else []) + KeptSegments(parts[1..])
  }

  /** The key with every unsafe character replaced and every empty, `.` or `..` segment removed;
      `None` stands for the ValueError when no segment is left. */
  function SanitizeKey(key: string): Option<string> {
    var parts := KeptSegments(Split(Clean(key)));
    if parts == [] then None else Some(Join(parts))
  }

  predicate SafeSegment(p: string) {
    KeptSegment(p) && '/' !in p && forall c :: c in p ==> SafeChar(c)
  }

  lemma {:induction false} SegmentsKeptApart(a: seq<string>, b: seq<string>)
    ensures KeptSegments(a + b) == KeptSegments(a) + KeptSegments(b)
  {
    if a == [] {
      assert a + b == b;
    } else {
      var s := a + b;
      assert s[0] == a[0] && s[1..] == a[1..] + b;
      SegmentsKeptApart(a[1..], b);
    }
  }

  lemma SegmentKept(p: string)
    ensures KeptSegments([p]) == if p == "" || p == "." || p == ".." then [] else [p]
  {
    assert [p][1..] == [];
  }

  /** Segments are kept or dropped one by one, wherever they stand. */
  lemma SegmentsKeptOneByOne(before: seq<string>, p: string, after: seq<string>)
    ensures KeptSegments(before + [p] + after) ==
            KeptSegments(before) + (if p == "" || p == "." || p == ".." then [] else [p]) + KeptSegments(after)
  {
    SegmentsKeptApart(before + [p], after);
    SegmentsKeptApart(before, [p]);
    SegmentKept(p);
  }

  /** Splitting a slash-free piece followed by a slash peels that piece off. */
  lemma {:induction false} SplitPeels(p: string, rest: string)
    requires '/' !in p
    ensures Split(p + "/" + rest) == [p] + Split(rest)
  {
    var s := p + "/" + rest;
    if p == [] {
      assert s[1..] == rest;
    } else {
      assert s[0] == p[0] && s[1..] == p[1..] + "/" + rest;
      SplitPeels(p[1..], rest);
      assert [p[0]] + p[1..] == p;
    }
  }

  lemma {:induction false} SplitOfPiece(p: string)
    requires '/' !in p
    ensures Split(p) == [p]
  {
    if p != [] {
      SplitOfPiece(p[1..]);
      assert [p[0]] + p[1..] == p;
    }
  }

  /** Split undoes join on slash-free pieces. */
  lemma {:induction false} SplitUndoesJoin(parts: seq<string>)
    requires parts != [] && forall p :: p in parts ==> '/' !in p
    ensures Split(Join(parts)) == parts
  {
    if |parts| == 1 {
      SplitOfPiece(parts[0]);
    } else {
      SplitUndoesJoin(parts[1..]);
      SplitPeels(parts[0], Join(parts[1..]));
      assert parts == [parts[0]] + parts[1..];
    }
  }

  /** Join undoes split on every string. */
  lemma {:induction false} JoinUndoesSplit(s: string)
    ensures Join(Split(s)) == s
  {
    if s != [] {
      JoinUndoesSplit(s[1..]);
      var rest := Split(s[1..]);
      if s[0] == '/' {
        assert ([""] + rest)[1..] == rest;
        assert s == "/" + s[1..];
      } else {
        var parts := [[s[0]] + rest[0]] + rest[1..];
        assert parts[1..] == rest[1..];
        assert s == [s[0]] + s[1..];
      }
    }
  }

  lemma {:induction false} JoinIsSafe(parts: seq<string>)
    requires forall p :: p in parts ==> SafeSegment(p)
    ensures forall c :: c in Join(parts) ==> SafeChar(c)
  {
    if parts != [] {
      assert SafeSegment(parts[0]);
      JoinIsSafe(parts[1..]);
    }
  }

  lemma CleanOfSafe(s: string)
    requires forall c :: c in s ==> SafeChar(c)
    ensures Clean(s) == s
  {
  }

  /** A sanitised key is made of safe segments: none empty, none a traversal, none holding a slash. */
  lemma SanitizedSegments(key: string)
    requires SanitizeKey(key).Some?
    ensures var parts := KeptSegments(Split(Clean(key)));
            parts != [] && SanitizeKey(key).value == Join(parts) && (forall p :: p in parts ==> SafeSegment(p))
  {
    var cleaned := Clean(key);
    assert forall c :: c in cleaned ==> SafeChar(c);
  }

  /** Sanitising is idempotent for every string. */
  lemma SanitizeIdempotent(key: string)
    requires SanitizeKey(key).Some?
    ensures SanitizeKey(SanitizeKey(key).value) == SanitizeKey(key)
  {
    SanitizedSegments(key);
    var parts := KeptSegments(Split(Clean(key)));
    JoinIsSafe(parts);
    CleanOfSafe(Join(parts));
    SplitUndoesJoin(parts);
  }

  /** A key is left alone exactly when it already consists of safe segments only. */
  lemma SanitizeFixesExactlySafeKeys(key: string)
    ensures SanitizeKey(key) == Some(key) <==>
            (forall p :: p in Split(key) ==> SafeSegment(p))
  {
    if forall p :: p in Split(key) ==> SafeSegment(p) {
      JoinUndoesSplit(key);
      JoinIsSafe(Split(key));
      CleanOfSafe(key);
    }
    if SanitizeKey(key) == Some(key) {
      SanitizedSegments(key);
      SplitUndoesJoin(KeptSegments(Split(Clean(key))));
    }
  }

  // ----- Paths -----------------------------------------------------------------------------------

  /** `Path.resolve` on segments: `.` stays, `..` goes up, anything else goes down. */
  function Resolve(segments: seq<string>): seq<string> {
    if segments == [] then []
    else
      var base := Resolve(segments[..|segments| - 1]);
      var last := segments[|segments| - 1];
      if last == "" || last == "." then base
      else if last == ".." then (if base == [] then [] else base[..|base| - 1])
      else base + [last]
  }

  lemma {:induction false} ResolveKeepsSafeTail(root: seq<string>, parts: seq<string>)
    requires forall p :: p in parts ==> KeptSegment(p)
    ensures Resolve(root + parts) == Resolve(root) + parts
  {
    if parts == [] {
      assert root + parts == root;
    } else {
      var init := parts[..|parts| - 1];
      assert (root + parts)[..|root + parts| - 1] == root + init;
      ResolveKeepsSafeTail(root, init);
      var last := parts[|parts| - 1];
      assert last in parts && (root + parts)[|root + parts| - 1] == last;
      assert parts == init + [last];
      assert Resolve(root + parts) == Resolve(root) + init + [last];
    }
  }

  /** The escape check of `_path_for` never fires: a sanitised key resolves strictly below the root. */
  lemma PathStaysBelowRoot(root: seq<string>, key: string)
    requires SanitizeKey(key).Some?
    ensures var path := Resolve(root + Split(SanitizeKey(key).value));
            Resolve(root) < path && path == Resolve(root) + Split(SanitizeKey(key).value)
  {
    SanitizedSegments(key);
    var parts := KeptSegments(Split(Clean(key)));
    SplitUndoesJoin(parts);
    ResolveKeepsSafeTail(root, parts);
  }

  // ----- The store ---------------------------------------------------------------------------------

  datatype ArtifactRef = ArtifactRef(key: string, checksum: string, sizeBytes: nat)

  datatype StoreError = BadKey | NotFound | ChecksumMismatch

  datatype GetResult = Data(bytes: Bytes) | Refused(error: StoreError)

  ghost predicate Injective(hash: Bytes -> string) {
    forall a, b :: hash(a) == hash(b) ==> a == b
  }

  class LocalArtifactStore {
    const hash: Bytes -> string
    var files: map<string, Bytes>

    constructor (hash: Bytes -> string)
      ensures files == map[] && this.hash == hash
    {
      files := map[];
      this.hash := hash;
    }

    method PutBytes(key: string, data: Bytes) returns (ref: Option<ArtifactRef>)
      modifies this
      ensures ref == Issued(hash, key, data)
      ensures files == Stored(old(files), key, data)
    {
      var safe := SanitizeKey(key);
      if safe.None? {
        return None;
      }
      files := files[safe.value := data];
      ref := Some(ArtifactRef(safe.value, hash(data), |data|));
    }

    method GetBytes(ref: ArtifactRef) returns (r: GetResult)
      ensures r == Fetched(hash, files, ref)
    {
      var safe := SanitizeKey(ref.key);
      if safe.None? {
        return Refused(BadKey);
      }
      if safe.value !in files {
        return Refused(NotFound);
      }
      var data := files[safe.value];
      if hash(data) != ref.checksum {
        return Refused(ChecksumMismatch);
      }
      r := Data(data);
    }
  }

  function Issued(hash: Bytes -> string, key: string, data: Bytes): Option<ArtifactRef> {
    match SanitizeKey(key)
    case None => None
    case Some(safe) => Some(ArtifactRef(safe, hash(data), |data|))
  }

  function Stored(files: map<string, Bytes>, key: string, data: Bytes): map<string, Bytes> {
    match SanitizeKey(key)
    case None => files
    case Some(safe) => files[safe := data]
  }

  function Fetched(hash: Bytes -> string, files: map<string, Bytes>, ref: ArtifactRef): GetResult {
    match SanitizeKey(ref.key)
    case None => Refused(BadKey)
    case Some(safe) =>
      if safe !in files then Refused(NotFound)
      else if hash(files[safe]) != ref.checksum then Refused(ChecksumMismatch)
      else Data(files[safe])
  }

  datatype Put = Put(key: string, data: Bytes)

  /** The files after a run of puts. */
  function FilesAfter(files: map<string, Bytes>, puts: seq<Put>): map<string, Bytes> {
    if puts == [] then files
    else Stored(FilesAfter(files, puts[..|puts| - 1]), puts[|puts| - 1].key, puts[|puts| - 1].data)
  }

  /** The bytes last put under a sanitised key, if any put after the first used it. */
  function LastPut(first: Bytes, safe: string, puts: seq<Put>): Bytes {
    if puts == [] then first
    else if SanitizeKey(puts[|puts| - 1].key) == Some(safe) then puts[|puts| - 1].data
    else LastPut(first, safe, puts[..|puts| - 1])
  }

  lemma {:induction false} FileHoldsLastPut(files: map<string, Bytes>, safe: string, puts: seq<Put>)
    requires safe in files
    ensures safe in FilesAfter(files, puts)
    ensures FilesAfter(files, puts)[safe] == LastPut(files[safe], safe, puts)
  {
    if puts != [] {
      FileHoldsLastPut(files, safe, puts[..|puts| - 1]);
    }
  }

  /** Whatever is put before and after, a reference never yields bytes other than those it was issued
      for; and it yields them exactly when the last put under its key left those same bytes there.
      Otherwise the checksum refuses. */
  lemma RefNeverYieldsOtherBytes(hash: Bytes -> string, files: map<string, Bytes>, put: Put, later: seq<Put>)
    requires Injective(hash) && Issued(hash, put.key, put.data).Some?
    ensures var ref := Issued(hash, put.key, put.data).value;
            var got := Fetched(hash, FilesAfter(Stored(files, put.key, put.data), later), ref);
            && (got.Data? ==> got.bytes == put.data)
            && (got.Data? <==> LastPut(put.data, ref.key, later) == put.data)
            && (got.Refused? ==> got.error == ChecksumMismatch)
  {
    SanitizeIdempotent(put.key);
    var ref := Issued(hash, put.key, put.data).value;
    FileHoldsLastPut(Stored(files, put.key, put.data), ref.key, later);
  }
}
