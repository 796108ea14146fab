/**
 * The content-addressed icon cache behind `CreateImageUri`: a notification icon arrives as
 * base64 text plus a MIME type, is decoded, hashed with SHA-256 and stored once under
 * `<app>/temp/iconCache/<hex digest>.<ext>`; an in-memory map from the base64 text to the
 * resulting file URI short-cuts repeated payloads. Base64 decoding and SHA-256 are library
 * calls and are parameters here (`Platform`); the file system is the set of existing paths.
 */
module IconCache {
  import opened Maybe
  import opened Strings

  type byte = x: int | 0 <= x < 256

  /** A SHA-256 digest: 32 bytes. */
  type Digest = s: seq<byte> | |s| == 32 witness seq(32, i => 0 as byte)

  /** The environment: the application directory and the two library functions used. */
  datatype Platform = Platform(
    appDirectory: string,
    decodeBase64: string -> Option<seq<byte>>,  // `Convert.FromBase64String`; None: it throws
    sha256: seq<byte> -> Digest)

  // ---------------------------------------------------------------------------------------
  // The digest as text: BitConverter.ToString(hash).Replace("-", "").ToLower()

  function UpperDigit(n: int): char
    requires 0 <= n < 16
  {
    if n < 10 then ('0' as int + n) as char else ('A' as int + n - 10) as char
  }

  function LowerDigit(n: int): char
    requires 0 <= n < 16
  {
    if n < 10 then ('0' as int + n) as char else ('a' as int + n - 10) as char
  }

  predicate IsLowerHexDigit(c: char) {
    '0' <= c <= '9' || 'a' <= c <= 'f'
  }

  /** `BitConverter.ToString`: upper-case pairs separated by dashes, e.g. "0A-FF". */
  function BitConverterToString(b: seq<byte>): string
    decreases |b|
  {
    if |b| == 0 then ""
    else if |b| == 1 then [UpperDigit(b[0] / 16), UpperDigit(b[0] % 16)]
    else [UpperDigit(b[0] / 16), UpperDigit(b[0] % 16)] + "-" + BitConverterToString(b[1..])
  }

  /** The digest text as the source computes it: plain lower-case hex of the bytes. */
  function HashString(b: seq<byte>): (h: string)
    ensures h == LowerHex(b)
  {
    DigestTextIsLowerHex(b);
    ToLower(RemoveChar(BitConverterToString(b), '-'))
  }

  /** Plain lower-case hexadecimal, two digits per byte. */
  function LowerHex(b: seq<byte>): (h: string)
    ensures |h| == 2 * |b|
    ensures forall i :: 0 <= i < |h| ==> IsLowerHexDigit(h[i])
    decreases |b|
  {
    if |b| == 0 then "" else [LowerDigit(b[0] / 16), LowerDigit(b[0] % 16)] + LowerHex(b[1..])
  }

  lemma PairLowered(x: byte)
    ensures ToLower(RemoveChar([UpperDigit(x / 16), UpperDigit(x % 16)], '-'))
            == [LowerDigit(x / 16), LowerDigit(x % 16)]
  {
    var pair := [UpperDigit(x / 16), UpperDigit(x % 16)];
    RemoveCharAbsent(pair, '-');
    assert ToLower(pair) == [LowerChar(pair[0])] + ToLower(pair[1..]);
    assert ToLower(pair[1..]) == [LowerChar(pair[1])] + ToLower(pair[2..]);
  }

  /** Dashes removed and lower-cased, `BitConverter.ToString` is plain lower-case hex. */
  lemma {:induction false} DigestTextIsLowerHex(b: seq<byte>)
    ensures ToLower(RemoveChar(BitConverterToString(b), '-')) == LowerHex(b)
    decreases |b|
  {
    if |b| == 1 {
      PairLowered(b[0]);
      assert LowerHex(b[1..]) == "";
    } else if |b| > 1 {
      var pair := [UpperDigit(b[0] / 16), UpperDigit(b[0] % 16)];
      var rest := BitConverterToString(b[1..]);
      calc {
        ToLower(RemoveChar(BitConverterToString(b), '-'));
        ToLower(RemoveChar(pair + "-" + rest, '-'));
        { RemoveCharConcat(pair + "-", rest, '-'); RemoveCharConcat(pair, "-", '-'); }
        ToLower(RemoveChar(pair, '-') + RemoveChar("-", '-') + RemoveChar(rest, '-'));
        { assert RemoveChar("-", '-') == ""; }
        ToLower(RemoveChar(pair, '-') + RemoveChar(rest, '-'));
        { ToLowerConcat(RemoveChar(pair, '-'), RemoveChar(rest, '-')); }
        ToLower(RemoveChar(pair, '-')) + ToLower(RemoveChar(rest, '-'));
        { PairLowered(b[0]); DigestTextIsLowerHex(b[1..]); }
        LowerHex(b);
      }
    }
  }

  lemma LowerDigitInjective(m: int, n: int)
    requires 0 <= m < 16 && 0 <= n < 16
    requires LowerDigit(m) == LowerDigit(n)
    ensures m == n
  {
    assert LowerDigit(m) as int == (if m < 10 then 48 + m else 87 + m);
    assert LowerDigit(n) as int == (if n < 10 then 48 + n else 87 + n);
  }

  /** Different byte strings have different hex digests texts. */
  lemma {:induction false} LowerHexInjective(a: seq<byte>, b: seq<byte>)
    requires LowerHex(a) == LowerHex(b)
    ensures a == b
    decreases |a|
  {
    if |a| > 0 {
      var ha, hb := LowerHex(a), LowerHex(b);
      assert ha[0] == LowerDigit(a[0] / 16) && hb[0] == LowerDigit(b[0] / 16);
      assert ha[1] == LowerDigit(a[0] % 16) && hb[1] == LowerDigit(b[0] % 16);
      LowerDigitInjective(a[0] / 16, b[0] / 16);
      LowerDigitInjective(a[0] % 16, b[0] % 16);
      assert a[0] == 16 * (a[0] / 16) + a[0] % 16;
      assert b[0] == 16 * (b[0] / 16) + b[0] % 16;
      assert LowerHex(a[1..]) == ha[2..] == hb[2..] == LowerHex(b[1..]);
      LowerHexInjective(a[1..], b[1..]);
      assert a == [a[0]] + a[1..] && b == [b[0]] + b[1..];
    }
  }

  // ---------------------------------------------------------------------------------------
  // The file extension: Regex.Match(mime, @"image/(?<ext>\w+)").Groups["ext"].Value

  /** `\w`, restricted to ASCII: letters, digits and underscore. */
  predicate IsWordChar(c: char) {
    'a' <= c <= 'z' || 'A' <= c <= 'Z' || '0' <= c <= '9' || c == '_'
  }

  /** The longest prefix of `s` made of word characters (the greedy `\w+`). */
  function WordPrefix(s: string): (w: string)
    ensures StartsWith(s, w)
    ensures forall i :: 0 <= i < |w| ==> IsWordChar(w[i])
    ensures |w| == |s| || !IsWordChar(s[|w|])
    decreases |s|
  {
    if |s| > 0 && IsWordChar(s[0]) then [s[0]] + WordPrefix(s[1..]) else ""
  }

  /** The pattern matches at index `i`: "image/" followed by at least one word character. */
  predicate ImageAt(m: string, i: int) {
    0 <= i && i + 7 <= |m| && m[i..i + 6] == "image/" && IsWordChar(m[i + 6])
  }

  lemma ImageAtShift(m: string, i: int)
    requires 1 <= i && |m| > 0
    ensures ImageAt(m, i) <==> ImageAt(m[1..], i - 1)
  {
    if i + 7 <= |m| {
      assert m[1..][i - 1..i + 5] == m[i..i + 6];
      assert m[1..][i - 1 + 6] == m[i + 6];
    }
  }

  /** Without a match at index 0, `m` matches somewhere exactly when its tail does. */
  lemma ImageAtTail(m: string)
    requires |m| > 0 && !ImageAt(m, 0)
    ensures (exists i :: ImageAt(m, i)) <==> (exists j :: ImageAt(m[1..], j))
  {
    if i :| ImageAt(m, i) {
      ImageAtShift(m, i);
    }
    if j :| ImageAt(m[1..], j) {
      ImageAtShift(m, j + 1);
    }
  }

  /**
   * The `ext` group of the leftmost match: a run of word characters, empty exactly when the
   * pattern matches nowhere in `m`.
   */
  function MimeExtension(m: string): (ext: string)
    ensures forall i :: 0 <= i < |ext| ==> IsWordChar(ext[i])
    ensures ext != "" <==> exists i :: ImageAt(m, i)
    decreases |m|
  {
    if |m| == 0 then ""
    else if ImageAt(m, 0) then
      assert m[6..][0] == m[6];
      WordPrefix(m[6..])
    else
      ImageAtTail(m);
      MimeExtension(m[1..])
  }

  /** The extension is the greedy word run after the leftmost "image/" followed by one. */
  lemma {:induction false} MimeExtensionLeftmost(m: string, i: int)
    requires ImageAt(m, i)
    requires forall j :: 0 <= j < i ==> !ImageAt(m, j)
    ensures MimeExtension(m) == WordPrefix(m[i + 6..])
    decreases i
  {
    if i > 0 {
      assert !ImageAt(m, 0);
      assert MimeExtension(m) == MimeExtension(m[1..]);
      ImageAtShift(m, i);
      forall j | 0 <= j < i - 1
        ensures !ImageAt(m[1..], j)
      {
        ImageAtShift(m, j + 1);
      }
      MimeExtensionLeftmost(m[1..], i - 1);
      assert m[1..][i - 1 + 6..] == m[i + 6..];
    }
  }

  lemma PngExtension()
    ensures MimeExtension("image/png") == "png"
  {
    var m := "image/png";
    assert ImageAt(m, 0);
    assert m[6..] == "png";
    assert WordPrefix("png") == "p" + WordPrefix("ng");
    assert WordPrefix("ng") == "n" + WordPrefix("g");
    assert WordPrefix("g") == "g" + WordPrefix("");
  }

  // ---------------------------------------------------------------------------------------
  // Paths: System.IO.Path.Combine on Windows

  predicate IsSeparator(c: char) {
    c == '\\' || c == '/'
  }

  predicate IsDriveLetter(c: char) {
    'a' <= c <= 'z' || 'A' <= c <= 'Z'
  }

  /** `Path.IsPathRooted` on Windows. */
  predicate IsRooted(p: string) {
    (|p| >= 1 && IsSeparator(p[0])) || (|p| >= 2 && IsDriveLetter(p[0]) && p[1] == ':')
  }

  /** What `Combine(dir, ·)` puts in front of a relative name: `dir` and one separator. */
  function Lead(dir: string): string {
    if |dir| == 0 then "" else if IsSeparator(dir[|dir| - 1]) then dir else dir + "\\"
  }

  /**
   * `Path.Combine(first, second)`: an empty second part gives the first; a rooted second
   * part, or an empty first one, gives the second; otherwise the second part follows the
   * first with exactly the one separator `first` may already end with added.
   */
  function Combine(first: string, second: string): (r: string)
    ensures |second| == 0 ==> r == first
    ensures |second| > 0 && (|first| == 0 || IsRooted(second)) ==> r == second
    ensures |second| > 0 && |first| > 0 && !IsRooted(second) ==> r == Lead(first) + second
  {
    if |second| == 0 then first
    else if |first| == 0 then second
    else if IsRooted(second) then second
    else if IsSeparator(first[|first| - 1]) || IsSeparator(second[0]) then first + second
    else first + "\\" + second
  }

  /** A relative name under a directory that does not end in a separator gets one in between. */
  lemma CombineRelative(first: string, second: string)
    requires |first| > 0 && !IsSeparator(first[|first| - 1])
    requires |second| > 0 && !IsRooted(second)
    ensures Combine(first, second) == first + "\\" + second
  {
  }

  /** Two relative parts, the first not ending in a separator, are joined by one separator. */
  lemma CombineTwice(app: string, first: string, second: string)
    requires |first| > 0 && !IsRooted(first) && !IsSeparator(first[|first| - 1])
    requires |second| > 0 && !IsRooted(second)
    ensures Combine(Combine(app, first), second) == Lead(app) + first + "\\" + second
  {
    var dir := Combine(app, first);
    assert dir == Lead(app) + first;
    assert dir[|dir| - 1] == first[|first| - 1];
    CombineRelative(dir, second);
  }

  /** `tempFolderPath` combined with `iconCacheFolderName`: `temp\iconCache` under the application directory. */
  function CacheDirectory(p: Platform): (dir: string)
    ensures dir == Lead(p.appDirectory) + "temp" + "\\" + "iconCache"
  {
    CombineTwice(p.appDirectory, "temp", "iconCache");
    Combine(Combine(p.appDirectory, "temp"), "iconCache")
  }

  lemma CacheDirectoryEnd(p: Platform)
    ensures |CacheDirectory(p)| > 0 && CacheDirectory(p)[|CacheDirectory(p)| - 1] == 'e'
  {
    var dir := CacheDirectory(p);
    assert dir[|dir| - 1] == "iconCache"[8];
  }

  /** `$"{hashString}.{fileExtension}"`. */
  function FileName(d: Digest, mime: string): string {
    HashString(d) + "." + MimeExtension(mime)
  }

  /** A file name led by a hex digit goes under the directory after one separator. */
  lemma CombineFileName(dir: string, hex: string, ext: string)
    requires |dir| > 0 && !IsSeparator(dir[|dir| - 1])
    requires |hex| >= 2 && IsLowerHexDigit(hex[0]) && IsLowerHexDigit(hex[1])
    ensures Combine(dir, hex + "." + ext) == dir + "\\" + hex + "." + ext
  {
    var name := hex + "." + ext;
    assert name[0] == hex[0] && name[1] == hex[1];
    CombineRelative(dir, name);
    assert dir + "\\" + name == dir + "\\" + hex + "." + ext;
  }

  /**
   * `tempFilePath` for decoded bytes and a MIME type: the cache directory, a separator, the
   * 64 hex digits of the bytes' digest, a dot and the extension.
   */
  function TargetPath(p: Platform, bytes: seq<byte>, mime: string): (path: string)
    ensures path == CacheDirectory(p) + "\\" + LowerHex(p.sha256(bytes)) + "." + MimeExtension(mime)
  {
    var hex := HashString(p.sha256(bytes));
    CacheDirectoryEnd(p);
    CombineFileName(CacheDirectory(p), hex, MimeExtension(mime));
    Combine(CacheDirectory(p), FileName(p.sha256(bytes), mime))
  }

  /** The parts of `dir + hex + "." + ext` are recovered by position. */
  lemma PathParts(dir: string, hex: string, ext: string)
    ensures (dir + hex + "." + ext)[|dir|..|dir| + |hex|] == hex
    ensures (dir + hex + "." + ext)[|dir| + |hex| + 1..] == ext
  {
    var s := dir + hex + "." + ext;
    assert s == dir + (hex + ("." + ext));
    assert s[|dir|..] == hex + ("." + ext);
    assert s[|dir|..][..|hex|] == hex;
    assert s[|dir|..][|hex| + 1..] == ext;
  }

  /**
   * Equal target paths mean equal digests and equal extensions: the file name is
   * content-addressed (distinct digests never share a file).
   */
  lemma TargetPathInjective(p: Platform, b1: seq<byte>, m1: string, b2: seq<byte>, m2: string)
    requires TargetPath(p, b1, m1) == TargetPath(p, b2, m2)
    ensures p.sha256(b1) == p.sha256(b2)
    ensures MimeExtension(m1) == MimeExtension(m2)
  {
    var dir := CacheDirectory(p) + "\\";
    var h1, h2 := LowerHex(p.sha256(b1)), LowerHex(p.sha256(b2));
    var e1, e2 := MimeExtension(m1), MimeExtension(m2);
    PathParts(dir, h1, e1);
    PathParts(dir, h2, e2);
    assert dir + h1 + "." + e1 == dir + h2 + "." + e2;
    LowerHexInjective(p.sha256(b1), p.sha256(b2));
  }

  // ---------------------------------------------------------------------------------------
  // The cache state and one call of CreateImageUri

  /** `new Uri(tempFilePath)`. */
  datatype IconUri = FileUri(path: string)

  /** `onMemoryIconCache`, the existing files, and the log of file writes. */
  datatype CacheState = CacheState(memory: map<string, IconUri>, files: set<string>, writes: seq<string>)

  datatype Resolution = Resolution(state: CacheState, uri: Option<IconUri>)

  /** The memorised URI of `key` names the file of its decoded bytes' digest. */
  ghost predicate Addressed(p: Platform, key: string, uri: IconUri) {
    p.decodeBase64(key).Some? &&
    exists mime :: uri.path == TargetPath(p, p.decodeBase64(key).value, mime)
  }

  /**
   * The cache invariant: no path is written twice, written paths exist, and every memorised
   * URI names an existing, content-addressed file.
   */
  ghost predicate Inv(p: Platform, st: CacheState) {
    && (forall i, j :: 0 <= i < j < |st.writes| ==> st.writes[i] != st.writes[j])
    && (forall i :: 0 <= i < |st.writes| ==> st.writes[i] in st.files)
    && (forall k :: k in st.memory ==> st.memory[k].path in st.files && Addressed(p, k, st.memory[k]))
  }

  /**
   * One call of `CreateImageUri(iconBase64, iconMimeType)`; `writeSucceeds` is the outcome of
   * `File.WriteAllBytes`, which is only attempted when the target path does not exist.
   */
  function Resolve(p: Platform, st: CacheState, iconBase64: Option<string>, iconMimeType: Option<string>,
                   writeSucceeds: bool): (r: Resolution)
    // no icon, or any failure: null, and nothing changes
    ensures IsNullOrEmpty(iconBase64) || IsNullOrEmpty(iconMimeType) ==> r.uri.None?
    ensures r.uri.None? ==> r.state == st
    // success: the input's entry is (re)set to the result, nothing else in the map changes,
    // the file exists, files only grow, and at most one new path is written
    ensures r.uri.Some? ==> r.state.memory == st.memory[iconBase64.value := r.uri.value]
    ensures r.uri.Some? && iconBase64.value !in st.memory ==>
              r.uri.value.path in r.state.files && r.state.files == st.files + {r.uri.value.path}
    ensures r.state.writes == st.writes ||
            (r.uri.Some? && r.uri.value.path !in st.files && r.state.writes == st.writes + [r.uri.value.path])
    // a memorised payload is answered from memory alone
    ensures !IsNullOrEmpty(iconBase64) && !IsNullOrEmpty(iconMimeType) && iconBase64.value in st.memory ==>
              r == Resolution(st, Some(st.memory[iconBase64.value]))
    // otherwise: undecodable input gives null; decodable input gives its content-addressed path
    ensures !IsNullOrEmpty(iconBase64) && !IsNullOrEmpty(iconMimeType) && iconBase64.value !in st.memory ==>
              if p.decodeBase64(iconBase64.value).None? then r.uri.None?
              else
                var path := TargetPath(p, p.decodeBase64(iconBase64.value).value, iconMimeType.value);
                && (r.uri.Some? <==> path in st.files || writeSucceeds)
                && (r.uri.Some? ==> r.uri.value == FileUri(path))
                && (r.state.writes == st.writes + [path] <==> r.uri.Some? && path !in st.files)
  {
    if IsNullOrEmpty(iconBase64) || IsNullOrEmpty(iconMimeType) then Resolution(st, None)
    else
      var key, mime := iconBase64.value, iconMimeType.value;
      if key in st.memory then Resolution(st, Some(st.memory[key]))
      else
        match p.decodeBase64(key)
        case None => Resolution(st, None)
        case Some(bytes) =>
          var path := TargetPath(p, bytes, mime);
          if path in st.files then
            Resolution(st.(memory := st.memory[key := FileUri(path)]), Some(FileUri(path)))
          else if !writeSucceeds then
            Resolution(st, None)
          else
            Resolution(CacheState(st.memory[key := FileUri(path)], st.files + {path}, st.writes + [path]),
                       Some(FileUri(path)))
  }

  /** Every call keeps the cache invariant. */
  lemma ResolvePreservesInv(p: Platform, st: CacheState, iconBase64: Option<string>,
                            iconMimeType: Option<string>, writeSucceeds: bool)
    requires Inv(p, st)
    ensures Inv(p, Resolve(p, st, iconBase64, iconMimeType, writeSucceeds).state)
  {
    var r := Resolve(p, st, iconBase64, iconMimeType, writeSucceeds);
    if r.uri.Some? && !IsNullOrEmpty(iconBase64) && !IsNullOrEmpty(iconMimeType) && iconBase64.value !in st.memory {
      var key, mime := iconBase64.value, iconMimeType.value;
      assert TargetPath(p, p.decodeBase64(key).value, mime) == r.uri.value.path;
      assert Addressed(p, key, r.uri.value);
      forall k | k in r.state.memory
        ensures r.state.memory[k].path in r.state.files && Addressed(p, k, r.state.memory[k])
      {
      }
    }
  }

  /**
   * Two payloads that decode to the same bytes, offered with the same MIME type to a cache
   * that has not memorised them, resolve to the same URI, and the second call writes nothing.
   */
  lemma SameContentSameFile(p: Platform, st: CacheState, k1: string, k2: string, mime: string,
                            w1: bool, w2: bool)
    requires Inv(p, st)
    requires k1 != "" && k2 != "" && mime != ""
    requires k1 !in st.memory && (k2 == k1 || k2 !in st.memory)
    requires p.decodeBase64(k1).Some? && p.decodeBase64(k2) == p.decodeBase64(k1)
    ensures var r1 := Resolve(p, st, Some(k1), Some(mime), w1);
            var r2 := Resolve(p, r1.state, Some(k2), Some(mime), w2);
            r1.uri.Some? ==> r2.uri == r1.uri && r2.state.writes == r1.state.writes &&
                             |r2.state.writes| <= |st.writes| + 1
  {
  }

  /** Under the invariant, memorised payloads with different digests name different files. */
  lemma MemorisedDigestsDistinct(p: Platform, st: CacheState, k1: string, k2: string)
    requires Inv(p, st) && k1 in st.memory && k2 in st.memory
    requires p.decodeBase64(k1).Some? && p.decodeBase64(k2).Some?
    requires p.sha256(p.decodeBase64(k1).value) != p.sha256(p.decodeBase64(k2).value)
    ensures st.memory[k1] != st.memory[k2]
  {
    var b1, b2 := p.decodeBase64(k1).value, p.decodeBase64(k2).value;
    assert Addressed(p, k1, st.memory[k1]) && Addressed(p, k2, st.memory[k2]);
    var m1 :| st.memory[k1].path == TargetPath(p, b1, m1);
    var m2 :| st.memory[k2].path == TargetPath(p, b2, m2);
    if st.memory[k1] == st.memory[k2] {
      TargetPathInjective(p, b1, m1, b2, m2);
    }
  }

  /**
   * Two payloads with different digests, resolved one after the other, never share a file,
   * whatever their MIME types and whether either is answered from memory.
   */
  lemma DistinctDigestsDistinctFiles(p: Platform, st: CacheState, k1: string, m1: string, k2: string, m2: string,
                                     w1: bool, w2: bool)
    requires Inv(p, st)
    requires p.decodeBase64(k1).Some? && p.decodeBase64(k2).Some?
    requires p.sha256(p.decodeBase64(k1).value) != p.sha256(p.decodeBase64(k2).value)
    ensures var r1 := Resolve(p, st, Some(k1), Some(m1), w1);
            var r2 := Resolve(p, r1.state, Some(k2), Some(m2), w2);
            r1.uri.Some? && r2.uri.Some? ==> r1.uri != r2.uri
  {
    var r1 := Resolve(p, st, Some(k1), Some(m1), w1);
    var r2 := Resolve(p, r1.state, Some(k2), Some(m2), w2);
    if r1.uri.Some? && r2.uri.Some? {
      ResolvePreservesInv(p, st, Some(k1), Some(m1), w1);
      ResolvePreservesInv(p, r1.state, Some(k2), Some(m2), w2);
      assert k1 != k2;
      assert r2.state.memory[k1] == r1.uri.value && r2.state.memory[k2] == r2.uri.value;
      MemorisedDigestsDistinct(p, r2.state, k1, k2);
    }
  }

  /** `onMemoryIconCache` together with the icon-cache directory it fills. */
  class IconCache {
    const platform: Platform
    var memory: map<string, IconUri>
    var files: set<string>
    var writes: seq<string>

    function State(): CacheState
      reads this
    {
      CacheState(memory, files, writes)
    }

    ghost predicate Valid()
      reads this
    {
      Inv(platform, State())
    }

    /** An empty map over a directory that may already hold files from an earlier run. */
    constructor (platform: Platform, existing: set<string>)
      ensures Valid() && this.platform == platform
      ensures State() == CacheState(map[], existing, [])
    {
      this.platform := platform;
      memory, files, writes := map[], existing, [];
    }

    /** `CreateImageUri`. */
    method CreateImageUri(iconBase64: Option<string>, iconMimeType: Option<string>, writeSucceeds: bool)
      returns (uri: Option<IconUri>)
      requires Valid()
      modifies this
      ensures Valid()
      ensures Resolution(State(), uri) == Resolve(platform, old(State()), iconBase64, iconMimeType, writeSucceeds)
    {
      ResolvePreservesInv(platform, State(), iconBase64, iconMimeType, writeSucceeds);
      if IsNullOrEmpty(iconBase64) || IsNullOrEmpty(iconMimeType) {
        return None;
      }
      var key, mime := iconBase64.value, iconMimeType.value;
      if key in memory {
        return Some(memory[key]);
      }
      var decoded := platform.decodeBase64(key);
      if decoded.None? {
        // FormatException: caught, logged, no icon
        return None;
      }
      var bytes := decoded.value;
      var hash := HashString(platform.sha256(bytes));
      var ext := MimeExtension(mime);
      var path := Combine(CacheDirectory(platform), hash + "." + ext);
      assert path == TargetPath(platform, bytes, mime);
      if path !in files {
        if !writeSucceeds {
          // IOException from WriteAllBytes: caught, logged, no icon
          return None;
        }
        files := files + {path};
        writes := writes + [path];
      }
      var fileUri := FileUri(path);
      memory := memory[key := fileUri];
      return Some(fileUri);
    }
  }
}
