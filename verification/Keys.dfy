/**
 * The key spaces that share the "documents" bucket, and the paths and URIs built from them.
 * Document keys are bare file names, demo keys are generated names, overlay keys carry a batch id.
 */
module Keys {
  import opened Prelude

  const UPLOAD_DIR := "/upload/"
  const QUARANTINE_DIR := "/quarantine/"
  const URI_PREFIX := "s3://documents/"
  const MAX_FILE_SIZE_BYTES := 50 * 1024 * 1024

  // ---------------------------------------------------------------- identifiers

  predicate IsHexDigit(ch: char) {
    '0' <= ch <= '9' || 'a' <= ch <= 'f'
  }

  /** The text form of a UUID: 32 lower-case hexadecimal digits and four dashes. */
  predicate IsUuid(s: string) {
    |s| == 36 && forall i | 0 <= i < 36 :: if i in {8, 13, 18, 23} then s[i] == '-' else IsHexDigit(s[i])
  }

  type Uuid = s: string | IsUuid(s) witness "00000000-0000-0000-0000-000000000000"

  // ---------------------------------------------------------------- file names

  /** os.path.basename: what follows the last slash. The clauses leave no other choice of name. */
  function Basename(path: string): (name: string)
    ensures SlashFree(name) && EndsWith(path, name)
    ensures name != path ==> path[|path| - |name| - 1] == '/'
  {
    if path == "" || path[|path| - 1] == '/' then ""
    else
      assert path == path[..|path| - 1] + [path[|path| - 1]];
      Basename(path[..|path| - 1]) + [path[|path| - 1]]
  }

  /** A bare name is its own base name. */
  lemma {:induction false} BareBasename(name: string)
    requires SlashFree(name)
    ensures Basename(name) == name
  {
    if name != "" {
      var last := |name| - 1;
      assert name[last] in name;
      BareBasename(name[..last]);
      assert name == name[..last] + [name[last]];
    }
  }

  /** Joining a directory and a bare name and taking the base name gives the name back. */
  lemma {:induction false} BasenameOfJoin(dir: string, name: string)
    requires SlashFree(name)
    ensures Basename(dir + "/" + name) == name
  {
    var path := dir + "/" + name;
    var last := |path| - 1;
    if name == "" {
      assert path[last] == '/';
    } else {
      var front := name[..|name| - 1];
      assert path[..last] == dir + "/" + front;
      BasenameOfJoin(dir, front);
      assert name == front + [name[|name| - 1]];
    }
  }

  function LowerChar(ch: char): char {
    if 'A' <= ch <= 'Z' then ch - 'A' + 'a' else ch
  }

  function Lower(s: string): (r: string)
    ensures |r| == |s| && forall i | 0 <= i < |s| :: r[i] == LowerChar(s[i])
  {
    seq(|s|, i requires 0 <= i < |s| => LowerChar(s[i]))
  }

  predicate IsTiffName(name: string) {
    EndsWith(Lower(name), ".tiff") || EndsWith(Lower(name), ".tif")
  }

  predicate IsTiffMagic(head: Bytes) {
    [0x49, 0x49, 0x2A, 0x00] <= head || [0x4D, 0x4D, 0x00, 0x2A] <= head
  }

  /** Position of the last '.' of `s`, or -1. */
  function LastDot(s: string): (i: int)
    ensures -1 <= i < |s|
    ensures i >= 0 ==> s[i] == '.'
    ensures forall k | i < k < |s| :: s[k] != '.'
  {
    if s == "" then -1
    else if s[|s| - 1] == '.' then |s| - 1
    else LastDot(s[..|s| - 1])
  }

  /**
   * pathlib's stem of a bare file name: the name up to its last dot, unless that dot is its first or its last
   * character.
   * The clauses leave no other choice of stem.
   */
  function Stem(name: string): (stem: string)
    ensures stem <= name && (SlashFree(name) ==> SlashFree(stem))
    ensures stem != name ==> |stem| > 0 && |name| - |stem| > 1 && name[|stem|] == '.' && '.' !in name[|stem| + 1..]
    ensures stem == name ==> forall i | 0 < i < |name| - 1 && name[i] == '.' :: '.' in name[i + 1..]
  {
    var i := LastDot(name);
    if 0 < i < |name| - 1 then name[..i] else name
  }

  // ---------------------------------------------------------------- keys, paths, URIs

  function UploadPath(name: string): (path: string)
    ensures |path| == 8 + |name| && path[8..] == name && path[1] == 'u'
  {
    UPLOAD_DIR + name
  }

  function QuarantinePath(name: string): (path: string)
    ensures |path| == 12 + |name| && path[12..] == name && path[1] == 'q'
  {
    QUARANTINE_DIR + name
  }

  function DemoPath(name: string): (path: string)
    ensures |path| == 6 + |name| && path[6..] == name && path[1] == 'd'
  {
    "/demo/" + name
  }

  predicate IsDemoTag(tag: string) {
    |tag| == 8 && forall i | 0 <= i < 8 :: IsHexDigit(tag[i])
  }

  function DemoName(tag: string): string {
    "demo_" + tag + ".png"
  }

  function OverlayKey(batch: Uuid, filename: string): (key: string) {
    "batches/" + batch + "/overlays/" + Stem(filename) + ".overlay.png"
  }

  /** The URI `upload_file` returns. */
  function Uri(key: string): string {
    URI_PREFIX + key
  }

  /** The object key the overlay endpoint derives from a stored overlay path, if it accepts it. */
  function KeyOfUri(uri: string): Option<string> {
    if StartsWith(uri, URI_PREFIX) then Some(uri[|URI_PREFIX|..]) else None
  }

  // ---------------------------------------------------------------- what the protocol rests on

  /** Stripping the prefix inverts the URI of an upload, and accepts nothing else. */
  lemma UriRoundTrip(uri: string, key: string)
    ensures KeyOfUri(uri) == Some(key) <==> uri == Uri(key)
  {
  }

  /** Two overlay keys agree exactly when batch and stem agree: no batch writes over another's overlay. */
  lemma OverlayKeyInjective(b1: Uuid, f1: string, b2: Uuid, f2: string)
    ensures OverlayKey(b1, f1) == OverlayKey(b2, f2) <==> b1 == b2 && Stem(f1) == Stem(f2)
  {
    var k1, k2 := OverlayKey(b1, f1), OverlayKey(b2, f2);
    OverlayKeyParts(b1, f1);
    OverlayKeyParts(b2, f2);
  }

  /** A batch id and a stem can be read back from an overlay key. */
  lemma OverlayKeyParts(b: Uuid, f: string)
    ensures |OverlayKey(b, f)| == 66 + |Stem(f)|
    ensures OverlayKey(b, f)[8..44] == b
    ensures OverlayKey(b, f)[54..54 + |Stem(f)|] == Stem(f)
  {
  }

  /** The two directories are apart, and a path tells its name. */
  lemma PathsApart()
    ensures forall n, m :: QuarantinePath(n) != UploadPath(m)
    ensures forall n, m :: UploadPath(n) == UploadPath(m) ==> n == m
    ensures forall n, m :: QuarantinePath(n) == QuarantinePath(m) ==> n == m
  {
  }

  /** A document key is a bare name, so it never equals an overlay key. */
  lemma OverlayKeyHasSlash(b: Uuid, f: string)
    ensures !SlashFree(OverlayKey(b, f))
  {
  }

  /** A demo upload is a bare name that the ingest worker would refuse, so neither producer overwrites the other. */
  lemma DemoNameIsNoTiff(tag: string)
    requires IsDemoTag(tag)
    ensures SlashFree(DemoName(tag)) && !IsTiffName(DemoName(tag))
  {
    var name := DemoName(tag);
    assert name == "demo_" + tag + ".png";
    assert name[|name| - 1] == 'g';
    var low := Lower(name);
    assert low[|low| - 5..][4] == 'g' && low[|low| - 4..][3] == 'g';
    forall i | 0 <= i < |name| ensures name[i] != '/' {
      if 5 <= i < 13 {
        assert name[i] == tag[i - 5];
        assert IsHexDigit(tag[i - 5]);
      }
    }
  }
}
