/** What a TIFF document looks like from outside: its name character by character, its contents byte by byte. */
module Formats {
  import opened Prelude
  import opened Keys

  /** The name ends in .tif, each letter in either case. */
  predicate EndsInTif(name: string) {
    var n := |name|;
    && n >= 4 && name[n - 4] == '.' && name[n - 3] in {'t', 'T'} && name[n - 2] in {'i', 'I'}
    && name[n - 1] in {'f', 'F'}
  }

  /** The name ends in .tiff, each letter in either case. */
  predicate EndsInTiff(name: string) {
    var n := |name|;
    && n >= 5 && name[n - 5] == '.' && name[n - 4] in {'t', 'T'} && name[n - 3] in {'i', 'I'}
    && name[n - 2] in {'f', 'F'} && name[n - 1] in {'f', 'F'}
  }

  predicate TiffNamed(name: string) {
    EndsInTif(name) || EndsInTiff(name)
  }

  /** The contents begin with II*\0, the little-endian form, or MM\0*, the big-endian one. */
  predicate TiffBytes(data: Bytes) {
    && |data| >= 4
    && ((data[0] == 0x49 && data[1] == 0x49 && data[2] == 0x2A && data[3] == 0x00)
        || (data[0] == 0x4D && data[1] == 0x4D && data[2] == 0x00 && data[3] == 0x2A))
  }

  lemma LowerAt(name: string, i: nat)
    requires i < |name|
    ensures var ch := Lower(name)[i];
      && (ch == '.' <==> name[i] == '.') && (ch == 't' <==> name[i] in {'t', 'T'})
      && (ch == 'i' <==> name[i] in {'i', 'I'}) && (ch == 'f' <==> name[i] in {'f', 'F'})
  {
  }

  lemma TifSpelled(name: string)
    ensures EndsWith(Lower(name), ".tif") <==> EndsInTif(name)
  {
    var s, n := Lower(name), |name|;
    if n >= 4 {
      assert s[n - 4..] == [s[n - 4], s[n - 3], s[n - 2], s[n - 1]];
      LowerAt(name, n - 4);
      LowerAt(name, n - 3);
      LowerAt(name, n - 2);
      LowerAt(name, n - 1);
    }
  }

  lemma TiffSpelled(name: string)
    ensures EndsWith(Lower(name), ".tiff") <==> EndsInTiff(name)
  {
    var s, n := Lower(name), |name|;
    if n >= 5 {
      assert s[n - 5..] == [s[n - 5], s[n - 4], s[n - 3], s[n - 2], s[n - 1]];
      LowerAt(name, n - 5);
      LowerAt(name, n - 4);
      LowerAt(name, n - 3);
      LowerAt(name, n - 2);
      LowerAt(name, n - 1);
    }
  }

  /** Lower-casing and comparing suffixes accepts exactly the names that end so, letter by letter. */
  lemma TiffNameSpelled(name: string)
    ensures IsTiffName(name) <==> TiffNamed(name)
  {
    TifSpelled(name);
    TiffSpelled(name);
  }
}
