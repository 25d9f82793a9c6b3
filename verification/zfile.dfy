/** Naming of the per-metallicity table files (`get_zfile`). */
module ZFile {
  import opened Outcome

  /** The path prefix of every table file of model `photmod`. */
  function Root(photmod: string): string
  {
    "nebular_data/" + photmod + "_tables/nebular_emission_Z"
  }

  /** A metallicity string shorter than three characters gets one '0' appended. */
  function Padded(zmet: string): (s: string)
    ensures |zmet| < 3 ==> |s| == |zmet| + 1 && s[..|zmet|] == zmet && s[|zmet|] == '0'
    ensures |zmet| >= 3 ==> s == zmet
  {
    if |zmet| < 3 then zmet + "0" else zmet
  }

  /** The table file name for a metallicity string, before the existence check. */
  function ZFileName(zmet: string, photmod: string): string
  {
    Root(photmod) + Padded(zmet) + ".txt"
  }

  /** The metallicity part of a file name: what lies between the root and ".txt". */
  function MetallicityPart(name: string, photmod: string): string
    requires |name| >= |Root(photmod)| + 4
  {
    name[|Root(photmod)|..|name| - 4]
  }

  /** `get_zfile`: the file name when the file exists (`check_file`), otherwise None.
      The existence check is modelled as membership in `existing`. */
  function GetZFile(zmet: string, photmod: string, existing: set<string>): (r: Option<string>)
    ensures r.Some? <==> ZFileName(zmet, photmod) in existing
    ensures r.Some? ==> r.value == ZFileName(zmet, photmod)
  {
    var zfile := ZFileName(zmet, photmod);
    if zfile in existing then Some(zfile) else None
  }

  /** A file name is the root, the padded metallicity string and ".txt", and the
      padded string can be read back from it. */
  lemma ZFileNameParts(zmet: string, photmod: string)
    ensures var name := ZFileName(zmet, photmod);
            && |name| >= |Root(photmod)| + 4
            && name[..|Root(photmod)|] == Root(photmod)
            && name[|name| - 4..] == ".txt"
            && MetallicityPart(name, photmod) == Padded(zmet)
  {
    var name := ZFileName(zmet, photmod);
    var r, p := Root(photmod), Padded(zmet);
    assert name == r + p + ".txt";
    assert name[..|r|] == r;
    assert name[|name| - 4..] == ".txt";
    assert name[|r|..|name| - 4] == p;
  }

  /** Metallicity strings of at least three characters name distinct files. */
  lemma ZFileNameInjective(z1: string, z2: string, photmod: string)
    requires |z1| >= 3 && |z2| >= 3
    ensures ZFileName(z1, photmod) == ZFileName(z2, photmod) <==> z1 == z2
  {
    if ZFileName(z1, photmod) == ZFileName(z2, photmod) {
      ZFileNameParts(z1, photmod);
      ZFileNameParts(z2, photmod);
    }
  }

  /** Padding can make a short string name the same file as a longer one. */
  lemma PaddingCollides(photmod: string)
    ensures ZFileName("01", photmod) == ZFileName("010", photmod)
  {
  }
}
