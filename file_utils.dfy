/** `server/src/utils/fileUtils.ts`: the name an uploaded file is stored
    under and the extension check of uploads. The clock and the uuid are
    parameters. */
module FileUtils {
  import opened Common
  import opened Text
  import opened NodePath

  /** `path.basename(name, path.extname(name))`: the base name without its
      extension. */
  function Stem(originalName: string): (r: string)
    ensures r + Extname(originalName) == Basename(originalName)
    ensures Extname(originalName) != [] ==> r != []
    ensures '/' !in r
  {
    var b := Basename(originalName);
    var e := Extname(originalName);
    assert e == b[|b| - |e|..];
    assert b[..|b| - |e|] + b[|b| - |e|..] == b;
    b[..|b| - |e|]
  }

  /** `generateFileName`: the stem, the time, the first eight characters
      of a fresh uuid and the original extension, joined by underscores. */
  function GenerateFileName(originalName: string, timestamp: nat, uuidPrefix: string): (r: string)
    requires |uuidPrefix| == 8 && AllHexDigits(uuidPrefix)
  {
    Stem(originalName) + "_" + NatToString(timestamp) + "_" + uuidPrefix + Extname(originalName)
  }

  /** What the stored name puts between the stem and the extension holds
      no slash and no dot. */
  lemma MiddleHasNoSeparator(stem: string, timestamp: nat, uuidPrefix: string)
    requires '/' !in stem
    requires |uuidPrefix| == 8 && AllHexDigits(uuidPrefix)
    ensures '/' !in stem + "_" + NatToString(timestamp) + "_" + uuidPrefix
  {
    var digits := NatToString(timestamp);
    var tail := "_" + digits + "_" + uuidPrefix;
    forall i | 0 <= i < |tail| ensures tail[i] != '/' {
      if 1 <= i < 1 + |digits| {
        assert tail[i] == digits[i - 1];
      } else if i >= 2 + |digits| {
        assert tail[i] == uuidPrefix[i - 2 - |digits|];
      }
    }
    assert stem + "_" + digits + "_" + uuidPrefix == stem + tail;
  }

  /** The stored name starts with the original stem and ends with the
      original extension. */
  lemma GeneratedNameShape(originalName: string, timestamp: nat, uuidPrefix: string)
    requires |uuidPrefix| == 8 && AllHexDigits(uuidPrefix)
    ensures var r := GenerateFileName(originalName, timestamp, uuidPrefix);
      var stem := Stem(originalName);
      var ext := Extname(originalName);
      |r| >= |stem| + |ext| + 10 && r[..|stem|] == stem && r[|r| - |ext|..] == ext
  {
    var r := GenerateFileName(originalName, timestamp, uuidPrefix);
    var stem := Stem(originalName);
    var ext := Extname(originalName);
    var digits := NatToString(timestamp);
    var middle := stem + "_" + digits + "_" + uuidPrefix;
    assert r == middle + ext;
    assert middle[..|stem|] == stem;
    assert r[..|stem|] == middle[..|stem|];
    assert r[|middle|..] == ext;
  }

  /** An extension survives as the stored file's own extension. */
  lemma GeneratedNameKeepsExtension(originalName: string, timestamp: nat, uuidPrefix: string)
    requires |uuidPrefix| == 8 && AllHexDigits(uuidPrefix)
    requires Extname(originalName) != ""
    ensures Extname(GenerateFileName(originalName, timestamp, uuidPrefix)) == Extname(originalName)
  {
    var stem := Stem(originalName);
    var middle := stem + "_" + NatToString(timestamp) + "_" + uuidPrefix;
    MiddleHasNoSeparator(stem, timestamp, uuidPrefix);
    assert |middle| >= 10;
    ExtnameOfStemAndExt(middle, Extname(originalName));
  }

  /** `validateFileType`: the lowercased extension is one of the allowed
      types, compared as written. Only an entry without upper-case letters
      can match, and a name without extension needs the empty entry. */
  function ValidateFileType(filename: string, allowedTypes: seq<string>): (r: bool)
    ensures r ==> exists t :: t in allowedTypes && Lower(t) == t
    ensures Extname(filename) == "" ==> (r <==> "" in allowedTypes)
  {
    LowerIdempotent(Extname(filename));
    Lower(Extname(filename)) in allowedTypes
  }

  /** The check ignores the case of the file name: `a.PDF` and `a.pdf`
      are accepted or refused together. */
  lemma ValidateFileTypeIgnoresCase(filename: string, allowedTypes: seq<string>)
    ensures ValidateFileType(Lower(filename), allowedTypes) == ValidateFileType(filename, allowedTypes)
  {
    ExtnameLower(filename);
    LowerIdempotent(Extname(filename));
  }

  /** Only the file name is lowercased: an allowed type written with an
      upper-case letter never matches anything. */
  lemma UpperCaseEntryNeverMatches(filename: string, allowedTypes: seq<string>, i: nat)
    requires i < |allowedTypes|
    requires exists k :: 0 <= k < |allowedTypes[i]| && IsUpper(allowedTypes[i][k])
    ensures Lower(Extname(filename)) != allowedTypes[i]
  {
    LowerIdempotent(Extname(filename));
  }

  /** A name without an extension passes exactly when `''` is allowed. */
  lemma NoExtensionNeedsEmptyEntry(filename: string, allowedTypes: seq<string>)
    requires Extname(filename) == ""
    ensures ValidateFileType(filename, allowedTypes) <==> "" in allowedTypes
  {
  }
}
