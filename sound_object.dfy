/**
 * `SoundObject`: one entry of the sound bank, and the resource name under
 * which its clip is loaded.  The asset path is '/'-separated (as Unity's
 * asset database writes it); the resource name keeps the directories below
 * the last "Resources" directory and drops the file's extension.
 */
module SoundObjects {

  /** No character of `s` is `c`. */
  predicate Free(s: string, c: char)
  {
    forall i :: 0 <= i < |s| ==> s[i] != c
  }

  /** `s.Split(sep)`: the pieces between the separators, empty pieces included. */
  function Split(s: string, sep: char): (parts: seq<string>)
    ensures |parts| >= 1
    ensures forall i :: 0 <= i < |parts| ==> Free(parts[i], sep)
  {
    if s == [] then [""]
    else
      var rest := Split(s[1..], sep);
      if s[0] == sep then [""] + rest
      else [[s[0]] + rest[0]] + rest[1..]
  }

  /** `string.Join(sep, parts)`: the partner of `Split`. */
  function JoinWith(parts: seq<string>, sep: char): string
    requires |parts| >= 1
  {
    if |parts| == 1 then parts[0] else parts[0] + [sep] + JoinWith(parts[1..], sep)
  }

  /** Splitting and joining again gives back the string. */
  lemma {:induction false} JoinSplit(s: string, sep: char)
    ensures JoinWith(Split(s, sep), sep) == s
  {
    if s != [] {
      var rest := Split(s[1..], sep);
      JoinSplit(s[1..], sep);
      if s[0] != sep && |rest| > 1 {
        assert ([[s[0]] + rest[0]] + rest[1..])[1..] == rest[1..];
      }
    }
  }

  /** A separator between two strings separates their pieces. */
  lemma {:induction false} SplitAround(a: string, sep: char, b: string)
    ensures Split(a + [sep] + b, sep) == Split(a, sep) + Split(b, sep)
  {
    if a == [] {
      assert [sep] + b == a + [sep] + b;
    } else {
      assert (a + [sep] + b)[1..] == a[1..] + [sep] + b;
      SplitAround(a[1..], sep, b);
    }
  }

  /** Without a separator the string is a single piece. */
  lemma {:induction false} SplitWithoutSeparator(s: string, sep: char)
    requires Free(s, sep)
    ensures Split(s, sep) == [s]
  {
    if s != [] {
      assert s[0] != sep;
      assert Free(s[1..], sep);
      SplitWithoutSeparator(s[1..], sep);
      assert [s[0]] + s[1..] == s;
    }
  }

  /** `Path.GetFileName`: the part after the last '/', the longest suffix free of '/'. */
  function FileName(path: string): (name: string)
    ensures |name| <= |path|
    ensures Free(name, '/')
    ensures |name| < |path| ==> path[|path| - |name| - 1] == '/'
  {
    if path == [] || path[|path| - 1] == '/' then ""
    else FileName(path[..|path| - 1]) + [path[|path| - 1]]
  }

  /** The file name is the suffix of the path that follows its last '/'. */
  lemma {:induction false} FileNameIsSuffix(path: string)
    ensures FileName(path) == path[|path| - |FileName(path)|..]
  {
    if path != [] && path[|path| - 1] != '/' {
      var init := path[..|path| - 1];
      FileNameIsSuffix(init);
      assert path[|path| - |FileName(path)|..] == init[|init| - |FileName(init)|..] + [path[|path| - 1]];
    }
  }

  /** `name.LastIndexOf('.')`, or -1. */
  function LastDot(name: string): (i: int)
    ensures -1 <= i < |name|
    ensures i >= 0 ==> name[i] == '.'
    ensures forall j :: i < j < |name| ==> name[j] != '.'
  {
    if name == [] then -1
    else if name[|name| - 1] == '.' then |name| - 1
    else LastDot(name[..|name| - 1])
  }

  /** `Path.GetFileNameWithoutExtension`: the file name cut at its last '.'. */
  function FileNameWithoutExtension(path: string): string
  {
    var name := FileName(path);
    var dot := LastDot(name);
    if dot < 0 then name else name[..dot]
  }

  /** The index of the last "Resources" directory, or -1. */
  function LastResources(dirs: seq<string>): (k: int)
    ensures -1 <= k < |dirs|
    ensures k >= 0 ==> dirs[k] == "Resources"
    ensures forall j :: k < j < |dirs| ==> dirs[j] != "Resources"
  {
    if dirs == [] then -1
    else if dirs[|dirs| - 1] == "Resources" then |dirs| - 1
    else LastResources(dirs[..|dirs| - 1])
  }

  /** No directory in `dirs` is called "Resources". */
  predicate NoResources(dirs: seq<string>)
  {
    forall j :: 0 <= j < |dirs| ==> dirs[j] != "Resources"
  }

  /** The directory names of a '/'-separated path: every piece but the last. */
  function Directories(path: string): seq<string>
  {
    var parts := Split(path, '/');
    parts[..|parts| - 1]
  }

  /** `LastResources` is the only index with its two properties. */
  lemma LastResourcesUnique(dirs: seq<string>, i: int)
    requires -1 <= i < |dirs|
    requires i >= 0 ==> dirs[i] == "Resources"
    requires forall j :: i < j < |dirs| ==> dirs[j] != "Resources"
    ensures LastResources(dirs) == i
  {
    var k := LastResources(dirs);
    assert k >= 0 ==> dirs[k] == "Resources";
    assert i >= 0 ==> dirs[i] == "Resources";
  }

  /** Without a "Resources" directory there is no last one. */
  lemma {:induction false} NoResourcesHasNoLast(dirs: seq<string>)
    requires NoResources(dirs)
    ensures LastResources(dirs) == -1
  {
    if dirs != [] {
      var init := dirs[..|dirs| - 1];
      assert dirs[|dirs| - 1] != "Resources";
      assert forall j :: 0 <= j < |init| ==> init[j] == dirs[j];
      NoResourcesHasNoLast(init);
    }
  }

  /** Each directory followed by "/", in order. */
  function Prefix(dirs: seq<string>): string
  {
    if dirs == [] then "" else dirs[0] + "/" + Prefix(dirs[1..])
  }

  /** Prepending one more directory, as each step of the backwards walk does. */
  lemma PrefixPrepend(dirs: seq<string>, i: nat, tail: string)
    requires i < |dirs|
    ensures dirs[i] + "/" + (Prefix(dirs[i + 1..]) + tail) == Prefix(dirs[i..]) + tail
  {
    assert dirs[i..][1..] == dirs[i + 1..];
  }

  /**
   * The resource name of the asset at `path`: the directories after the last
   * "Resources" one (all of them if there is none), then the file name
   * without its extension.
   */
  function ResourceName(path: string): string
  {
    var dirs := Directories(path);
    Prefix(dirs[LastResources(dirs) + 1..]) + FileNameWithoutExtension(path)
  }

  /** The file name is the last piece of the split path. */
  lemma FileNameIsLastPiece(path: string)
    ensures var parts := Split(path, '/'); parts[|parts| - 1] == FileName(path)
  {
    var name := FileName(path);
    FileNameIsSuffix(path);
    if |name| == |path| {
      assert name == path;
      SplitWithoutSeparator(path, '/');
    } else {
      var dir := path[..|path| - |name| - 1];
      assert path == dir + ['/'] + name;
      SplitAround(dir, '/', name);
      SplitWithoutSeparator(name, '/');
    }
  }

  /** The directories, each with its "/", followed by the last piece make up the joined path. */
  lemma {:induction false} PrefixThenLast(parts: seq<string>)
    requires |parts| >= 1
    ensures Prefix(parts[..|parts| - 1]) + parts[|parts| - 1] == JoinWith(parts, '/')
  {
    if |parts| > 1 {
      assert parts[..|parts| - 1][1..] == parts[1..][..|parts[1..]| - 1];
      PrefixThenLast(parts[1..]);
    }
  }

  /** A path without '/' is its own file name. */
  lemma {:induction false} FileNameWithoutSlash(path: string)
    requires Free(path, '/')
    ensures FileName(path) == path
  {
    if path != [] {
      var init := path[..|path| - 1];
      assert path[|path| - 1] != '/';
      assert forall j :: 0 <= j < |init| ==> init[j] == path[j];
      FileNameWithoutSlash(init);
      assert init + [path[|path| - 1]] == path;
    }
  }

  /** The resource name keeps exactly the directories after the last "Resources" one. */
  lemma ResourceNameFromDirectories(path: string, dirs: seq<string>)
    requires dirs == Directories(path)
    ensures ResourceName(path) == Prefix(dirs[LastResources(dirs) + 1..]) + FileNameWithoutExtension(path)
  {
  }

  /** A path without '/' names a file at the top of a Resources folder: only the extension goes. */
  lemma ResourceNameWithoutSlash(path: string)
    requires Free(path, '/')
    ensures ResourceName(path) == FileNameWithoutExtension(path)
    ensures FileName(path) == path
  {
    SplitWithoutSeparator(path, '/');
    FileNameWithoutSlash(path);
    ResourceNameFromDirectories(path, []);
  }

  /** A string split into two parts: the first part is the string cut before the second. */
  lemma ConcatPrefix(x: string, y: string, z: string)
    requires x + y == z
    ensures x == z[..|z| - |y|]
  {
    assert z[..|x|] == x;
  }

  /** The directories, each followed by "/", are the path up to its file name. */
  lemma DirectoryPart(path: string)
    ensures Prefix(Directories(path)) == path[..|path| - |FileName(path)|]
  {
    var parts := Split(path, '/');
    var dirs := Directories(path);
    assert dirs == parts[..|parts| - 1];
    FileNameIsLastPiece(path);
    PrefixThenLast(parts);
    JoinSplit(path, '/');
    assert Prefix(dirs) + FileName(path) == path;
    ConcatPrefix(Prefix(dirs), FileName(path), path);
  }

  /** With no "Resources" directory the whole directory part is kept, and only the extension goes. */
  lemma ResourceNameKeepsDirectories(path: string)
    requires NoResources(Directories(path))
    ensures ResourceName(path) == path[..|path| - |FileName(path)|] + FileNameWithoutExtension(path)
  {
    var dirs := Directories(path);
    NoResourcesHasNoLast(dirs);
    assert dirs[0..] == dirs;
    ResourceNameFromDirectories(path, dirs);
    DirectoryPart(path);
  }

  /** Splitting a path that runs through a "Resources" directory. */
  lemma SplitAtResources(above: string, below: string)
    ensures Split(above + "/Resources/" + below, '/') == Split(above, '/') + ["Resources"] + Split(below, '/')
  {
    var r := "Resources";
    assert "/Resources/" == ['/'] + r + ['/'];
    assert above + "/Resources/" + below == above + ['/'] + (r + ['/'] + below);
    SplitAround(above, '/', r + ['/'] + below);
    SplitAround(r, '/', below);
    ResourcesIsOnePiece();
  }

  /** "Resources" contains no '/'. */
  lemma ResourcesIsOnePiece()
    ensures Split("Resources", '/') == ["Resources"]
  {
    SplitWithoutSeparator("Resources", '/');
  }

  /** The same, for the directories and the file name. */
  lemma DirectoriesAtResources(above: string, below: string)
    ensures Directories(above + "/Resources/" + below)
            == Split(above, '/') + ["Resources"] + Directories(below)
    ensures FileName(above + "/Resources/" + below) == FileName(below)
  {
    var path := above + "/Resources/" + below;
    SplitAtResources(above, below);
    var b := Split(below, '/');
    var parts := Split(path, '/');
    assert parts[..|parts| - 1] == Split(above, '/') + ["Resources"] + b[..|b| - 1];
    assert parts[|parts| - 1] == b[|b| - 1];
    FileNameIsLastPiece(path);
    FileNameIsLastPiece(below);
  }

  /** In `a + ["Resources"] + b` with no "Resources" in `b`, the last one is the one in the middle. */
  lemma {:induction false} LastResourcesInMiddle(a: seq<string>, b: seq<string>)
    requires NoResources(b)
    ensures LastResources(a + ["Resources"] + b) == |a|
  {
    var dirs := a + ["Resources"] + b;
    if b != [] {
      var init := b[..|b| - 1];
      assert dirs[|dirs| - 1] == b[|b| - 1] != "Resources";
      assert dirs[..|dirs| - 1] == a + ["Resources"] + init;
      assert forall j :: 0 <= j < |init| ==> init[j] == b[j];
      LastResourcesInMiddle(a, init);
    }
  }

  /** Whatever lies above a "Resources" directory does not matter, provided no deeper one follows. */
  lemma ResourceNameBelowResources(above: string, below: string)
    requires NoResources(Directories(below))
    ensures ResourceName(above + "/Resources/" + below) == ResourceName(below)
  {
    var path := above + "/Resources/" + below;
    var a := Split(above, '/');
    var bdirs := Directories(below);
    DirectoriesAtResources(above, below);
    var dirs := Directories(path);
    LastResourcesInMiddle(a, bdirs);
    assert dirs[|a| + 1..] == bdirs;
    NoResourcesHasNoLast(bdirs);
    assert bdirs[0..] == bdirs;
    ResourceNameFromDirectories(path, dirs);
    ResourceNameFromDirectories(below, bdirs);
  }

  /** An empty path, the serialized default, names nothing. */
  lemma EmptyPathHasNoName(path: string)
    requires |path| == 0
    ensures ResourceName(path) == ""
  {
    ResourceNameWithoutSlash(path);
  }

  /**
   * The computation `GetAudioFileName` caches: start from the file name
   * without extension and walk the directories backwards, prepending each,
   * until a "Resources" directory is reached.
   */
  method ComputeAudioFileName(file: string) returns (result: string)
    ensures result == ResourceName(file)
  {
    var split := Split(file, '/');
    result := PrependDirectories(split, FileNameWithoutExtension(file));
    ResourceNameFromDirectories(file, split[..|split| - 1]);
  }

  /**
   * The backwards walk over every piece of `split` but the last, prepending
   * each piece and a "/" to `name` until a "Resources" piece is reached.
   * With a single piece there is nothing to walk, which is what the
   * `split.Length > 1` guard of the original skips.
   */
  method PrependDirectories(split: seq<string>, name: string) returns (result: string)
    requires |split| >= 1
    ensures var dirs := split[..|split| - 1];
            result == Prefix(dirs[LastResources(dirs) + 1..]) + name
  {
    var dirs := split[..|split| - 1];
    result := name;
    var i := |dirs| - 1;
    while i >= 0
      invariant -1 <= i < |dirs|
      invariant forall j :: i < j < |dirs| ==> dirs[j] != "Resources"
      invariant result == Prefix(dirs[i + 1..]) + name
    {
      if dirs[i] == "Resources" {
        break;
      }
      PrefixPrepend(dirs, i, name);
      result := dirs[i] + "/" + result;
      i := i - 1;
    }
    LastResourcesUnique(dirs, i);
  }

  /** The initial value of `_maxInstances`. */
  const DefaultMaxInstances: int := 99

  class SoundObject {
    /** `_audioID`, `_audioFile` and `_maxInstances`: serialized, never written by code. */
    const audioID: string
    const audioFile: string
    const maxInstances: int
    /** `_audioFilename`, the cached resource name; `null` and "" are both "not yet computed". */
    var audioFilename: string

    /** The cache is empty or holds the resource name. */
    ghost predicate Valid()
      reads this
    {
      audioFilename == "" || audioFilename == ResourceName(audioFile)
    }

    /** A freshly created entry, with the field initialisers' defaults. */
    constructor Default()
      ensures audioID == "" && audioFile == "" && maxInstances == DefaultMaxInstances
      ensures audioFilename == "" && Valid()
    {
      audioID := "";
      audioFile := "";
      maxInstances := DefaultMaxInstances;
      audioFilename := "";
    }

    /** An entry as deserialized from the bank asset. */
    constructor (audioID: string, audioFile: string, maxInstances: int)
      ensures this.audioID == audioID && this.audioFile == audioFile && this.maxInstances == maxInstances
      ensures audioFilename == "" && Valid()
    {
      this.audioID := audioID;
      this.audioFile := audioFile;
      this.maxInstances := maxInstances;
      audioFilename := "";
    }

    /**
     * `GetAudioFileName`: unless cached, start from the file name without
     * extension and walk the directories backwards, prepending each until a
     * "Resources" directory is reached; cache and return the result.
     */
    method GetAudioFileName() returns (name: string)
      requires Valid()
      modifies this`audioFilename
      ensures Valid()
      ensures name == ResourceName(audioFile)
      ensures audioFilename == name
      ensures old(audioFilename) != "" ==> name == old(audioFilename)
    {
      if audioFilename == "" {
        audioFilename := ComputeAudioFileName(audioFile);
      }
      name := audioFilename;
    }
  }
}
