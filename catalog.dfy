/**
 * What the browser keeps from the storage service's listings: the audio
 * files of a folder (`list_wav_files`) and the folder a chosen name refers to.
 * The listings themselves come from the service and are inputs here.
 */
module Catalog {
  import opened Options
  import opened Text
  import opened Seqs

  /** One entry of a folder listing; the service may leave out any field but the id. */
  datatype DriveFile = DriveFile(id: string, name: Option<string>, mimeType: Option<string>, size: Option<string>)

  /** One sub-folder of the root folder. */
  datatype Folder = Folder(id: string, name: string)

  // ----- The pattern `\.(wav|wave)$` with re.IGNORECASE, as re.search reads it -----

  /** `$` without MULTILINE: at the end of `s`, or just before a newline that ends `s`. */
  predicate AtEnd(s: string, p: int) {
    p == |s| || (p == |s| - 1 && 0 <= p && s[p] == '\n')
  }

  /**
   * The lower-case literal `lit` matches `s` from position `p` on, letters
   * compared without regard to case.
   */
  predicate LiteralAt(s: string, p: int, lit: string) {
    0 <= p && p + |lit| <= |s| && Lower(s)[p..p + |lit|] == lit
  }

  /** The pattern matches `s` starting at position `i`. */
  predicate PatternAt(s: string, i: nat) {
    && LiteralAt(s, i, ".")
    && ((LiteralAt(s, i + 1, "wav") && AtEnd(s, i + 4))
        || (LiteralAt(s, i + 1, "wave") && AtEnd(s, i + 5)))
  }

  /** `re.search` finds the pattern somewhere in `s`. */
  ghost predicate PatternFound(s: string) {
    exists i: nat :: PatternAt(s, i)
  }

  /** The lowered name `t` has the extension `ext` just before position `m`. */
  predicate ExtensionBefore(t: string, m: int, ext: string) {
    |ext| <= m <= |t| && t[m - |ext|..m] == ext
  }

  predicate AudioExtensionBefore(t: string, m: int) {
    ExtensionBefore(t, m, ".wav") || ExtensionBefore(t, m, ".wave")
  }

  /**
   * The name ends in ".wav" or ".wave" in any letter case, possibly followed
   * by one final newline (which `$` lets through).
   */
  predicate HasAudioExtension(name: string) {
    var t := Lower(name);
    || AudioExtensionBefore(t, |name|)
    || (|name| > 0 && name[|name| - 1] == '\n' && AudioExtensionBefore(t, |name| - 1))
  }

  /** Matching "." and then `lit` is matching "." + `lit`. */
  lemma LiteralAfterDot(s: string, i: nat, lit: string)
    ensures LiteralAt(s, i, "." + lit) <==> LiteralAt(s, i, ".") && LiteralAt(s, i + 1, lit)
  {
    var t := Lower(s);
    var ext := "." + lit;
    if i + |ext| <= |s| {
      assert t[i..i + |ext|] == t[i..i + 1] + t[i + 1..i + |ext|];
      assert ext[..1] == "." && ext[1..] == lit;
      if t[i..i + |ext|] == ext {
        assert t[i..i + 1] == t[i..i + |ext|][..1];
        assert t[i + 1..i + |ext|] == t[i..i + |ext|][1..];
      }
    }
  }

  /** The extension `"." + lit` ends at `m` exactly when the pattern's branch `lit` matches there. */
  lemma ExtensionIsBranch(name: string, m: int, lit: string)
    requires lit == "wav" || lit == "wave"
    requires m - 1 - |lit| >= 0
    ensures ExtensionBefore(Lower(name), m, "." + lit) <==>
      LiteralAt(name, m - 1 - |lit|, ".") && LiteralAt(name, m - |lit|, lit)
  {
    LiteralAfterDot(name, m - 1 - |lit|, lit);
  }

  lemma {:induction false} AudioExtensionFound(name: string, m: int)
    requires AtEnd(name, m) && AudioExtensionBefore(Lower(name), m)
    ensures PatternFound(name)
  {
    var t := Lower(name);
    if ExtensionBefore(t, m, ".wav") {
      assert ".wav" == "." + "wav";
      ExtensionIsBranch(name, m, "wav");
      assert PatternAt(name, m - 4);
    } else {
      assert ".wave" == "." + "wave";
      ExtensionIsBranch(name, m, "wave");
      assert PatternAt(name, m - 5);
    }
  }

  lemma {:induction false} PatternFoundHasAudioExtension(name: string, i: nat)
    requires PatternAt(name, i)
    ensures HasAudioExtension(name)
  {
    var t := Lower(name);
    var m;
    if LiteralAt(name, i + 1, "wav") && AtEnd(name, i + 4) {
      assert ".wav" == "." + "wav";
      ExtensionIsBranch(name, i + 4, "wav");
      m := i + 4;
    } else {
      assert ".wave" == "." + "wave";
      ExtensionIsBranch(name, i + 5, "wave");
      m := i + 5;
    }
    assert AtEnd(name, m) && AudioExtensionBefore(t, m);
    if m != |name| {
      assert m == |name| - 1 && name[|name| - 1] == '\n';
    }
  }

  /** The suffix test says exactly what `AUDIO_EXT_RE.search(name)` says. */
  lemma AudioExtensionIsPatternSearch(name: string)
    ensures HasAudioExtension(name) <==> PatternFound(name)
  {
    var t := Lower(name);
    if AudioExtensionBefore(t, |name|) {
      AudioExtensionFound(name, |name|);
    } else if HasAudioExtension(name) {
      AudioExtensionFound(name, |name| - 1);
    }
    if PatternFound(name) {
      var i: nat :| PatternAt(name, i);
      PatternFoundHasAudioExtension(name, i);
    }
  }

  /** A name the pattern is found in has at least four characters. */
  lemma AudioNameLength(name: string)
    requires HasAudioExtension(name)
    ensures |name| >= 4
  {
    assert |Lower(name)| == |name|;
  }

  /**
   * The test of the comprehension in `list_wav_files`: the entry has a name,
   * the name is not empty, and the pattern is found in it.
   */
  predicate IsWavFile(f: DriveFile): (r: bool)
    ensures r <==> f.name.Some? && PatternFound(f.name.value)
  {
    match f.name
    case None => false
    case Some(name) =>
      AudioExtensionIsPatternSearch(name);
      if name == "" then false
      else HasAudioExtension(name)
  }

  /**
   * `list_wav_files` after the listing came back: keeps exactly the entries
   * whose name carries an audio extension, with their multiplicity and in the
   * listing's order.
   */
  function ListWavFiles(files: seq<DriveFile>): (wavs: seq<DriveFile>)
    ensures forall f :: f in wavs <==> f in files && IsWavFile(f)
    ensures forall f :: multiset(wavs)[f] == if IsWavFile(f) then multiset(files)[f] else 0
    ensures forall f :: f in wavs ==> f.name.Some? && |f.name.value| >= 4
    ensures IsSubsequence(wavs, files)
  {
    FilterIsSubsequence(IsWavFile, files);
    var wavs := Filter(IsWavFile, files);
    assert forall f :: f in wavs ==> f.name.Some? && |f.name.value| >= 4 by {
      forall f | f in wavs ensures f.name.Some? && |f.name.value| >= 4 {
        AudioNameLength(f.name.value);
      }
    }
    wavs
  }

  /** Every entry returned has a name that the audio pattern is found in. */
  lemma ListedNamesMatchPattern(files: seq<DriveFile>, f: DriveFile)
    requires f in ListWavFiles(files)
    ensures f.name.Some? && PatternFound(f.name.value)
  {
    AudioExtensionIsPatternSearch(f.name.value);
  }

  /** An entry without a name, or with an empty one, is never listed. */
  lemma UnnamedNeverListed(files: seq<DriveFile>, f: DriveFile)
    requires f.name == None || f.name == Some("")
    ensures f !in ListWavFiles(files)
  {
  }

  /** Filtering an already filtered listing changes nothing. */
  lemma ListWavFilesIdempotent(files: seq<DriveFile>)
    ensures ListWavFiles(ListWavFiles(files)) == ListWavFiles(files)
  {
    FilterIdempotent(IsWavFile, files);
  }

  // ----- Folder selection -----

  /** The names offered in the folder drop-down, in listing order. */
  function FolderNames(folders: seq<Folder>): seq<string> {
    seq(|folders|, i requires 0 <= i < |folders| => folders[i].name)
  }

  /**
   * The position of `next(f for f in folders if f["name"] == chosen)`: the
   * first folder carrying the chosen name. The chosen name is always one of
   * the listed names, so the search cannot run off the end.
   */
  function FirstNamedIndex(folders: seq<Folder>, chosen: string): (i: nat)
    requires chosen in FolderNames(folders)
    ensures i < |folders| && folders[i].name == chosen
    ensures forall j :: 0 <= j < i ==> folders[j].name != chosen
  {
    if folders[0].name == chosen then
      0
    else
      assert FolderNames(folders) == [folders[0].name] + FolderNames(folders[1..]);
      FirstNamedIndex(folders[1..], chosen) + 1
  }

  /** The folder the drop-down choice refers to. */
  function SelectFolder(folders: seq<Folder>, chosen: string): (f: Folder)
    requires chosen in FolderNames(folders)
    ensures f in folders && f.name == chosen
    ensures exists i :: 0 <= i < |folders| && folders[i] == f && forall j :: 0 <= j < i ==> folders[j].name != chosen
  {
    var i := FirstNamedIndex(folders, chosen);
    folders[i]
  }

  /** Every listed name can be chosen, and it resolves to its first bearer or an earlier one. */
  lemma EveryListedNameResolves(folders: seq<Folder>, i: nat)
    requires i < |folders|
    ensures folders[i].name in FolderNames(folders)
    ensures FirstNamedIndex(folders, folders[i].name) <= i
  {
    assert FolderNames(folders)[i] == folders[i].name;
  }

  /** When folder names are distinct, choosing a folder's name selects that very folder. */
  lemma DistinctNamesSelectChosenFolder(folders: seq<Folder>, i: nat)
    requires forall j, k :: 0 <= j < k < |folders| ==> folders[j].name != folders[k].name
    requires i < |folders|
    ensures folders[i].name in FolderNames(folders)
    ensures SelectFolder(folders, folders[i].name) == folders[i]
  {
    EveryListedNameResolves(folders, i);
  }
}
