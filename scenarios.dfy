/** Worked examples of the browser's list logic, proved for fixed inputs. */
module Scenarios {
  import opened Options
  import opened Seqs
  import opened Text
  import opened Catalog
  import opened Paging
  import opened Browse

  function Wav(id: string, name: string): DriveFile {
    DriveFile(id, Some(name), Some("audio/wav"), None)
  }

  /** 125 files at 50 per page: three pages, the first holds files 0 to 49, the last files 100 to 124. */
  lemma PaginationOf125Files(items: seq<DriveFile>)
    requires |items| == 125
    ensures PageCount(125, 50) == 3
    ensures Page(items, 50, 1) == items[0..50]
    ensures Page(items, 50, 3) == items[100..125] && |Page(items, 50, 3)| == 25
  {
  }

  /** An empty folder still has one page, and it is empty. */
  lemma EmptyListingHasOneEmptyPage(items: seq<DriveFile>, pageSize: nat)
    requires items == [] && MinPageSize <= pageSize <= MaxPageSize
    ensures PageCount(|items|, pageSize) == 1
    ensures Page(items, pageSize, 1) == []
  {
  }

  /** Searching "take" among three WAV files keeps only "Vocal_Take1.wav". */
  lemma SearchTakeExample()
    ensures SearchFilter([Wav("1", "drum_loop.wav"), Wav("2", "Vocal_Take1.wav"), Wav("3", "noise.WAVE")], "take")
      == [Wav("2", "Vocal_Take1.wav")]
  {
    assert !IsBlank("take") by {
      assert !IsSpace("take"[0]);
    }
    assert Strip("take") != "";
    TakeSelectsVocal();
  }

  lemma TakeSelectsVocal()
    ensures Filter(QueryTest("take"), [Wav("1", "drum_loop.wav"), Wav("2", "Vocal_Take1.wav"), Wav("3", "noise.WAVE")])
      == [Wav("2", "Vocal_Take1.wav")]
  {
    var drum, vocal, noise := Wav("1", "drum_loop.wav"), Wav("2", "Vocal_Take1.wav"), Wav("3", "noise.WAVE");
    var test := QueryTest("take");
    TakeMatches();
    FilterCons(test, drum, [vocal, noise]);
    FilterCons(test, vocal, [noise]);
    FilterCons(test, noise, []);
  }

  lemma TakeMatches()
    ensures !NameContainsQuery("take", Wav("1", "drum_loop.wav"))
    ensures NameContainsQuery("take", Wav("2", "Vocal_Take1.wav"))
    ensures !NameContainsQuery("take", Wav("3", "noise.WAVE"))
  {
    LacksTake("drum_loop.wav", "drum_loop.wav");
    VocalTakeHasTake();
    NoiseLacksTake();
  }

  lemma NoiseLacksTake()
    ensures !Contains(Lower("noise.WAVE"), Lower("take"))
  {
    LacksTake("noise.WAVE", "noise.wave");
  }

  /** A name whose lowered form `lowered` has no letter 't' does not contain "take". */
  lemma LacksTake(name: string, lowered: string)
    requires Lower(name) == lowered && 't' !in lowered
    ensures !Contains(Lower(name), Lower("take"))
  {
    assert Lower("take") == "take";
    MissingFirstLetter(lowered, "take");
  }

  lemma VocalTakeHasTake()
    ensures Contains(Lower("Vocal_Take1.wav"), Lower("take"))
  {
    assert Lower("take") == "take";
    assert Lower("Vocal_Take1.wav") == "vocal_take1.wav";
    assert OccursAt("take", "vocal_take1.wav", 6);
  }

  /** A pattern whose first letter does not occur in `s` is not contained in `s`. */
  lemma MissingFirstLetter(s: string, pattern: string)
    requires pattern != [] && forall i :: 0 <= i < |s| ==> s[i] != pattern[0]
    ensures !Contains(s, pattern)
  {
    forall i: nat | OccursAt(pattern, s, i)
      ensures s[i] == pattern[0]
    {
      assert s[i..i + |pattern|][0] == s[i];
    }
  }

  /** The WAV filter drops an unnamed entry and a non-audio name, and accepts any letter case. */
  lemma WavFilterExample()
    ensures ListWavFiles([DriveFile("a", None, None, None), Wav("b", "notes.txt"), Wav("c", "Take.WaV")])
      == [Wav("c", "Take.WaV")]
  {
    var unnamed, text, take := DriveFile("a", None, None, None), Wav("b", "notes.txt"), Wav("c", "Take.WaV");
    ExampleNames();
    FilterCons(IsWavFile, unnamed, [text, take]);
    FilterCons(IsWavFile, text, [take]);
    FilterCons(IsWavFile, take, []);
  }

  lemma ExampleNames()
    ensures !IsWavFile(DriveFile("a", None, None, None))
    ensures !IsWavFile(Wav("b", "notes.txt"))
    ensures IsWavFile(Wav("c", "Take.WaV"))
  {
    assert Lower("notes.txt") == "notes.txt";
    assert "notes.txt"[5..9] == ".txt" && "notes.txt"[4..9] == "s.txt" && "notes.txt"[8] != '\n';
    assert Lower("Take.WaV") == "take.wav";
    assert "take.wav"[4..8] == ".wav";
  }

  /**
   * The query is matched as typed: " take", with its leading space, is not
   * blank and does not occur in "Vocal_Take1.wav", so that file is dropped.
   */
  lemma UnstrippedQueryExample()
    ensures SearchFilter([Wav("2", "Vocal_Take1.wav")], " take") == []
  {
    var vocal := Wav("2", "Vocal_Take1.wav");
    assert !IsBlank(" take") by {
      assert !IsSpace(" take"[1]);
    }
    VocalTakeLacksSpacedTake();
    assert !QueryTest(" take")(vocal);
    FilterCons(QueryTest(" take"), vocal, []);
  }

  lemma VocalTakeLacksSpacedTake()
    ensures !NameContainsQuery(" take", Wav("2", "Vocal_Take1.wav"))
  {
    assert Lower(" take") == " take";
    assert Lower("Vocal_Take1.wav") == "vocal_take1.wav";
    MissingFirstLetter("vocal_take1.wav", " take");
  }
}
