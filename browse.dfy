/**
 * One run of the browser page: resolve the chosen folder, keep its audio
 * files, narrow them by the search text, and cut out the requested page.
 */
module Browse {
  import opened Options
  import opened Text
  import opened Seqs
  import opened Catalog
  import opened Paging

  /** Every entry has a name, as every entry `list_wav_files` returns does. */
  predicate AllNamed(files: seq<DriveFile>) {
    forall f :: f in files ==> f.name.Some?
  }

  function NameOf(f: DriveFile): string {
    if f.name.Some? then f.name.value else ""
  }

  /** `query.lower() in f["name"].lower()`; the query is used as typed, not stripped. */
  predicate NameContainsQuery(query: string, f: DriveFile) {
    Contains(Lower(NameOf(f)), Lower(query))
  }

  function QueryTest(query: string): DriveFile -> bool {
    f => NameContainsQuery(query, f)
  }

  /**
   * The search box: a blank query leaves the list as it is; otherwise the
   * list keeps, in order and with their multiplicity, exactly the files whose
   * name contains the query regardless of letter case.
   */
  function SearchFilter(files: seq<DriveFile>, query: string): (r: seq<DriveFile>)
    requires AllNamed(files)
    ensures IsBlank(query) ==> r == files
    ensures !IsBlank(query) ==> forall f :: f in r <==> f in files && NameContainsQuery(query, f)
    ensures !IsBlank(query) ==>
      forall f :: multiset(r)[f] == if NameContainsQuery(query, f) then multiset(files)[f] else 0
    ensures IsSubsequence(r, files)
    ensures AllNamed(r)
  {
    if Strip(query) != "" then
      assert !IsBlank(query);
      FilterIsSubsequence(QueryTest(query), files);
      Filter(QueryTest(query), files)
    else
      assert IsBlank(query);
      SubsequenceOfSelf(files);
      files
  }

  /** Searching the result of a search again with the same text changes nothing. */
  lemma SearchFilterIdempotent(files: seq<DriveFile>, query: string)
    requires AllNamed(files)
    ensures SearchFilter(SearchFilter(files, query), query) == SearchFilter(files, query)
  {
    if !IsBlank(query) {
      FilterIdempotent(QueryTest(query), files);
    }
  }

  /** The letter case of the query does not matter. */
  lemma SearchIgnoresQueryCase(files: seq<DriveFile>, query: string)
    requires AllNamed(files)
    ensures SearchFilter(files, Lower(query)) == SearchFilter(files, query)
  {
    LowerKeepsBlankness(query);
    LowerIdempotent(query);
    FilterCongruent(QueryTest(Lower(query)), QueryTest(query), files);
  }

  /** The WAV listing can be searched: every entry of it has a name. */
  lemma WavFilesAreNamed(listing: seq<DriveFile>)
    ensures AllNamed(ListWavFiles(listing))
  {
  }

  /** The files the page counts and paginates: the folder's audio files that match the query. */
  function MatchingFiles(listing: seq<DriveFile>, query: string): (files: seq<DriveFile>)
    ensures |files| <= |listing|
    ensures forall f :: f in files <==>
      f in listing && IsWavFile(f) && (IsBlank(query) || NameContainsQuery(query, f))
    ensures forall f :: multiset(files)[f] ==
                        if IsWavFile(f) && (IsBlank(query) || NameContainsQuery(query, f)) then multiset(listing)[f] else 0
    ensures IsSubsequence(files, ListWavFiles(listing))
  {
    SearchFilter(ListWavFiles(listing), query)
  }

  /** What the page shows. */
  datatype Screen =
    | MissingRootFolder
    | NoSubfolders
    | FolderPage(folder: Folder, total: nat, pageCount: nat, entries: seq<(int, DriveFile)>)

  /**
   * The folder view for the files `files`: their count, the page count, and
   * the numbered files of page `page`, each one of `files`.
   */
  function ShowPage(folder: Folder, files: seq<DriveFile>, pageSize: nat, page: nat): (screen: Screen)
    requires pageSize >= 1 && 1 <= page <= PageCount(|files|, pageSize)
    ensures screen.FolderPage? && screen.folder == folder && screen.total == |files|
    ensures screen.pageCount >= 1
    ensures |files| == 0 ==> screen.pageCount == 1
    ensures |files| > 0 ==> (screen.pageCount - 1) * pageSize < |files| <= screen.pageCount * pageSize
    ensures |screen.entries| <= pageSize
    ensures |files| > 0 <==> screen.entries != []
    ensures forall k :: 0 <= k < |screen.entries| ==>
      && 1 <= screen.entries[k].0 <= |files|
      && screen.entries[k].0 == (page - 1) * pageSize + k + 1
      && screen.entries[k].1 == files[screen.entries[k].0 - 1]
  {
    FolderPage(folder, |files|, PageCount(|files|, pageSize), PageEntries(files, pageSize, page))
  }

  /** File `i` of `files` is entry `i % pageSize` of page `i / pageSize + 1`, numbered `i + 1`. */
  lemma ShowPageLocates(folder: Folder, files: seq<DriveFile>, pageSize: nat, i: nat)
    requires pageSize >= 1 && i < |files|
    ensures 1 <= i / pageSize + 1 <= PageCount(|files|, pageSize)
    ensures var screen := ShowPage(folder, files, pageSize, i / pageSize + 1);
      i % pageSize < |screen.entries| && screen.entries[i % pageSize] == (i + 1, files[i])
  {
    EveryItemHasAnEntry(files, pageSize, i);
  }

  /** The root folder id is set and not empty (`not root_id` stops the page). */
  predicate RootConfigured(rootId: Option<string>) {
    rootId.Some? && rootId.value != ""
  }

  /**
   * What the widgets guarantee: the page size lies within the bounds of its
   * input, and once there are folders, the chosen name is one of theirs and
   * the page number lies between 1 and the page count.
   */
  predicate WidgetsInRange(folders: seq<Folder>, listing: string -> seq<DriveFile>,
                           chosen: string, query: string, pageSize: nat, page: nat)
  {
    && MinPageSize <= pageSize <= MaxPageSize
    && (folders != [] ==>
          && chosen in FolderNames(folders)
          && 1 <= page <= PageCount(|MatchingFiles(listing(SelectFolder(folders, chosen).id), query)|, pageSize))
  }

  /**
   * One run of the page. `folders` is the listing of the root folder and
   * `listing` gives the listing of any folder id, both as the storage service
   * returns them.
   */
  function Render(rootId: Option<string>, folders: seq<Folder>, listing: string -> seq<DriveFile>,
                  chosen: string, query: string, pageSize: nat, page: nat): (screen: Screen)
    requires WidgetsInRange(folders, listing, chosen, query, pageSize, page)
    ensures screen.MissingRootFolder? <==> !RootConfigured(rootId)
    ensures screen.NoSubfolders? <==> RootConfigured(rootId) && folders == []
    ensures screen.FolderPage? ==>
      && screen.folder in folders && screen.folder.name == chosen
      && screen.total == |MatchingFiles(listing(screen.folder.id), query)|
      && screen.pageCount >= 1
      && (screen.total > 0 ==> (screen.pageCount - 1) * pageSize < screen.total <= screen.pageCount * pageSize)
      && |screen.entries| <= pageSize
      && (screen.total > 0 <==> screen.entries != [])
    ensures screen.FolderPage? ==> screen.folder == SelectFolder(folders, chosen)
    ensures screen.FolderPage? ==> forall k :: 0 <= k < |screen.entries| ==>
      && screen.entries[k].0 == (page - 1) * pageSize + k + 1
      && screen.entries[k].1 in MatchingFiles(listing(screen.folder.id), query)
    ensures screen.FolderPage? ==>
      screen == ShowPage(screen.folder, MatchingFiles(listing(screen.folder.id), query), pageSize, page)
  {
    if !RootConfigured(rootId) then
      MissingRootFolder
    else if folders == [] then
      NoSubfolders
    else
      var folder := SelectFolder(folders, chosen);
      var files := MatchingFiles(listing(folder.id), query);
      ShowPage(folder, files, pageSize, page)
  }

  /**
   * Every file the page lists is an audio file of the chosen folder, and,
   * when the query is not blank, one whose name contains the query.
   */
  lemma RenderedFilesMatch(rootId: Option<string>, folders: seq<Folder>, listing: string -> seq<DriveFile>,
                           chosen: string, query: string, pageSize: nat, page: nat, k: nat)
    requires WidgetsInRange(folders, listing, chosen, query, pageSize, page)
    requires Render(rootId, folders, listing, chosen, query, pageSize, page).FolderPage?
    requires k < |Render(rootId, folders, listing, chosen, query, pageSize, page).entries|
    ensures var screen := Render(rootId, folders, listing, chosen, query, pageSize, page);
      && screen.entries[k].1 in listing(screen.folder.id)
      && IsWavFile(screen.entries[k].1)
      && (!IsBlank(query) ==> NameContainsQuery(query, screen.entries[k].1))
  {
    var screen := Render(rootId, folders, listing, chosen, query, pageSize, page);
    var f := screen.entries[k].1;
    var wavs := ListWavFiles(listing(screen.folder.id));
    assert f in SearchFilter(wavs, query);
    assert f in wavs;
  }

  /**
   * Browsing the pages of a folder shows each matching file once: the file
   * at position `i` of the matching list is entry `i % pageSize` of page
   * `i / pageSize + 1`, numbered `i + 1`.
   */
  lemma RenderedPagesShowEveryFile(rootId: Option<string>, folders: seq<Folder>, listing: string -> seq<DriveFile>,
                                   chosen: string, query: string, pageSize: nat, i: nat, page: nat, k: nat)
    requires RootConfigured(rootId) && folders != []
    requires MinPageSize <= pageSize <= MaxPageSize && chosen in FolderNames(folders)
    requires i < |MatchingFiles(listing(SelectFolder(folders, chosen).id), query)|
    requires page == i / pageSize + 1 && k == i % pageSize
    ensures WidgetsInRange(folders, listing, chosen, query, pageSize, page)
    ensures var screen := Render(rootId, folders, listing, chosen, query, pageSize, page);
      && screen.FolderPage?
      && k < |screen.entries|
      && screen.entries[k] == (i + 1, MatchingFiles(listing(SelectFolder(folders, chosen).id), query)[i])
  {
    var folder := SelectFolder(folders, chosen);
    var files := MatchingFiles(listing(folder.id), query);
    ShowPageLocates(folder, files, pageSize, i);
    assert Render(rootId, folders, listing, chosen, query, pageSize, page) == ShowPage(folder, files, pageSize, page);
  }
}
