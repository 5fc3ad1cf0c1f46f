# Google Drive audio browser: list logic

This project models the list-shaping core of a Streamlit page that browses
the WAV files kept in the sub-folders of one Google Drive folder (`app.py`).
The page does the following on each run:

1. It lists the sub-folders of the configured root folder.
2. The user picks one by name.
3. It lists that folder's files and keeps those whose name ends in `.wav` or
   `.wave` (`list_wav_files`).
4. It narrows them with a case-insensitive search box.
5. It shows one page of them, each file numbered by its place in the list.

The Drive listings are inputs to the model. The folder listing is a
`seq<Folder>`. The file listing of each folder is a function from folder id
to `seq<DriveFile>`. Everything else is pure functions and lemmas.

Modules:

- `Options`: `Option`, for record fields the service may leave out.
- `Text`: ASCII lower-casing, Python's `str.strip` (its whitespace set is
  the 29 code points of `str.isspace`), and the substring test `a in b`.
- `Seqs`: `Filter`, the shape of a list comprehension with a condition,
  and the subsequence relation.
- `Catalog`: the `DriveFile` and `Folder` records, the audio-name pattern,
  the WAV filter, and folder selection by name.
- `Paging`: the page count, the page slice, and the running numbers.
- `Browse`: the search filter and one whole run of the page (`Render`).
- `Scenarios`: worked examples proved for fixed inputs, for example 125 files at 50 per page, or the
  query "take".

### Details of the code that the model keeps

- The audio pattern is `\.(wav|wave)$`, applied with `re.search`. In Python,
  `$` also matches just before a newline that ends the string. So a name
  like `"a.wav\n"` is kept, and `HasAudioExtension` accepts it.
  `Catalog.AudioExtensionIsPatternSearch` proves that this suffix test
  equals the search for the pattern.
- The code does no clamping of the page size or the page number. The number
  inputs bound them instead: 10 to 200 for the page size (app.py:123), and 1
  to the page count for the page (app.py:134). In the model these bounds
  are preconditions (`Browse.WidgetsInRange`).
- The search guard strips the query, but the match uses the query as typed
  (`Scenarios.UnstrippedQueryExample`).

## Model

| member | source | states |
|---|---|---|
| `Seqs.Filter` | app.py:53 | The comprehension keeps an element as often as it occurs in the input if it passes the test, and never otherwise. |
| `Seqs.FilterIsSubsequence` | app.py:53 | A comprehension's result is a subsequence of its input, in the input's order. |
| `Seqs.FilterIdempotent` | app.py:127 | Running the same comprehension twice gives the same result as running it once. |
| `Catalog.AudioExtensionIsPatternSearch` | app.py:12 | A name passes the suffix test exactly when `re.search` finds the pattern `.wav` or `.wave` at the end (the `$` of the regex) with IGNORECASE, including the match just before a final newline. |
| `Catalog.AtEnd` | app.py:12 | Where `$` matches: at the end of the name, or just before a newline that ends it. |
| `Catalog.PatternAt` | app.py:12 | The pattern matches at position `i`: a `.`, then `wav` or `wave` in any letter case, then `$`. |
| `Catalog.PatternFound` | app.py:12 | `re.search` succeeds: the pattern matches at some position. |
| `Catalog.HasAudioExtension` | app.py:12 | The suffix test: the lower-cased name ends in `.wav` or `.wave`, possibly followed by one final newline. `Catalog.AudioExtensionIsPatternSearch` proves it equal to the pattern search. |
| `Catalog.IsWavFile` | app.py:53 | An entry passes exactly when it has a name and the pattern is found in that name. An empty name never passes. |
| `Catalog.ListWavFiles` | app.py:53 | Keeps exactly the entries that have a non-empty name carrying an audio extension, with their multiplicity, in listing order. Every kept name has at least 4 characters. |
| `Catalog.ListedNamesMatchPattern` | app.py:53 | Every returned entry has a name in which the pattern is found. |
| `Catalog.UnnamedNeverListed` | app.py:53 | An entry with no name or an empty name is never returned. |
| `Catalog.ListWavFilesIdempotent` | app.py:53 | Filtering an already filtered listing changes nothing. |
| `Catalog.FirstNamedIndex` | app.py:113-115 | The folder chosen by name is the first listed folder with that name. No earlier folder has the name, and the search cannot fail because the name comes from the listed names. |
| `Catalog.SelectFolder` | app.py:115 | The selected folder is a listed folder with the chosen name, and no folder before it in the listing has that name: `next` takes the first match. |
| `Catalog.FolderNames` | app.py:113 | `[f["name"] for f in folders]`: the drop-down offers each folder's name, in listing order. |
| `Catalog.EveryListedNameResolves` | app.py:113-115 | Every name offered in the drop-down can be chosen. It resolves to that folder or to an earlier one with the same name. |
| `Catalog.DistinctNamesSelectChosenFolder` | app.py:113-115 | When folder names are distinct, choosing a folder's name selects that very folder. |
| `Text.TrimStart` | app.py:126 | `lstrip` removes only leading white space. Its result is empty exactly when the input is blank, and otherwise starts with a non-space. |
| `Text.TrimEnd` | app.py:126 | `rstrip` removes only trailing white space. Its result is empty exactly when the input is blank, and otherwise ends with a non-space. |
| `Text.Strip` | app.py:126 | `query.strip()` is a slice of the query with only white space before and after it. It is empty exactly when the query is all white space, and otherwise its ends are not white space. |
| `Text.Lower` | app.py:127 | Lower-casing keeps the length, turns each upper-case ASCII letter into its small letter (code point plus 32), and leaves every other character as it is, so no upper-case ASCII letter remains. Non-ASCII letters are the `Text.Lower, Browse.SearchFilter` line under Left out. |
| `Text.IsSpace` | app.py:126 | The white-space characters of `str.isspace`, which `strip()` removes: 9-13, 28-32, U+0085, U+00A0, U+1680, U+2000-U+200A, U+2028, U+2029, U+202F, U+205F and U+3000. |
| `Text.IsBlank` | app.py:126 | A string is blank when every character is white space; the empty string is blank, so `query.strip()` is falsy exactly for a blank query. |
| `Text.Contains` | app.py:127 | `q in name` holds exactly when `q` occurs at some position of `name`. |
| `Browse.NameContainsQuery` | app.py:127 | The search test `query.lower() in f["name"].lower()`, with the query as typed, not stripped. |
| `Browse.SearchFilter` | app.py:126-127 | A blank query leaves the list unchanged. Otherwise it keeps exactly the files whose lower-cased name contains the lower-cased, unstripped query, with their multiplicity, as a subsequence of the input. |
| `Browse.SearchFilterIdempotent` | app.py:126-127 | Searching the search result again with the same text changes nothing. |
| `Browse.SearchIgnoresQueryCase` | app.py:127 | Lower-casing the query first does not change the result. |
| `Browse.MatchingFiles` | app.py:125-127 | The files to paginate are exactly the folder's WAV entries whose name contains the query, or all of them when the query is blank. Each such entry appears as often as in the listing, in the order of the WAV list, and the result is no longer than the listing. |
| `Browse.RootConfigured` | app.py:93-94 | The page goes on only when the root folder id is present and not empty. |
| `Browse.WidgetsInRange` | app.py:113-134 | What the widgets guarantee: the page size lies in 10 to 200; once there are folders, the chosen name is a listed name and the page lies in 1 to the page count. |
| `Browse.WavFilesAreNamed` | app.py:125-127 | Every file of the WAV list has a name, so the search's `f["name"]` cannot fail on it. |
| `Paging.CeilingDivision` | app.py:133 | `(total + page_size - 1) // page_size` is the ceiling of `total / page_size`. |
| `Paging.PageCount` | app.py:133 | The page count is at least 1. It is 1 for no files, and otherwise the fewest pages that hold all the files. |
| `Paging.PageBounds` | app.py:134-136 | For an admitted page, `0 <= start <= end <= total` and a page holds at most `page_size` files. Only the last page may hold fewer, and a page is empty only when the list is. |
| `Paging.PageStart` | app.py:135 | The index of the first file of page `page`: `(page - 1) * page_size`. `Paging.PageBounds` proves its bounds. |
| `Paging.PageEnd` | app.py:136 | One past the last file of the page: `start + page_size`, cut down to the count. `Paging.PageBounds` proves its bounds. |
| `Paging.Page` | app.py:135-137 | The slice holds `end - start` files, at most `page_size`. Only the last page is short, it is empty exactly when the list is, and element `k` is file `start + k`. |
| `Paging.Enumerate` | app.py:141 | `enumerate(s, start=first)`: pairs element `k` of `s` with the number `first + k`. |
| `Paging.PageEntries` | app.py:141 | Entry `k` of page `p` is numbered `(p - 1) * page_size + k + 1`, and it is the file at that 1-based position of the list. |
| `Paging.PagesFromIsSuffix` | app.py:133-137 | Pages `p` to the last, laid end to end, are the list from `start` of page `p` on. |
| `Paging.PagesReassembleList` | app.py:133-137 | Pages 1 to the last, in order, reproduce the list. No file is skipped or repeated. |
| `Paging.EveryItemHasAnEntry` | app.py:133-141 | File `i` is shown on page `i / page_size + 1`, which is an admitted page, at position `i % page_size`, numbered `i + 1`. |
| `Paging.EntryNumberFixesPlace` | app.py:135-141 | An entry's number alone determines its page and position, so no file appears twice. |
| `Browse.ShowPage` | app.py:129-141 | The folder view gives the count of the files and the page count: 1 for no files, otherwise the fewest pages that hold all the files. Its entries (at most `page_size`, none only for an empty list) are numbered from `start + 1`. Each number lies between 1 and the count, and the entry's file is the file at that 1-based position of the list. |
| `Browse.ShowPageLocates` | app.py:133-141 | In the folder view, file `i` is entry `i % page_size` of page `i / page_size + 1`, numbered `i + 1`. |
| `Browse.Render` | app.py:93-141 | A missing or empty root id stops the page. An empty folder listing stops it with a warning. Otherwise the page shows the folder that `SelectFolder` picks (the first one with the chosen name), the count of matching WAV files, and the numbered entries of the requested page, all among the matching files. The view is the folder view of that folder's matching files, so `Browse.ShowPage` gives each entry's position. |
| `Browse.RenderedFilesMatch` | app.py:125-141 | Every file the page lists is a WAV file of the chosen folder, and its name contains the query when the query is not blank. |
| `Browse.RenderedPagesShowEveryFile` | app.py:133-141 | Each matching file is shown on page `i / page_size + 1` at position `i % page_size`, numbered `i + 1`. |
| `Scenarios.PaginationOf125Files` | app.py:133-137 | 125 files at 50 per page make 3 pages. Page 1 is files 0-49, and page 3 is files 100-124 (25 files). |
| `Scenarios.EmptyListingHasOneEmptyPage` | app.py:133-137 | No files make one page, and that page is empty. |
| `Scenarios.SearchTakeExample` | app.py:126-127 | Searching "take" in drum_loop.wav, Vocal_Take1.wav and noise.WAVE keeps only Vocal_Take1.wav. |
| `Scenarios.UnstrippedQueryExample` | app.py:126-127 | The query " take" is not stripped before matching, so it does not match Vocal_Take1.wav. |
| `Scenarios.WavFilterExample` | app.py:12-53 | An unnamed entry and notes.txt are dropped. Take.WaV is kept. |

## Left out

- Authentication and the Drive API calls (`get_drive_service`, `files().list`, `get_media`, app.py:14-20, 23-36, 39-52, 58-59). These are network calls into client libraries. Their results are inputs here. The query strings, `orderBy="name"` and `pageSize=1000` are interpreted by the service, so listing order and the 1000-entry cap come with the input.
- The `st.cache_data` memoisation with 60 s and 3600 s lifetimes, and the refresh button that clears it (app.py:22, 38, 56, 100-106). Expiry is done by Streamlit against the wall clock, and the cached value is the same listing the model takes as input.
- `download_file_bytes` (app.py:57-71). Its loop only waits for the `done` flag of the library's downloader, and the bytes are gathered inside that library.
- `audio_player_nodownload` (app.py:73-86). It builds base64 and HTML for playback, which is a presentation concern. It cannot actually prevent downloads.
- Streamlit page setup, titles, captions, expanders and the second download and player for each file (app.py:7, 91, 98-100, 117-124, 130, 139-148). These are UI only. The widget bounds are kept as preconditions (`Browse.WidgetsInRange`), and the stops at app.py:94-96 and 109-111 are the `MissingRootFolder` and `NoSubfolders` screens.
- The `mimeType` and `size` fields are carried through unchanged. Nothing in the core reads them.
- `Text.Lower`, `Browse.SearchFilter`: names and the query are lower-cased by ASCII rules only. Python's `str.lower` also folds non-ASCII letters, and can change a string's length (for example `'İ'`). So for non-ASCII names the model can keep or drop a file differently from Python. The audio pattern is not affected: no other character folds to `.`, `w`, `a`, `v` or `e` under `re.IGNORECASE`.
- `Text.Strip`: like Python's `str.strip`, but the model's white-space set is fixed to the 29 code points of the Unicode version current for Python 3.
