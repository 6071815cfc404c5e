# Music enrichment pipeline, modelled in Dafny

This project models the part of the repository that enriches a music
catalog. The catalog is a JSON list of entries, each a dict holding at least a `title`.

For each entry, a `MusicProcessor` does three things:

1. It finds the audio file whose name best matches the lower-cased title.
2. It analyses that file: duration, tempo and the mean chroma vector. The current script also translates the chroma vector into notes ordered by intensity.
3. It merges those features into the entry in place.

`process_all_music` runs the processor over every entry and collects the
successes. Both versions of the script are modelled. `processa_musica.py`
is the current one. `_processa_musica.py` is the older one, with no note
translation.

Modules:

- `Catalog` (`catalog.dfy`) holds the shared data:
  - JSON values;
  - the exceptions a single entry can raise, as `Error`;
  - `Result` and `Outcome`;
  - the entry itself, as the class `MusicData` whose `fields` map is updated in place and shared by reference.
- `ChromaNotes` (`chroma_notes.dfy`) is the pure translator `translate_chroma_to_notes`:
  - pair bin i with note name i;
  - sort stably by descending energy (an insertion sort, equal energies keeping bin order);
  - round each energy to three decimals, halves to even.
- `AudioAssets` (`audio_assets.dfy`) is the resolver `find_audio_file`, shared by both scripts, written as pure functions. The machine it observes is a `Host` value, fixed for a whole run:
  - `listing` is what `os.listdir` returns;
  - `present` is what `os.path.exists` accepts;
  - `ratio` is difflib's similarity, an uninterpreted function into [0, 1];
  - `analyze` is what librosa computes, or `None` when it raises.
- `ProcessaMusica` (`processa_musica.dfy`) holds the current script:
  - the class `MusicProcessor`, with the `audio_file` field its methods update;
  - the `process_all_music` loop.
  - The methods are proved against the specification functions `Extract` and `Enrich`, and the loop against `Outcomes`.
- `LegacyProcessaMusica` (`legacy_processa_musica.dfy`) holds the older script:
  - its own `MusicProcessor` and loop;
  - the lemma relating it to the current one.
- `Batch` (`batch.dfy`) holds what both loops share. Given each entry's outcome it defines:
  - which entries are written (`Kept`, `Select`);
  - what every entry's fields become (`Settle`);
  - where the loop stops when its own error handler raises (`CrashPoint`).

A Python exception is an `Err` value. A `process` that raises leaves the entry as it was, because the merge is its last step. Each loop takes its entries as a sequence of distinct `MusicData` objects; `json.load` always creates a new dict for each entry.

The similarity cutoff admits a score equal to 0.3, not only a score above it. This follows difflib, which keeps names whose ratio is at least the cutoff.

## Model

| member | source | states |
|---|---|---|
| ChromaNotes.RoundHalfEven | processa_musica.py:81 | the result is an integer within 1/2 of the input, and an exact half goes to the even neighbour |
| ChromaNotes.Round3 | processa_musica.py:81 | `round(x, 3)` is a multiple of 1/1000 within 0.0005 of x; when x lies exactly halfway between two thousandths, the even one is chosen |
| ChromaNotes.RoundHalfEvenMonotone | processa_musica.py:81 | rounding to an integer preserves order |
| ChromaNotes.Round3Monotone | processa_musica.py:81 | rounding to three decimals never reverses two intensities |
| ChromaNotes.Round3Exact | processa_musica.py:81 | a value that already has three decimals is emitted unchanged |
| ChromaNotes.Round3HalfToEven | processa_musica.py:81 | exact halves go to the even neighbour: 0.1235 and 0.1245 both give 0.124 |
| ChromaNotes.Zip | processa_musica.py:77 | `zip(notes, chroma_mean)` has min(12, len) pairs, pair i being bin i with energy chroma[i] |
| ChromaNotes.Insert | processa_musica.py:79 | inserting one pair into a sorted list adds exactly that pair, as a multiset |
| ChromaNotes.SortDescending | processa_musica.py:79 | the sort returns a permutation of its input |
| ChromaNotes.InsertRanked | processa_musica.py:79 | insertion keeps a list in stable descending order when the new pair comes from an earlier bin |
| ChromaNotes.SortRanked | processa_musica.py:79 | the sorted pairs are in descending energy, and equal energies keep their bin order (the sort is stable) |
| ChromaNotes.SortLevelSequence | processa_musica.py:79 | pairs that all have the same energy come out in their input order |
| ChromaNotes.Emit | processa_musica.py:81 | the comprehension emits one record per sorted pair |
| ChromaNotes.Translate | processa_musica.py:68-81 | the translator emits min(12, len) records, so 12 for a 12-bin input |
| ChromaNotes.NoteIndex | processa_musica.py:75 | a name's position in the note list C..B, total and inverse to indexing |
| ChromaNotes.TranslateIsPermutation | processa_musica.py:75-81 | the emitted note names are a permutation of the first min(12, len) names C, C#, ..., B |
| ChromaNotes.TranslateIntensities | processa_musica.py:77-81 | each record's intensity is the input energy at that note's bin, rounded to three decimals |
| ChromaNotes.TranslateIsStable | processa_musica.py:79 | records run from the strongest bin down; equal energies keep bin order |
| ChromaNotes.TranslateNonIncreasing | processa_musica.py:79-81 | the emitted intensities never increase along the output |
| ChromaNotes.TranslateSilence | processa_musica.py:75-81 | an all-zero input yields C, C#, ..., B in order, each at 0.0 |
| ChromaNotes.TranslateLoneC | processa_musica.py:77-81 | the input [1, 0, ..., 0] yields `{note: "C", intensity: 1.0}` first |
| AudioAssets.Lower | processa_musica.py:23 | lower-casing keeps the length, leaves no upper-case letter and changes only upper-case letters |
| AudioAssets.LowerIdempotent | processa_musica.py:23 | lower-casing twice is lower-casing once |
| AudioAssets.Title | processa_musica.py:23-25 | the title is the lower-cased `title` text; an absent or empty title is a ValueError; a non-text title raises; a non-empty text title always succeeds |
| AudioAssets.HasAudioExtension | processa_musica.py:29 | `f.endswith(('.wav', '.mp3', '.flac'))`: the name ends in one of the three extensions, compared case-sensitively |
| AudioAssets.ExtensionIsCaseSensitive | processa_musica.py:29 | song.mp3 and take 2.flac pass; song.MP3, song.mp3.txt and the bare wav do not |
| AudioAssets.AudioExtensionStem | processa_musica.py:29 | a name passes exactly when it is some stem, possibly empty, followed by .wav, .mp3 or .flac |
| AudioAssets.AudioFiles | processa_musica.py:29 | a name is a candidate exactly when it is listed and ends in .wav, .mp3 or .flac, compared case-sensitively |
| AudioAssets.AudioFilesIdempotent | processa_musica.py:29 | filtering the candidates again changes nothing |
| AudioAssets.BestMatch | processa_musica.py:32 | a listed name is chosen whose score is at least the cutoff and maximal; no name is chosen exactly when every score is below the cutoff |
| AudioAssets.Join | processa_musica.py:34 | POSIX `os.path.join` (separator `/`) ends with the name, or is the name itself when that is absolute; a relative name is placed under the directory, which the path begins with |
| AudioAssets.ResolveAudioFile | processa_musica.py:19-37 | `find_audio_file` as a function: a title error is raised as is, and a path is only found for a valid title in a directory that lists |
| AudioAssets.ResolveSpec | processa_musica.py:19-37 | resolution succeeds exactly when the title is non-empty text, the directory lists and some candidate reaches the cutoff; the path then joins the directory with a candidate of maximal score. With a valid title an unlisted directory is the listing error and any other failure is the no-close-match FileNotFoundError |
| AudioAssets.ResolveRejectsEmptyTitle | processa_musica.py:23-25 | a missing or empty title raises ValueError before the directory is read |
| AudioAssets.ResolveIgnoresOtherFiles | processa_musica.py:29-32 | names without an audio extension never influence the outcome |
| ProcessaMusica.Nums | processa_musica.py:63 | `chroma_mean` holds the chroma energies one-for-one as numbers |
| ProcessaMusica.NotesValue | processa_musica.py:64 | `chroma_notes` holds one object per translated record: object i has exactly the keys note and intensity, with record i's values |
| ProcessaMusica.Features | processa_musica.py:60-65 | the returned dictionary has exactly the four keys: `duration` and `tempo` are the analysed values, `chroma_mean` the chroma energies one-for-one and `chroma_notes` the translation of the chroma vector |
| ProcessaMusica.Extract | processa_musica.py:44-65 | extraction fails exactly when `audio_file` is unset, empty or absent (FileNotFoundError) or the analysis raises, and the error says which. Otherwise it returns `Features` of the analysis: the four keys, with duration and tempo as analysed, `chroma_mean` as long as the chroma vector and `chroma_notes` the translator's output |
| ProcessaMusica.Enrich | processa_musica.py:90-93 | `process` as a function of the entry's fields: resolve, then extract, then merge; its properties are the Enrich lemmas below |
| ProcessaMusica.MusicProcessor.constructor | processa_musica.py:9-17 | the processor holds the entry and the directory, "Music" by default, and no audio file |
| ProcessaMusica.MusicProcessor.FindAudioFile | processa_musica.py:19-37 | on success `audio_file` is the resolved path; on every error the error is raised and `audio_file` is left as it was |
| ProcessaMusica.MusicProcessor.ExtractAudioFeatures | processa_musica.py:39-65 | returns the features, or raises, for the current `audio_file` and changes nothing |
| ProcessaMusica.MusicProcessor.Process | processa_musica.py:83-93 | on success the same entry object is returned holding its old fields merged with the features. On failure the error is raised and the entry is untouched |
| ProcessaMusica.EnrichMerges | processa_musica.py:90-93 | a merge writes exactly duration, tempo, chroma_mean and chroma_notes; every other key, the title included, is unchanged |
| ProcessaMusica.EnrichFailsWhen | processa_musica.py:90-92 | `process` fails exactly when resolution or extraction fails |
| ProcessaMusica.EnrichIdempotent | processa_musica.py:83-93 | processing an enriched entry again gives the same fields |
| ProcessaMusica.Handle | processa_musica.py:120-123 | one iteration settles entry i by its outcome and yields that entry on success |
| ProcessaMusica.ProcessAllMusic | processa_musica.py:118-126 | the loop as written. It stops at the first failed entry without a title key, and then nothing is written. Otherwise it writes the successful entries in catalog order. Entries before the stop are settled and the rest are untouched |
| ProcessaMusica.ProcessAllMusicIsolated | processa_musica.py:118-126 | the loop with a handler that cannot fail: it writes exactly the successful entries in catalog order, every entry settled |
| ProcessaMusica.UntitledEntryEscapes | processa_musica.py:126 | an entry without a title key always fails, and then the handler's own lookup raises |
| ProcessaMusica.UntitledCatalogExample | processa_musica.py:118-126 | a one-entry catalog lacking a title crashes the loop as written at entry 0, while the fixed loop writes an empty list |
| Batch.Outcomes | processa_musica.py:119-122 | one outcome per entry, in catalog order, for either script's `process` |
| Batch.WrittenAreSuccesses | processa_musica.py:118-126 | the indices written are increasing and are exactly those whose `process` succeeded |
| Batch.Escapes | processa_musica.py:126 | a failure escapes the handler exactly when the entry has no title key, because the handler reads `music_data['title']` |
| Batch.Settled | processa_musica.py:90-92 | an entry's fields after its `process`: the merged fields on success, its old fields on failure |
| Batch.CrashPoint | processa_musica.py:119-126 | the loop gets through at most all entries |
| Batch.Kept | processa_musica.py:119-123 | every index appended is in range and its `process` succeeded |
| Batch.Select | processa_musica.py:123 | the written list holds the entries at the appended indices, in order |
| Batch.Settle | processa_musica.py:119-126 | after a run every entry still has fields, one per entry |
| Batch.KeptIsSuccessSubsequence | processa_musica.py:118-126 | the appended indices are increasing and are exactly the successful ones, so the output is an order-preserving subsequence |
| Batch.TitledCatalogRunsToEnd | processa_musica.py:124-126 | when every entry has a title key the loop never stops early |
| Batch.CrashPointStep | processa_musica.py:119-126 | a loop that has got past the earlier entries stops at entry i exactly when that entry's failure escapes |
| Batch.CrashPointIsFirstEscape | processa_musica.py:126 | the stop point is the first failed entry without a title key, or the end |
| Batch.SettleKeepsFailures | processa_musica.py:90-92 | entries that failed or were not reached keep their fields; a success's fields become the merged ones |
| LegacyProcessaMusica.Features | _processa_musica.py:63-67 | the returned dictionary has exactly duration, tempo and chroma_mean: duration and tempo are the analysed values, chroma_mean the chroma energies one-for-one |
| LegacyProcessaMusica.Extract | _processa_musica.py:45-67 | fails exactly when `audio_file` is unset, empty or absent (FileNotFoundError) or the analysis raises, and the error says which. Otherwise it returns `Features` of the analysis: duration and tempo as analysed and chroma_mean as long as the chroma vector |
| LegacyProcessaMusica.Enrich | _processa_musica.py:76-79 | the older `process` as a function of the entry's fields: resolve, extract, merge |
| LegacyProcessaMusica.MusicProcessor.constructor | _processa_musica.py:15-23 | the processor holds the entry and the directory, "Music" by default, and no audio file |
| LegacyProcessaMusica.MusicProcessor.FindAudioFile | _processa_musica.py:25-43 | on success `audio_file` is the directory joined with the best candidate; on every error it is left as it was |
| LegacyProcessaMusica.MusicProcessor.ExtractAudioFeatures | _processa_musica.py:45-67 | returns the three features, or raises, for the current `audio_file` and changes nothing |
| LegacyProcessaMusica.MusicProcessor.Process | _processa_musica.py:69-79 | on success the same entry object is returned, merged with the three features. On failure the entry is untouched |
| LegacyProcessaMusica.EnrichMerges | _processa_musica.py:63-79 | a merge writes exactly duration, tempo and chroma_mean, keeps every other key and never adds chroma_notes |
| LegacyProcessaMusica.CurrentExtendsLegacy | _processa_musica.py:45-79 | the current `process` fails on the same entries with the same error. On success its result is the older one with `chroma_notes` set to the translated chroma |
| LegacyProcessaMusica.Handle | _processa_musica.py:90-92 | one iteration settles entry i by its outcome and yields that entry on success |
| LegacyProcessaMusica.ProcessAllMusic | _processa_musica.py:87-95 | the loop as written: successes in catalog order, unless a failed entry lacks a title key, where it stops with nothing written |

## Left out

- librosa: loading, `get_duration`, `beat.beat_track` and `chroma_stft` with its mean are the abstract `Host.analyze`, which returns an analysis or fails.
- difflib: the similarity ratio is the uninterpreted `Host.ratio` into [0, 1].
- AudioAssets.BestMatch: of several names sharing the highest score it returns the first listed. difflib's own choice among ties is not modelled, and the contract states only that the chosen score is maximal.
- AudioAssets.Join: it joins paths the POSIX way (`posixpath.join`). The Windows `ntpath.join`, with `\` and drive letters, is not modelled.
- I/O: `os.listdir` and `os.path.exists` are the `Host.listing` and `Host.present` values. Reading and writing the JSON files, the output file name and every `print` are left out.
- The directory listing and the files on disk are taken to stay the same for a whole run.
- `NumpyEncoder` and the `float(...)`/`tolist()` conversions only coerce numpy types for serialization. Numbers are exact reals here.
- ChromaNotes.Round3: it rounds exact reals half to even. The intensity is a numpy float32 taken from `chroma.mean`, and numpy's `round` scales by 1000 and then rounds half to even with `rint` on binary floats, so its result can differ from the exact one where the scaled value is not exactly representable.
- AudioAssets.Lower: it lower-cases only the ASCII letters A-Z. Python's `str.lower` also folds non-ASCII letters.
- Catalog entries that are not JSON objects are not modelled; the loops take a sequence of distinct dict objects, as `json.load` produces.
- ProcessaMusica.ProcessAllMusic: a run that crashes is reported by the index of the entry whose KeyError escaped. The traceback and the exception's propagation to the caller are not modelled.
- The remaining scripts (`graficos.py`, `billboard_fetcher.py`, `youtube_fetcher.py`, `downloader.py` and `main.py`) are not part of this model. They plot, scrape, download or run the others.

## Findings

| source | as written | input that shows it | evidently intended | confidence | as-written member | corrected member |
|---|---|---|---|---|---|---|
| processa_musica.py:126 | The `except` handler prints `music_data['title']`. An entry without a `title` key always fails in `find_audio_file` (the title defaults to ""). The handler's own lookup then raises KeyError, which ends `process_all_music` before `json.dump`, so nothing is written. `_processa_musica.py:95` has the same handler (`LegacyProcessaMusica.ProcessAllMusic`). | the catalog `[{"artist": "Queen"}]`, worked through in `ProcessaMusica.UntitledCatalogExample` | skip the failed entry, go on, and write the successful entries (here an empty list) | not executed | ProcessaMusica.ProcessAllMusic | ProcessaMusica.ProcessAllMusicIsolated |
