/** `processa_musica.py`: the `MusicProcessor` that resolves, analyses and
    enriches one catalog entry in place, and the `process_all_music` loop
    over a whole catalog. */
module ProcessaMusica {
  import opened Catalog
  import opened ChromaNotes
  import opened AudioAssets
  import opened Batch

  /** The keys `process` writes into the entry. */
  const FeatureKeys: set<string> := {"duration", "tempo", "chroma_mean", "chroma_notes"}

  function Nums(xs: seq<real>): (v: seq<Value>)
    ensures |v| == |xs|
    ensures forall i :: 0 <= i < |v| ==> v[i] == Num(xs[i])
  {
    seq(|xs|, i requires 0 <= i < |xs| => Num(xs[i]))
  }

  /** The JSON form of the translator's records. */
  function NotesValue(notes: seq<NoteIntensity>): (v: Value)
    ensures v.Arr? && |v.items| == |notes|
    ensures forall i :: 0 <= i < |notes| ==>
      v.items[i] == Obj(map["note" := Str(notes[i].note), "intensity" := Num(notes[i].intensity)])
  {
    Arr(seq(|notes|, i requires 0 <= i < |notes| =>
      Obj(map["note" := Str(notes[i].note), "intensity" := Num(notes[i].intensity)])))
  }

  /** The dictionary `extract_audio_features` returns for one analysis. */
  function Features(a: Analysis): (features: map<string, Value>)
    ensures features.Keys == FeatureKeys
    ensures features["duration"] == Num(a.duration) && features["tempo"] == Num(a.tempo)
    ensures features["chroma_mean"] == Arr(Nums(a.chroma))
    ensures features["chroma_notes"] == NotesValue(Translate(a.chroma))
  {
    map[
      "duration" := Num(a.duration),
      "tempo" := Num(a.tempo),
      "chroma_mean" := Arr(Nums(a.chroma)),
      "chroma_notes" := NotesValue(Translate(a.chroma))]
  }

  /** `extract_audio_features` given the current `audio_file`. */
  function Extract(audioFile: Option<string>, host: Host): (r: Result<map<string, Value>>)
    ensures r.Err? <==> audioFile.None? || audioFile.value == [] || audioFile.value !in host.present || host.analyze(audioFile.value).None?
    ensures r.Err? && (audioFile.None? || audioFile.value == [] || audioFile.value !in host.present) ==> r.error == AudioFileMissing
    ensures r.Err? && audioFile.Some? && audioFile.value != [] && audioFile.value in host.present ==> r.error == AnalysisFailed
    ensures r.Ok? ==> r.value == Features(host.analyze(audioFile.value).value)
    ensures r.Ok? ==> r.value.Keys == FeatureKeys
    ensures r.Ok? ==> var chroma := host.analyze(audioFile.value).value.chroma;
      r.value["chroma_mean"] == Arr(Nums(chroma)) && |r.value["chroma_mean"].items| == |chroma| &&
      r.value["chroma_notes"] == NotesValue(Translate(chroma)) && |r.value["chroma_notes"].items| == Min(12, |chroma|)
  {
    if audioFile.None? || audioFile.value == [] || audioFile.value !in host.present then Err(AudioFileMissing)
    else
      match host.analyze(audioFile.value)
      case None => Err(AnalysisFailed)
      case Some(a) => Ok(Features(a))
  }

  /** What `process` makes of an entry's fields: resolve, extract, merge. */
  function Enrich(fields: map<string, Value>, musicDir: string, host: Host): Result<map<string, Value>> {
    var path :- ResolveAudioFile(fields, musicDir, host);
    var features :- Extract(Some(path), host);
    Ok(fields + features)
  }

  class MusicProcessor {
    const musicData: MusicData
    const musicDir: string
    var audioFile: Option<string>

    constructor (musicData: MusicData, musicDir: string := "Music")
      ensures this.musicData == musicData && this.musicDir == musicDir
      ensures audioFile == None
    {
      this.musicData := musicData;
      this.musicDir := musicDir;
      audioFile := None;
    }

    /** `find_audio_file`: sets `audio_file` to the best-matching audio name
        under `music_dir`, or raises and leaves it as it was. */
    method FindAudioFile(host: Host) returns (outcome: Outcome)
      modifies this`audioFile
      ensures var r := ResolveAudioFile(musicData.fields, musicDir, host);
        (r.Ok? ==> outcome == Pass && audioFile == Some(r.value)) &&
        (r.Err? ==> outcome == Fail(r.error) && audioFile == old(audioFile))
    {
      var title := Title(musicData.fields);
      if title.Err? {
        return Fail(title.error);
      }
      if musicDir !in host.listing {
        return Fail(ListingFailed);
      }
      var files := host.listing[musicDir];
      var audioFiles := AudioFiles(files);
      var matches := BestMatch(title.value, audioFiles, host.ratio, Cutoff);
      if matches.Some? {
        audioFile := Some(Join(musicDir, matches.value));
        outcome := Pass;
      } else {
        outcome := Fail(NoCloseMatch);
      }
    }

    /** `extract_audio_features`: analyses `audio_file`, changing nothing. */
    method ExtractAudioFeatures(host: Host) returns (features: Result<map<string, Value>>)
      ensures features == Extract(audioFile, host)
    {
      if audioFile.None? || audioFile.value == [] || audioFile.value !in host.present {
        return Err(AudioFileMissing);
      }
      var analysis := host.analyze(audioFile.value);
      if analysis.None? {
        return Err(AnalysisFailed);
      }
      var a := analysis.value;
      var chromaNotes := Translate(a.chroma);
      features := Ok(map[
        "duration" := Num(a.duration),
        "tempo" := Num(a.tempo),
        "chroma_mean" := Arr(Nums(a.chroma)),
        "chroma_notes" := NotesValue(chromaNotes)]);
    }

    /** `process`: on success the entry holds its old fields merged with the
        four features and is returned; on failure it is left untouched. */
    method Process(host: Host) returns (res: Result<MusicData>)
      modifies this`audioFile, musicData`fields
      ensures var e := Enrich(old(musicData.fields), musicDir, host);
        (e.Ok? ==> res == Ok(musicData) && musicData.fields == e.value) &&
        (e.Err? ==> res == Err(e.error) && musicData.fields == old(musicData.fields))
      ensures var r := ResolveAudioFile(old(musicData.fields), musicDir, host);
        audioFile == if r.Ok? then Some(r.value) else old(audioFile)
      ensures res.Ok? == Enrich(old(musicData.fields), musicDir, host).Ok?
      ensures res.Ok? ==> res.value == musicData
    {
      var found := FindAudioFile(host);
      if found.Fail? {
        return Err(found.error);
      }
      var features := ExtractAudioFeatures(host);
      if features.Err? {
        return Err(features.error);
      }
      musicData.fields := musicData.fields + features.value;
      res := Ok(musicData);
    }
  }

  // ---------------------------------------------------------------------------
  // What processing one entry promises

  /** A successful merge writes exactly the four feature keys and keeps every
      other field, including the title. */
  lemma EnrichMerges(fields: map<string, Value>, musicDir: string, host: Host)
    requires Enrich(fields, musicDir, host).Ok?
    ensures var merged := Enrich(fields, musicDir, host).value;
      merged.Keys == fields.Keys + FeatureKeys &&
      (forall k :: k in fields && k !in FeatureKeys ==> merged[k] == fields[k]) &&
      "title" in merged && merged["title"] == fields["title"]
  {
  }

  /** `process` fails exactly when resolution or extraction fails. */
  lemma EnrichFailsWhen(fields: map<string, Value>, musicDir: string, host: Host)
    ensures Enrich(fields, musicDir, host).Err? <==>
      ResolveAudioFile(fields, musicDir, host).Err? ||
      Extract(Some(ResolveAudioFile(fields, musicDir, host).value), host).Err?
  {
  }

  /** Processing an enriched entry again yields the same fields: the title
      is untouched, so the same file is found and analysed. */
  lemma EnrichIdempotent(fields: map<string, Value>, musicDir: string, host: Host)
    requires Enrich(fields, musicDir, host).Ok?
    ensures Enrich(Enrich(fields, musicDir, host).value, musicDir, host) == Enrich(fields, musicDir, host)
  {
    var merged := Enrich(fields, musicDir, host).value;
    assert "title" !in FeatureKeys;
    assert merged["title"] == fields["title"];
    assert Title(merged) == Title(fields);
    var features := Extract(Some(ResolveAudioFile(fields, musicDir, host).value), host).value;
    assert merged + features == merged;
  }

  // ---------------------------------------------------------------------------
  // process_all_music

  /** `process` as a function of an entry's fields. */
  function Enricher(musicDir: string, host: Host): Fields -> Result<Fields> {
    fields => Enrich(fields, musicDir, host)
  }

  /** One iteration of the loop: `MusicProcessor(music_data).process()` on
      entry `i`, whose outcome is known to be `outs[i]`. */
  method Handle(entries: seq<MusicData>, i: nat, musicDir: string, host: Host,
                ghost before: seq<Fields>, ghost outs: seq<Result<Fields>>) returns (updated: Result<MusicData>)
    requires i < |entries| == |before|
    requires outs == Outcomes(before, Enricher(musicDir, host))
    requires entries[i].fields == before[i]
    modifies entries[i]
    ensures entries[i].fields == Settled(before[i], outs[i])
    ensures updated.Ok? == outs[i].Ok?
    ensures updated.Ok? ==> updated.value == entries[i]
  {
    OutcomeAt(before, Enricher(musicDir, host), i);
    var processor := new MusicProcessor(entries[i], musicDir);
    updated := processor.Process(host);
  }

  /** `process_all_music` as written: entries are processed in order and each
      success is appended; a failure is skipped unless the entry has no title
      key, in which case the handler's KeyError ends the run at that entry
      and nothing is written. Entries handled are updated in place. */
  method ProcessAllMusic(entries: seq<MusicData>, host: Host, musicDir: string := "Music") returns (run: Run)
    requires Distinct(entries)
    modifies entries
    ensures var fs := old(FieldsOf(entries));
      var outs := Outcomes(fs, Enricher(musicDir, host));
      var stop := CrashPoint(fs, outs);
      run == (if stop < |entries| then Crashed(stop) else Written(Select(entries, Kept(outs)))) &&
      FieldsOf(entries) == Settle(fs, outs, stop)
  {
    ghost var before := FieldsOf(entries);
    ghost var outs := Outcomes(before, Enricher(musicDir, host));
    ghost var now := before;
    var processed: seq<MusicData> := [];
    var i := 0;
    while i < |entries|
      invariant 0 <= i <= |entries| == |now|
      invariant before == old(FieldsOf(entries))
      invariant i <= CrashPoint(before, outs)
      invariant processed == Select(entries, Kept(outs[..i]))
      invariant now == Settle(before, outs, i)
      invariant forall j :: 0 <= j < |entries| ==> entries[j].fields == now[j]
    {
      var updated := Handle(entries, i, musicDir, host, before, outs);
      SettleStep(before, outs, i);
      now := now[i := Settled(before[i], outs[i])];
      PickedStep(entries, outs, i);
      CrashPointStep(before, outs, i);
      if updated.Ok? {
        processed := processed + [updated.value];
      } else if "title" !in entries[i].fields {
        FieldsAre(entries, now);
        return Crashed(i);
      }
      i := i + 1;
    }
    assert outs[..i] == outs;
    FieldsAre(entries, now);
    run := Written(processed);
  }

  /** The loop with the handler as evidently intended: the diagnostic cannot
      fail, so every failed entry is skipped and the run always completes. */
  method ProcessAllMusicIsolated(entries: seq<MusicData>, host: Host, musicDir: string := "Music") returns (processed: seq<MusicData>)
    requires Distinct(entries)
    modifies entries
    ensures var fs := old(FieldsOf(entries));
      var outs := Outcomes(fs, Enricher(musicDir, host));
      processed == Select(entries, Kept(outs)) &&
      FieldsOf(entries) == Settle(fs, outs, |entries|)
  {
    ghost var before := FieldsOf(entries);
    ghost var outs := Outcomes(before, Enricher(musicDir, host));
    ghost var now := before;
    processed := [];
    var i := 0;
    while i < |entries|
      invariant 0 <= i <= |entries| == |now|
      invariant before == old(FieldsOf(entries))
      invariant processed == Select(entries, Kept(outs[..i]))
      invariant now == Settle(before, outs, i)
      invariant forall j :: 0 <= j < |entries| ==> entries[j].fields == now[j]
    {
      var updated := Handle(entries, i, musicDir, host, before, outs);
      SettleStep(before, outs, i);
      now := now[i := Settled(before[i], outs[i])];
      PickedStep(entries, outs, i);
      if updated.Ok? {
        processed := processed + [updated.value];
      }
      i := i + 1;
    }
    assert outs[..i] == outs;
    FieldsAre(entries, now);
  }

  /** An entry without a title key always fails (the title defaults to "")
      and then the handler's own lookup escapes. */
  lemma UntitledEntryEscapes(fields: Fields, musicDir: string, host: Host)
    requires "title" !in fields
    ensures Escapes(fields, Enrich(fields, musicDir, host))
  {
  }

  /** A one-entry catalog whose entry lacks a title: as written the run
      crashes at that entry and nothing is written; with the handler fixed
      the run writes an empty list. */
  method UntitledCatalogExample(musicDir: string, host: Host) returns (asWritten: Run, fixed: seq<MusicData>)
    ensures asWritten == Crashed(0)
    ensures fixed == []
  {
    var entry := new MusicData(map["artist" := Str("Queen")]);
    UntitledEntryEscapes(entry.fields, musicDir, host);
    assert Outcomes([entry.fields], Enricher(musicDir, host)) == [Enrich(entry.fields, musicDir, host)];
    asWritten := ProcessAllMusic([entry], host, musicDir);
    var other := new MusicData(map["artist" := Str("Queen")]);
    ghost var outs := Outcomes([other.fields], Enricher(musicDir, host));
    assert outs == [Enrich(other.fields, musicDir, host)];
    assert Kept(outs[..0]) == [];
    fixed := ProcessAllMusicIsolated([other], host, musicDir);
  }
}
