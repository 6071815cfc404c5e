/** `_processa_musica.py`: the older `MusicProcessor`, identical in how it
    resolves the audio file but extracting only duration, tempo and the
    mean chroma vector (no note translation), and its `process_all_music`
    loop, which has the same error handler as the current one. */
module LegacyProcessaMusica {
  import opened Catalog
  import opened ChromaNotes
  import opened AudioAssets
  import opened Batch
  import Current = ProcessaMusica

  /** The keys the older `process` writes into the entry. */
  const FeatureKeys: set<string> := {"duration", "tempo", "chroma_mean"}

  /** The dictionary the older `extract_audio_features` returns. */
  function Features(a: Analysis): (features: map<string, Value>)
    ensures features.Keys == FeatureKeys
    ensures features["duration"] == Num(a.duration) && features["tempo"] == Num(a.tempo)
    ensures features["chroma_mean"] == Arr(Current.Nums(a.chroma))
  {
    map[
      "duration" := Num(a.duration),
      "tempo" := Num(a.tempo),
      "chroma_mean" := Arr(Current.Nums(a.chroma))]
  }

  /** The older `extract_audio_features` given the current `audio_file`. */
  function Extract(audioFile: Option<string>, host: Host): (r: Result<Fields>)
    ensures r.Err? <==> audioFile.None? || audioFile.value == [] || audioFile.value !in host.present || host.analyze(audioFile.value).None?
    ensures r.Err? && (audioFile.None? || audioFile.value == [] || audioFile.value !in host.present) ==> r.error == AudioFileMissing
    ensures r.Err? && audioFile.Some? && audioFile.value != [] && audioFile.value in host.present ==> r.error == AnalysisFailed
    ensures r.Ok? ==> r.value == Features(host.analyze(audioFile.value).value)
    ensures r.Ok? ==> r.value.Keys == FeatureKeys
    ensures r.Ok? ==> var chroma := host.analyze(audioFile.value).value.chroma;
      r.value["chroma_mean"] == Arr(Current.Nums(chroma)) && |r.value["chroma_mean"].items| == |chroma|
  {
    if audioFile.None? || audioFile.value == [] || audioFile.value !in host.present then Err(AudioFileMissing)
    else
      match host.analyze(audioFile.value)
      case None => Err(AnalysisFailed)
      case Some(a) => Ok(Features(a))
  }

  /** What the older `process` makes of an entry's fields. */
  function Enrich(fields: Fields, musicDir: string, host: Host): Result<Fields> {
    var path :- ResolveAudioFile(fields, musicDir, host);
    var features :- Extract(Some(path), host);
    Ok(fields + features)
  }

  class MusicProcessor {
    const musicData: MusicData
    const musicDir: string
    var audioFile: Option<string>

    constructor (musicData: MusicData, musicDir: string := "Music")
      ensures this.musicData == musicData && this.musicDir == musicDir
      ensures audioFile == None
    {
      this.musicData := musicData;
      this.musicDir := musicDir;
      audioFile := None;
    }

    /** `find_audio_file`, the same resolver as the current script's. */
    method FindAudioFile(host: Host) returns (outcome: Outcome)
      modifies this`audioFile
      ensures var r := ResolveAudioFile(musicData.fields, musicDir, host);
        (r.Ok? ==> outcome == Pass && audioFile == Some(r.value)) &&
        (r.Err? ==> outcome == Fail(r.error) && audioFile == old(audioFile))
    {
      var title := Title(musicData.fields);
      if title.Err? {
        return Fail(title.error);
      }
      if musicDir !in host.listing {
        return Fail(ListingFailed);
      }
      var files := host.listing[musicDir];
      var audioFiles := AudioFiles(files);
      var matches := BestMatch(title.value, audioFiles, host.ratio, Cutoff);
      if matches.Some? {
        audioFile := Some(Join(musicDir, matches.value));
        outcome := Pass;
      } else {
        outcome := Fail(NoCloseMatch);
      }
    }

    /** `extract_audio_features`: the three features, changing nothing. */
    method ExtractAudioFeatures(host: Host) returns (features: Result<Fields>)
      ensures features == Extract(audioFile, host)
    {
      if audioFile.None? || audioFile.value == [] || audioFile.value !in host.present {
        return Err(AudioFileMissing);
      }
      var analysis := host.analyze(audioFile.value);
      if analysis.None? {
        return Err(AnalysisFailed);
      }
      var a := analysis.value;
      features := Ok(map[
        "duration" := Num(a.duration),
        "tempo" := Num(a.tempo),
        "chroma_mean" := Arr(Current.Nums(a.chroma))]);
    }

    /** `process`: on success the entry holds its old fields merged with the
        three features and is returned; on failure it is left untouched. */
    method Process(host: Host) returns (res: Result<MusicData>)
      modifies this`audioFile, musicData`fields
      ensures var e := Enrich(old(musicData.fields), musicDir, host);
        (e.Ok? ==> res == Ok(musicData) && musicData.fields == e.value) &&
        (e.Err? ==> res == Err(e.error) && musicData.fields == old(musicData.fields))
      ensures var r := ResolveAudioFile(old(musicData.fields), musicDir, host);
        audioFile == if r.Ok? then Some(r.value) else old(audioFile)
    {
      var found := FindAudioFile(host);
      if found.Fail? {
        return Err(found.error);
      }
      var features := ExtractAudioFeatures(host);
      if features.Err? {
        return Err(features.error);
      }
      musicData.fields := musicData.fields + features.value;
      res := Ok(musicData);
    }
  }

  // ---------------------------------------------------------------------------
  // What processing one entry promises

  /** A successful merge writes exactly the three feature keys, keeps every
      other field and adds no `chroma_notes` key of its own. */
  lemma EnrichMerges(fields: Fields, musicDir: string, host: Host)
    requires Enrich(fields, musicDir, host).Ok?
    ensures var merged := Enrich(fields, musicDir, host).value;
      merged.Keys == fields.Keys + FeatureKeys &&
      (forall k :: k in fields && k !in FeatureKeys ==> merged[k] == fields[k]) &&
      ("chroma_notes" in merged <==> "chroma_notes" in fields)
  {
  }

  /** The current `process` is the older one plus the translated notes: both
      fail on the same entries with the same error, and on success the
      current result is the older one with `chroma_notes` set to the
      translation of the analysed chroma vector. */
  lemma CurrentExtendsLegacy(fields: Fields, musicDir: string, host: Host)
    ensures Current.Enrich(fields, musicDir, host).Ok? <==> Enrich(fields, musicDir, host).Ok?
    ensures Enrich(fields, musicDir, host).Err? ==>
      Current.Enrich(fields, musicDir, host).error == Enrich(fields, musicDir, host).error
    ensures Enrich(fields, musicDir, host).Ok? ==>
      var path := ResolveAudioFile(fields, musicDir, host).value;
      var chroma := host.analyze(path).value.chroma;
      Current.Enrich(fields, musicDir, host).value ==
        Enrich(fields, musicDir, host).value["chroma_notes" := Current.NotesValue(Translate(chroma))]
  {
    var r := ResolveAudioFile(fields, musicDir, host);
    if r.Ok? && Extract(Some(r.value), host).Ok? {
      var a := host.analyze(r.value).value;
      assert Current.Features(a) == Features(a)["chroma_notes" := Current.NotesValue(Translate(a.chroma))];
    }
  }

  // ---------------------------------------------------------------------------
  // process_all_music

  /** The older `process` as a function of an entry's fields. */
  function Enricher(musicDir: string, host: Host): Fields -> Result<Fields> {
    fields => Enrich(fields, musicDir, host)
  }

  /** One iteration of the older loop on entry `i`. */
  method Handle(entries: seq<MusicData>, i: nat, musicDir: string, host: Host,
                ghost before: seq<Fields>, ghost outs: seq<Result<Fields>>) returns (updated: Result<MusicData>)
    requires i < |entries| == |before|
    requires outs == Outcomes(before, Enricher(musicDir, host))
    requires entries[i].fields == before[i]
    modifies entries[i]
    ensures entries[i].fields == Settled(before[i], outs[i])
    ensures updated.Ok? == outs[i].Ok?
    ensures updated.Ok? ==> updated.value == entries[i]
  {
    OutcomeAt(before, Enricher(musicDir, host), i);
    var processor := new MusicProcessor(entries[i], musicDir);
    updated := processor.Process(host);
  }

  /** The older `process_all_music`: successes are appended in order; a
      failure is skipped unless the entry has no title key, where the
      handler's own `music_data['title']` ends the run before the dump. */
  method ProcessAllMusic(entries: seq<MusicData>, host: Host, musicDir: string := "Music") returns (run: Run)
    requires Distinct(entries)
    modifies entries
    ensures var fs := old(FieldsOf(entries));
      var outs := Outcomes(fs, Enricher(musicDir, host));
      var stop := CrashPoint(fs, outs);
      run == (if stop < |entries| then Crashed(stop) else Written(Select(entries, Kept(outs)))) &&
      FieldsOf(entries) == Settle(fs, outs, stop)
  {
    ghost var before := FieldsOf(entries);
    ghost var outs := Outcomes(before, Enricher(musicDir, host));
    ghost var now := before;
    var processed: seq<MusicData> := [];
    var i := 0;
    while i < |entries|
      invariant 0 <= i <= |entries| == |now|
      invariant before == old(FieldsOf(entries))
      invariant i <= CrashPoint(before, outs)
      invariant processed == Select(entries, Kept(outs[..i]))
      invariant now == Settle(before, outs, i)
      invariant forall j :: 0 <= j < |entries| ==> entries[j].fields == now[j]
    {
      var updated := Handle(entries, i, musicDir, host, before, outs);
      SettleStep(before, outs, i);
      now := now[i := Settled(before[i], outs[i])];
      PickedStep(entries, outs, i);
      CrashPointStep(before, outs, i);
      if updated.Ok? {
        processed := processed + [updated.value];
      } else if "title" !in entries[i].fields {
        FieldsAre(entries, now);
        return Crashed(i);
      }
      i := i + 1;
    }
    assert outs[..i] == outs;
    FieldsAre(entries, now);
    run := Written(processed);
  }
}
