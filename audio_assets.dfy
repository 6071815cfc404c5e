/** The asset resolver (`MusicProcessor.find_audio_file`, identical in both
    scripts) as pure functions, and the machine the pipeline observes. */
module AudioAssets {
  import opened Catalog

  /** A similarity score, `difflib`'s ratio, on the 0..1 scale. */
  type Ratio = r: real | 0.0 <= r <= 1.0

  /** What `librosa` derives from one file: `get_duration`, the tempo of
      `beat.beat_track`, and the time-average of `chroma_stft` per bin. */
  datatype Analysis = Analysis(duration: real, tempo: real, chroma: seq<real>)

  /** The machine as the pipeline observes it, held fixed for a whole run:
      `listing` is what `os.listdir` returns per directory (absent: it raises),
      `present` the paths `os.path.exists` accepts, `ratio(word, name)` the
      similarity of a file name to the title, and `analyze(path)` what
      `librosa` computes from a file, None when it raises. */
  datatype Host = Host(
    listing: map<string, seq<string>>,
    present: set<string>,
    ratio: (string, string) -> Ratio,
    analyze: string -> Option<Analysis>)

  /** `cutoff=0.3` of `difflib.get_close_matches`; a name qualifies when its
      score is at least this. */
  const Cutoff: real := 0.3

  // ---------------------------------------------------------------------------
  // Titles

  predicate IsUpper(c: char) { 'A' <= c <= 'Z' }

  function LowerChar(c: char): char {
    if IsUpper(c) then (c as int + 32) as char else c
  }

  /** `str.lower()` on the ASCII letters. */
  function Lower(s: string): (r: string)
    ensures |r| == |s|
    ensures forall i :: 0 <= i < |r| ==> !IsUpper(r[i])
    ensures forall i :: 0 <= i < |r| ==> (r[i] == s[i] || (IsUpper(s[i]) && r[i] as int == s[i] as int + 32))
  {
    if s == [] then [] else [LowerChar(s[0])] + Lower(s[1..])
  }

  /** Lower-casing twice is lower-casing once. */
  lemma {:induction false} LowerIdempotent(s: string)
    ensures Lower(Lower(s)) == Lower(s)
  {
    if s != [] {
      LowerIdempotent(s[1..]);
    }
  }

  /** `music_data.get("title", "").lower()` followed by the emptiness test. */
  function Title(fields: map<string, Value>): (r: Result<string>)
    ensures r.Ok? ==> "title" in fields && fields["title"].Str? && r.value == Lower(fields["title"].s) && r.value != []
    ensures r == Err(TitleMissing) <==> "title" !in fields || fields["title"] == Str("")
    ensures r == Err(TitleNotText) <==> "title" in fields && !fields["title"].Str?
    ensures "title" in fields && fields["title"].Str? && fields["title"].s != [] ==> r.Ok?
  {
    var raw := if "title" in fields then fields["title"] else Str("");
    match raw
    case Str(s) =>
      var title := Lower(s);
      if title == [] then Err(TitleMissing) else Ok(title)
    case _ => Err(TitleNotText)
  }

  // ---------------------------------------------------------------------------
  // Candidates and the best match

  predicate EndsWith(s: string, suffix: string) {
    |suffix| <= |s| && s[|s| - |suffix|..] == suffix
  }

  /** `f.endswith(('.wav', '.mp3', '.flac'))`, case-sensitive. */
  predicate HasAudioExtension(f: string) {
    EndsWith(f, ".wav") || EndsWith(f, ".mp3") || EndsWith(f, ".flac")
  }

  /** The suffix test is case-sensitive and looks only at the very end. */
  lemma ExtensionIsCaseSensitive()
    ensures HasAudioExtension("song.mp3") && HasAudioExtension("take 2.flac")
    ensures !HasAudioExtension("song.MP3") && !HasAudioExtension("song.mp3.txt") && !HasAudioExtension("wav")
  {
    assert "song.mp3"[4..] == ".mp3";
    assert "take 2.flac"[6..] == ".flac";
    assert "song.MP3"[4..] != ".mp3";
    assert "song.mp3.txt"[8..] != ".wav" && "song.mp3.txt"[8..] != ".mp3" && "song.mp3.txt"[7..] != ".flac";
  }

  /** A name passes the test exactly when it is some stem, possibly empty,
      followed by one of the three extensions. */
  lemma AudioExtensionStem(f: string)
    ensures HasAudioExtension(f) <==>
      exists stem: string :: f == stem + ".wav" || f == stem + ".mp3" || f == stem + ".flac"
  {
    if HasAudioExtension(f) {
      var k := if EndsWith(f, ".flac") then 5 else 4;
      var stem := f[..|f| - k];
      assert f == stem + f[|f| - k..];
    }
  }

  /** The list comprehension keeping the audio names, in listing order. */
  function AudioFiles(files: seq<string>): (r: seq<string>)
    ensures forall f :: f in r <==> f in files && HasAudioExtension(f)
    ensures |r| <= |files|
  {
    if files == [] then []
    else (if HasAudioExtension(files[0]) then [files[0]] else []) + AudioFiles(files[1..])
  }

  /** `difflib.get_close_matches(word, names, n=1, cutoff)`: a name with the
      highest score, provided that score reaches the cutoff. Of several
      names with that score the first is taken. */
  function BestMatch(word: string, names: seq<string>, ratio: (string, string) -> Ratio, cutoff: real): (m: Option<string>)
    ensures m.Some? ==> m.value in names && ratio(word, m.value) >= cutoff
    ensures m.Some? ==> forall n :: n in names ==> ratio(word, n) <= ratio(word, m.value)
    ensures m.None? <==> forall n :: n in names ==> ratio(word, n) < cutoff
  {
    if names == [] then None
    else
      var rest := BestMatch(word, names[1..], ratio, cutoff);
      assert forall n :: n in names ==> n == names[0] || n in names[1..];
      if ratio(word, names[0]) >= cutoff && (rest.None? || ratio(word, names[0]) >= ratio(word, rest.value))
      then Some(names[0])
      else rest
  }

  /** `os.path.join(directory, name)` as POSIX `posixpath.join` does it: the
      separator is `/` and a name is absolute when it starts with `/`. */
  function Join(directory: string, name: string): (path: string)
    ensures name != [] && name[0] == '/' ==> path == name
    ensures !(name != [] && name[0] == '/') ==> |directory| <= |path| && path[..|directory|] == directory
    ensures EndsWith(path, name)
  {
    if name != [] && name[0] == '/' then name
    else if directory == [] || directory[|directory| - 1] == '/' then directory + name
    else directory + "/" + name
  }

  /** What `find_audio_file` stores in `audio_file`, or what it raises. */
  function ResolveAudioFile(fields: map<string, Value>, musicDir: string, host: Host): (r: Result<string>)
    ensures Title(fields).Err? ==> r == Err(Title(fields).error)
    ensures r.Ok? ==> Title(fields).Ok? && musicDir in host.listing
  {
    var title :- Title(fields);
    if musicDir !in host.listing then Err(ListingFailed)
    else
      match BestMatch(title, AudioFiles(host.listing[musicDir]), host.ratio, Cutoff)
      case None => Err(NoCloseMatch)
      case Some(name) => Ok(Join(musicDir, name))
  }

  // ---------------------------------------------------------------------------
  // What the resolver promises

  /** Resolution succeeds exactly when the title is non-empty text, the
      directory can be listed and some audio name scores at least the cutoff;
      the stored path is then the directory joined with an audio name whose
      score is the highest of all audio names. */
  lemma ResolveSpec(fields: map<string, Value>, musicDir: string, host: Host)
    ensures var r := ResolveAudioFile(fields, musicDir, host);
      r.Ok? <==>
        Title(fields).Ok? && musicDir in host.listing &&
        exists f :: f in host.listing[musicDir] && HasAudioExtension(f) && host.ratio(Title(fields).value, f) >= Cutoff
    ensures var r := ResolveAudioFile(fields, musicDir, host);
      r.Ok? ==> exists f ::
        f in host.listing[musicDir] && HasAudioExtension(f) && r.value == Join(musicDir, f) &&
        host.ratio(Title(fields).value, f) >= Cutoff &&
        forall g :: g in host.listing[musicDir] && HasAudioExtension(g) ==>
          host.ratio(Title(fields).value, g) <= host.ratio(Title(fields).value, f)
    ensures Title(fields).Ok? && musicDir !in host.listing ==> ResolveAudioFile(fields, musicDir, host) == Err(ListingFailed)
    ensures Title(fields).Ok? && musicDir in host.listing && ResolveAudioFile(fields, musicDir, host).Err? ==>
      ResolveAudioFile(fields, musicDir, host).error == NoCloseMatch
  {
    var r := ResolveAudioFile(fields, musicDir, host);
    if Title(fields).Ok? && musicDir in host.listing {
      var title := Title(fields).value;
      var names := AudioFiles(host.listing[musicDir]);
      var m := BestMatch(title, names, host.ratio, Cutoff);
      if m.Some? {
        assert m.value in names;
      } else {
        forall f | f in host.listing[musicDir] && HasAudioExtension(f) ensures host.ratio(title, f) < Cutoff {
          assert f in names;
        }
      }
    }
  }

  /** A missing or empty title is rejected before the directory is read. */
  lemma ResolveRejectsEmptyTitle(fields: map<string, Value>, musicDir: string, host: Host)
    requires "title" !in fields || fields["title"] == Str("")
    ensures ResolveAudioFile(fields, musicDir, host) == Err(TitleMissing)
  {
  }

  /** Names without one of the three audio extensions (matched with their
      case as listed) never take part: removing them from the listing does
      not change the outcome. */
  lemma ResolveIgnoresOtherFiles(fields: map<string, Value>, musicDir: string, host: Host)
    requires musicDir in host.listing
    ensures ResolveAudioFile(fields, musicDir, host) ==
      ResolveAudioFile(fields, musicDir, host.(listing := host.listing[musicDir := AudioFiles(host.listing[musicDir])]))
  {
    AudioFilesIdempotent(host.listing[musicDir]);
  }

  lemma {:induction false} AudioFilesIdempotent(files: seq<string>)
    ensures AudioFiles(AudioFiles(files)) == AudioFiles(files)
  {
    if files != [] {
      AudioFilesIdempotent(files[1..]);
      var a := AudioFiles(files);
      if HasAudioExtension(files[0]) {
        assert a == [files[0]] + AudioFiles(files[1..]);
        assert a[0] == files[0] && a[1..] == AudioFiles(files[1..]);
        assert AudioFiles(a) == [a[0]] + AudioFiles(a[1..]);
      } else {
        assert a == AudioFiles(files[1..]);
      }
    }
  }
}
