/** The pitch-class translator (`MusicProcessor.translate_chroma_to_notes`):
    pair the mean chroma energies with the note names C..B, sort the pairs by
    descending energy with a stable sort, and round each energy to three
    decimal places. */
module ChromaNotes {

  /** The fixed note names, index i naming chroma bin i. */
  const PitchNames: seq<string> := ["C", "C#", "D", "D#", "E", "F", "F#", "G", "G#", "A", "A#", "B"]

  /** One `{"note": ..., "intensity": ...}` record of the output. */
  datatype NoteIntensity = NoteIntensity(note: string, intensity: real)

  /** A chroma bin index. */
  type Pitch = p: nat | p < 12

  /** One pair of `zip(notes, chroma_mean)`, the note kept as its bin index. */
  datatype Bin = Bin(pitch: Pitch, level: real)

  function Min(a: int, b: int): int { if a <= b then a else b }

  // ---------------------------------------------------------------------------
  // Rounding to three decimal places

  /** The integer nearest to y, halves going to the even neighbour. */
  function RoundHalfEven(y: real): (n: int)
    ensures -0.5 <= n as real - y <= 0.5
    ensures y - y.Floor as real == 0.5 ==> n % 2 == 0
  {
    var f := y.Floor;
    var d := y - f as real;
    if d < 0.5 then f
    else if d > 0.5 then f + 1
    else if f % 2 == 0 then f
    else f + 1
  }

  /** `round(x, 3)`: x rounded to a multiple of 1/1000, halves to even. */
  function Round3(x: real): (r: real)
    ensures -0.0005 <= r - x <= 0.0005
    ensures (r * 1000.0).Floor as real == r * 1000.0
    ensures x * 1000.0 - (x * 1000.0).Floor as real == 0.5 ==> (r * 1000.0).Floor % 2 == 0
  {
    var n := RoundHalfEven(x * 1000.0);
    Thousandths(n, x);
    n as real / 1000.0
  }

  lemma Thousandths(n: int, x: real)
    requires -0.5 <= n as real - x * 1000.0 <= 0.5
    ensures -0.0005 <= n as real / 1000.0 - x <= 0.0005
    ensures (n as real / 1000.0) * 1000.0 == n as real
  {
    var d := n as real - x * 1000.0;
    assert n as real / 1000.0 - x == d / 1000.0;
  }

  lemma RoundHalfEvenMonotone(x: real, y: real)
    requires x <= y
    ensures RoundHalfEven(x) <= RoundHalfEven(y)
  {
    var fx, fy := x.Floor, y.Floor;
    if fx == fy {
      assert x - fx as real <= y - fy as real;
    }
  }

  /** Rounding never reverses the order of two intensities. */
  lemma Round3Monotone(x: real, y: real)
    requires x <= y
    ensures Round3(x) <= Round3(y)
  {
    RoundHalfEvenMonotone(x * 1000.0, y * 1000.0);
  }

  /** A value that already has three decimals is emitted unchanged. */
  lemma Round3Exact(k: int)
    ensures Round3(k as real / 1000.0) == k as real / 1000.0
  {
    assert (k as real / 1000.0) * 1000.0 == k as real;
  }

  /** The boundary case 0.1235 rounds to the even neighbour 0.124, and so does 0.1245. */
  lemma Round3HalfToEven()
    ensures Round3(0.1235) == 0.124 && Round3(0.1245) == 0.124
  {
    assert (0.1235 * 1000.0).Floor == 123;
    assert (0.1245 * 1000.0).Floor == 124;
  }

  // ---------------------------------------------------------------------------
  // zip and the stable descending sort

  /** `zip(notes, chroma_mean)`: stops at the shorter of the two. */
  function Zip(chroma: seq<real>): (bins: seq<Bin>)
    ensures |bins| == Min(12, |chroma|)
    ensures forall i :: 0 <= i < |bins| ==> bins[i] == Bin(i, chroma[i])
  {
    seq(Min(12, |chroma|), i requires 0 <= i < Min(12, |chroma|) => Bin(i, chroma[i]))
  }

  /** Inserts p into t in front of the first element whose level is not above p's. */
  function Insert(p: Bin, t: seq<Bin>): (r: seq<Bin>)
    ensures multiset(r) == multiset(t) + multiset{p}
    ensures |r| == |t| + 1
  {
    if t == [] || p.level >= t[0].level then [p] + t
    else
      assert t == [t[0]] + t[1..];
      [t[0]] + Insert(p, t[1..])
  }

  /** `sorted(pairs, key=level, reverse=True)` as an insertion sort. */
  function SortDescending(s: seq<Bin>): (r: seq<Bin>)
    ensures multiset(r) == multiset(s)
    ensures |r| == |s|
  {
    if s == [] then []
    else
      assert s == [s[0]] + s[1..];
      Insert(s[0], SortDescending(s[1..]))
  }

  /** a belongs before b in a stable descending order: more energy, or the
      same energy and an earlier bin. */
  predicate Before(a: Bin, b: Bin) {
    a.level > b.level || (a.level == b.level && a.pitch < b.pitch)
  }

  predicate Ranked(s: seq<Bin>) {
    forall i, j :: 0 <= i < j < |s| ==> Before(s[i], s[j])
  }

  predicate PitchesIncrease(s: seq<Bin>) {
    forall i, j :: 0 <= i < j < |s| ==> s[i].pitch < s[j].pitch
  }

  lemma {:induction false} InsertRanked(p: Bin, t: seq<Bin>)
    requires Ranked(t)
    requires forall b :: b in t ==> p.pitch < b.pitch
    ensures Ranked(Insert(p, t))
  {
    if t == [] || p.level >= t[0].level {
      var r := Insert(p, t);
      forall i, j | 0 <= i < j < |r| ensures Before(r[i], r[j]) {
        if i == 0 {
          assert r[j] == t[j - 1] && t[j - 1] in t;
          if j - 1 > 0 { assert Before(t[0], t[j - 1]); }
        } else {
          assert r[i] == t[i - 1] && r[j] == t[j - 1];
        }
      }
    } else {
      InsertRanked(p, t[1..]);
      var rest := Insert(p, t[1..]);
      var r := Insert(p, t);
      assert r == [t[0]] + rest;
      forall j | 0 < j < |r| ensures Before(t[0], r[j]) {
        assert r[j] in multiset(rest);
        assert r[j] == p || r[j] in multiset(t[1..]);
        if r[j] != p {
          var k :| 0 <= k < |t[1..]| && t[1..][k] == r[j];
          assert Before(t[0], t[k + 1]);
        }
      }
    }
  }

  /** The sort is stable: on equal levels the input order survives. */
  lemma {:induction false} SortRanked(s: seq<Bin>)
    requires PitchesIncrease(s)
    ensures Ranked(SortDescending(s))
  {
    if s != [] {
      SortRanked(s[1..]);
      var t := SortDescending(s[1..]);
      forall b | b in t ensures s[0].pitch < b.pitch {
        assert b in multiset(s[1..]);
        var k :| 0 <= k < |s[1..]| && s[1..][k] == b;
        assert s[k + 1] == b;
      }
      InsertRanked(s[0], t);
    }
  }

  /** A sequence whose levels are all equal is already in stable order. */
  lemma {:induction false} SortLevelSequence(s: seq<Bin>, v: real)
    requires forall i :: 0 <= i < |s| ==> s[i].level == v
    ensures SortDescending(s) == s
  {
    if s != [] {
      SortLevelSequence(s[1..], v);
      assert s == [s[0]] + s[1..];
    }
  }

  // ---------------------------------------------------------------------------
  // The translator

  function Emit(s: seq<Bin>): (r: seq<NoteIntensity>)
    ensures |r| == |s|
  {
    seq(|s|, i requires 0 <= i < |s| => NoteIntensity(PitchNames[s[i].pitch], Round3(s[i].level)))
  }

  lemma ZipMembers(chroma: seq<real>, s: seq<Bin>)
    requires multiset(s) == multiset(Zip(chroma))
    ensures forall i :: 0 <= i < |s| ==> s[i].pitch < Min(12, |chroma|) && s[i].level == chroma[s[i].pitch]
  {
    forall i | 0 <= i < |s|
      ensures s[i].pitch < Min(12, |chroma|) && s[i].level == chroma[s[i].pitch]
    {
      assert s[i] in multiset(Zip(chroma));
      var k :| 0 <= k < |Zip(chroma)| && Zip(chroma)[k] == s[i];
    }
  }

  /** `translate_chroma_to_notes(chroma_mean)`: one record per zipped bin. */
  function Translate(chroma: seq<real>): (r: seq<NoteIntensity>)
    ensures |r| == Min(12, |chroma|)
  {
    Emit(SortDescending(Zip(chroma)))
  }

  // ---------------------------------------------------------------------------
  // What the translator promises

  function NotesOf(r: seq<NoteIntensity>): (names: seq<string>)
    ensures |names| == |r|
  {
    seq(|r|, i requires 0 <= i < |r| => r[i].note)
  }

  /** Position of a note name in `PitchNames`, i.e. its chroma bin; 12 for
      any other name. */
  function NoteIndex(name: string): (i: nat)
    ensures i <= 12
    ensures i < 12 ==> PitchNames[i] == name
    ensures i < 12 <==> name in PitchNames
  {
    if name == "C" then 0 else if name == "C#" then 1 else if name == "D" then 2
    else if name == "D#" then 3 else if name == "E" then 4 else if name == "F" then 5
    else if name == "F#" then 6 else if name == "G" then 7 else if name == "G#" then 8
    else if name == "A" then 9 else if name == "A#" then 10 else if name == "B" then 11
    else 12
  }

  lemma NoteIndexOfPitch(p: nat)
    requires p < 12
    ensures NoteIndex(PitchNames[p]) == p
  {
  }

  function NamesOf(s: seq<Bin>): (names: seq<string>)
    ensures |names| == |s|
  {
    seq(|s|, i requires 0 <= i < |s| => PitchNames[s[i].pitch])
  }

  lemma {:induction false} InsertNames(p: Bin, t: seq<Bin>)
    ensures multiset(NamesOf(Insert(p, t))) == multiset(NamesOf(t)) + multiset{PitchNames[p.pitch]}
  {
    var r := Insert(p, t);
    if t == [] || p.level >= t[0].level {
      assert r[0] == p && r[1..] == t;
      NamesOfCons(r);
    } else {
      InsertNames(p, t[1..]);
      assert r[0] == t[0] && r[1..] == Insert(p, t[1..]);
      NamesOfCons(r);
      NamesOfCons(t);
    }
  }

  lemma NamesOfCons(s: seq<Bin>)
    requires s != []
    ensures multiset(NamesOf(s)) == multiset(NamesOf(s[1..])) + multiset{PitchNames[s[0].pitch]}
  {
    assert NamesOf(s) == [PitchNames[s[0].pitch]] + NamesOf(s[1..]);
  }

  lemma {:induction false} SortNames(s: seq<Bin>)
    ensures multiset(NamesOf(SortDescending(s))) == multiset(NamesOf(s))
  {
    if s != [] {
      var t := SortDescending(s[1..]);
      assert SortDescending(s) == Insert(s[0], t);
      SortNames(s[1..]);
      InsertNames(s[0], t);
      NamesOfCons(s);
    }
  }

  /** The emitted note names are a permutation of the first n note names,
      n being the number of bins zipped (all twelve for a 12-bin input). */
  lemma TranslateIsPermutation(chroma: seq<real>)
    ensures multiset(NotesOf(Translate(chroma))) == multiset(PitchNames[..Min(12, |chroma|)])
  {
    var z := Zip(chroma);
    SortNames(z);
    assert NotesOf(Translate(chroma)) == NamesOf(SortDescending(z));
    assert NamesOf(z) == PitchNames[..Min(12, |chroma|)];
  }

  /** Each record carries the note of some bin and that bin's rounded energy. */
  lemma TranslateIntensities(chroma: seq<real>)
    ensures forall i :: 0 <= i < |Translate(chroma)| ==>
      Translate(chroma)[i].note in PitchNames[..Min(12, |chroma|)] &&
      NoteIndex(Translate(chroma)[i].note) < |chroma| &&
      Translate(chroma)[i].intensity == Round3(chroma[NoteIndex(Translate(chroma)[i].note)])
  {
    var s := SortDescending(Zip(chroma));
    ZipMembers(chroma, s);
    forall i | 0 <= i < |s| ensures NoteIndex(PitchNames[s[i].pitch]) == s[i].pitch {
      NoteIndexOfPitch(s[i].pitch);
    }
  }

  /** Bin a is listed before bin b by a stable descending sort of chroma. */
  predicate StablyBefore(chroma: seq<real>, a: nat, b: nat) {
    a < |chroma| && b < |chroma| &&
    (chroma[a] > chroma[b] || (chroma[a] == chroma[b] && a < b))
  }

  /** The records are ordered from the strongest bin down, and on equal
      energies by bin (the sort is stable). */
  lemma TranslateIsStable(chroma: seq<real>)
    ensures forall i, j :: 0 <= i < j < |Translate(chroma)| ==>
      StablyBefore(chroma, NoteIndex(Translate(chroma)[i].note), NoteIndex(Translate(chroma)[j].note))
  {
    var z := Zip(chroma);
    var s := SortDescending(z);
    var r := Translate(chroma);
    SortRanked(z);
    ZipMembers(chroma, s);
    forall i, j | 0 <= i < j < |r|
      ensures StablyBefore(chroma, NoteIndex(r[i].note), NoteIndex(r[j].note))
    {
      NoteIndexOfPitch(s[i].pitch);
      NoteIndexOfPitch(s[j].pitch);
      assert r[i].note == PitchNames[s[i].pitch] && r[j].note == PitchNames[s[j].pitch];
      assert Before(s[i], s[j]);
    }
  }

  /** The emitted intensities never increase along the output. */
  lemma TranslateNonIncreasing(chroma: seq<real>)
    ensures forall i, j :: 0 <= i < j < |Translate(chroma)| ==>
      Translate(chroma)[i].intensity >= Translate(chroma)[j].intensity
  {
    var z := Zip(chroma);
    var s := SortDescending(z);
    SortRanked(z);
    ZipMembers(chroma, s);
    forall i, j | 0 <= i < j < |s| ensures Round3(s[i].level) >= Round3(s[j].level) {
      assert Before(s[i], s[j]);
      Round3Monotone(s[j].level, s[i].level);
    }
  }

  /** A silent input keeps the note names in bin order, C first. */
  lemma TranslateSilence()
    ensures Translate(seq(12, _ => 0.0)) ==
      seq(12, i requires 0 <= i < 12 => NoteIntensity(PitchNames[i], 0.0))
  {
    var c := seq(12, _ => 0.0);
    SortLevelSequence(Zip(c), 0.0);
    Round3Exact(0);
  }

  /** Energy only in bin C puts `{note: "C", intensity: 1.0}` first. */
  lemma TranslateLoneC()
    ensures Translate([1.0] + seq(11, _ => 0.0))[0] == NoteIntensity("C", 1.0)
  {
    var c := [1.0] + seq(11, _ => 0.0);
    var z := Zip(c);
    assert z == [z[0]] + z[1..];
    SortLevelSequence(z[1..], 0.0);
    assert SortDescending(z) == Insert(z[0], z[1..]);
    Round3Exact(1000);
  }
}
