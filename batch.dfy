/** The shape of `process_all_music`, shared by both scripts: given each
    entry's outcome, which entries end up in the written list, which are
    updated, and where the loop stops when its error handler itself fails. */
module Batch {
  import opened Catalog

  type Fields = map<string, Value>

  /** The current fields of each entry. */
  function FieldsOf(entries: seq<MusicData>): (fs: seq<Fields>)
    reads entries
    ensures |fs| == |entries|
    ensures forall j :: 0 <= j < |entries| ==> fs[j] == entries[j].fields
  {
    seq(|entries|, j requires 0 <= j < |entries| reads entries => entries[j].fields)
  }

  lemma FieldsAre(entries: seq<MusicData>, fs: seq<Fields>)
    requires |entries| == |fs|
    requires forall j :: 0 <= j < |entries| ==> entries[j].fields == fs[j]
    ensures FieldsOf(entries) == fs
  {
  }

  /** What a run leaves behind: the list `json.dump` writes, or the index of
      the entry whose KeyError ended the run before anything was written. */
  datatype Run = Written(processed: seq<MusicData>) | Crashed(at: nat)

  predicate Distinct(entries: seq<MusicData>) {
    forall i, j :: 0 <= i < j < |entries| ==> entries[i] != entries[j]
  }

  predicate Increasing(ks: seq<nat>) {
    forall a, b :: 0 <= a < b < |ks| ==> ks[a] < ks[b]
  }

  /** The handler `except Exception as e: print(... music_data['title'] ...)`
      raises KeyError itself when the entry failed and has no title key. */
  predicate Escapes(fields: Fields, outcome: Result<Fields>) {
    outcome.Err? && "title" !in fields
  }

  /** How many entries the loop gets through: the index of the first entry
      whose failure escapes the handler, or all of them. */
  function CrashPoint(fs: seq<Fields>, outs: seq<Result<Fields>>): (stop: nat)
    requires |fs| == |outs|
    ensures stop <= |fs|
  {
    if fs == [] then 0
    else if Escapes(fs[0], outs[0]) then 0
    else 1 + CrashPoint(fs[1..], outs[1..])
  }

  /** The indices whose `process` call returned, in loop order: the entries
      `processed_data.append` receives. */
  function Kept(outs: seq<Result<Fields>>): (ks: seq<nat>)
    ensures forall k :: 0 <= k < |ks| ==> ks[k] < |outs| && outs[ks[k]].Ok?
  {
    if outs == [] then []
    else
      var last := |outs| - 1;
      var earlier := Kept(outs[..last]);
      assert forall j :: 0 <= j < last ==> outs[..last][j] == outs[j];
      earlier + (if outs[last].Ok? then [last] else [])
  }

  /** The entries at the kept indices, in that order. */
  function Select(entries: seq<MusicData>, ks: seq<nat>): (picked: seq<MusicData>)
    requires forall k :: 0 <= k < |ks| ==> ks[k] < |entries|
    ensures |picked| == |ks|
    ensures forall k :: 0 <= k < |ks| ==> picked[k] == entries[ks[k]]
  {
    seq(|ks|, k requires 0 <= k < |ks| => entries[ks[k]])
  }

  /** An entry's fields once its outcome is known: merged on success,
      untouched on failure. */
  function Settled(fields: Fields, outcome: Result<Fields>): Fields {
    if outcome.Ok? then outcome.value else fields
  }

  /** Every entry's fields after a run that stopped at `stop`. */
  function Settle(fs: seq<Fields>, outs: seq<Result<Fields>>, stop: nat): (after: seq<Fields>)
    requires |fs| == |outs|
    ensures |after| == |fs|
  {
    seq(|fs|, j requires 0 <= j < |fs| => if j < stop then Settled(fs[j], outs[j]) else fs[j])
  }

  /** Each entry's outcome under the per-entry `process`, in catalog order. */
  function Outcomes(fs: seq<Fields>, process: Fields -> Result<Fields>): (outs: seq<Result<Fields>>)
    ensures |outs| == |fs|
  {
    if fs == [] then [] else [process(fs[0])] + Outcomes(fs[1..], process)
  }

  lemma {:induction false} OutcomeAt(fs: seq<Fields>, process: Fields -> Result<Fields>, j: nat)
    requires j < |fs|
    ensures Outcomes(fs, process)[j] == process(fs[j])
  {
    if j > 0 {
      OutcomeAt(fs[1..], process, j - 1);
    }
  }

  /** One more outcome appends its entry to the selection exactly when it
      succeeded. */
  lemma PickedStep(entries: seq<MusicData>, outs: seq<Result<Fields>>, i: nat)
    requires i < |outs| <= |entries|
    ensures Select(entries, Kept(outs[..i + 1])) ==
      Select(entries, Kept(outs[..i])) + (if outs[i].Ok? then [entries[i]] else [])
  {
    assert outs[..i + 1][..i] == outs[..i];
  }

  /** Settling entry `i` extends a run that stopped at `i` by one entry. */
  lemma SettleStep(fs: seq<Fields>, outs: seq<Result<Fields>>, i: nat)
    requires |fs| == |outs| && i < |fs|
    ensures Settle(fs, outs, i)[i := Settled(fs[i], outs[i])] == Settle(fs, outs, i + 1)
  {
  }

  // ---------------------------------------------------------------------------
  // What a run promises

  /** The written list is an order-preserving subsequence of the catalog
      holding exactly the entries that were processed successfully. */
  lemma {:induction false} KeptIsSuccessSubsequence(outs: seq<Result<Fields>>)
    ensures Increasing(Kept(outs))
    ensures forall j :: j in Kept(outs) <==> 0 <= j < |outs| && outs[j].Ok?
  {
    if outs != [] {
      var last := |outs| - 1;
      var init := outs[..last];
      KeptIsSuccessSubsequence(init);
      assert forall j :: 0 <= j < last ==> init[j] == outs[j];
      var tail := if outs[last].Ok? then [last] else [];
      assert Kept(outs) == Kept(init) + tail;
      forall j | j in Kept(outs) ensures 0 <= j < |outs| && outs[j].Ok? {
        if j in Kept(init) {
          assert 0 <= j < last && init[j].Ok?;
        }
      }
    }
  }

  /** Which entries a loop writes: exactly those whose `process` succeeded,
      in catalog order. */
  lemma WrittenAreSuccesses(fs: seq<Fields>, process: Fields -> Result<Fields>)
    ensures Increasing(Kept(Outcomes(fs, process)))
    ensures forall j :: j in Kept(Outcomes(fs, process)) <==> 0 <= j < |fs| && process(fs[j]).Ok?
  {
    var outs := Outcomes(fs, process);
    KeptIsSuccessSubsequence(outs);
    forall j | 0 <= j < |fs| ensures outs[j] == process(fs[j]) {
      OutcomeAt(fs, process, j);
    }
  }

  /** If every entry has a title key the loop never stops early. */
  lemma TitledCatalogRunsToEnd(fs: seq<Fields>, outs: seq<Result<Fields>>)
    requires |fs| == |outs|
    requires forall j :: 0 <= j < |fs| ==> "title" in fs[j]
    ensures CrashPoint(fs, outs) == |fs|
  {
    CrashPointIsFirstEscape(fs, outs, |fs|);
  }

  /** The stop point is the first failed entry without a title key. */
  lemma {:induction false} CrashPointIsFirstEscape(fs: seq<Fields>, outs: seq<Result<Fields>>, i: nat)
    requires |fs| == |outs| && i <= |fs|
    requires forall j :: 0 <= j < i ==> !Escapes(fs[j], outs[j])
    requires i == |fs| || Escapes(fs[i], outs[i])
    ensures CrashPoint(fs, outs) == i
  {
    if fs != [] && i > 0 {
      assert !Escapes(fs[0], outs[0]);
      forall j | 0 <= j < i - 1 ensures !Escapes(fs[1..][j], outs[1..][j]) {
        assert fs[1..][j] == fs[j + 1] && outs[1..][j] == outs[j + 1];
      }
      CrashPointIsFirstEscape(fs[1..], outs[1..], i - 1);
    }
  }

  /** A loop that has got past entry i - 1 stops at entry i exactly when
      that entry's failure escapes. */
  lemma {:induction false} CrashPointStep(fs: seq<Fields>, outs: seq<Result<Fields>>, i: nat)
    requires |fs| == |outs| && i < |fs| && i <= CrashPoint(fs, outs)
    ensures CrashPoint(fs, outs) == i <==> Escapes(fs[i], outs[i])
  {
    if i > 0 {
      assert fs[1..][i - 1] == fs[i] && outs[1..][i - 1] == outs[i];
      CrashPointStep(fs[1..], outs[1..], i - 1);
    }
  }

  /** Settling is "nothing else changes": entries past the stop point and
      failed entries keep their fields; a success's fields become the
      merged ones. */
  lemma SettleKeepsFailures(fs: seq<Fields>, outs: seq<Result<Fields>>, stop: nat, j: nat)
    requires |fs| == |outs| && j < |fs|
    ensures j >= stop || outs[j].Err? ==> Settle(fs, outs, stop)[j] == fs[j]
    ensures j < stop && outs[j].Ok? ==> Settle(fs, outs, stop)[j] == outs[j].value
  {
  }
}
