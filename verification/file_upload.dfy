/** The file panel: the list of staged files, the updates the panel applies
    to it (append a picked batch, remove one entry by position), and the
    rules that enable and label the process button and the status card. */
module FileUpload {
  import opened Text
  import opened Wrappers

  /** A file chosen in the picker and not yet sent. Only its name and size
      are visible to the panel; the content is an opaque handle. */
  datatype StagedFile = StagedFile(name: string, size: nat)

  /** `onFileChange`: a picked batch is appended after the files already
      staged; an absent or empty selection leaves them as they are. */
  function Picked(files: seq<StagedFile>, selection: Option<seq<StagedFile>>): (r: seq<StagedFile>)
    ensures selection.Some? && selection.value != [] ==> |r| == |files| + |selection.value|
    ensures |files| <= |r| && r[..|files|] == files
    ensures selection.Some? ==> r[|files|..] == selection.value
    ensures selection.None? ==> r == files
  {
    if selection.Some? && |selection.value| > 0 then files + selection.value else files
  }

  /** The same, for a series of picker interactions, oldest first. */
  function PickedAll(files: seq<StagedFile>, selections: seq<Option<seq<StagedFile>>>): seq<StagedFile>
    decreases |selections|
  {
    if selections == [] then files
    else PickedAll(Picked(files, selections[0]), selections[1..])
  }

  /** What the selections contributed, in order: the absent ones contribute
      nothing. */
  function Batches(selections: seq<Option<seq<StagedFile>>>): seq<StagedFile> {
    if selections == [] then []
    else (if selections[0].Some? then selections[0].value else []) + Batches(selections[1..])
  }

  /** After any series of picks the staged list is the old list followed by
      every picked batch, in order, with nothing merged or dropped (two files
      of the same name stay two entries). */
  lemma {:induction false} PickedAllConcatenates(files: seq<StagedFile>, selections: seq<Option<seq<StagedFile>>>)
    ensures PickedAll(files, selections) == files + Batches(selections)
    decreases |selections|
  {
    if selections != [] {
      var batch := if selections[0].Some? then selections[0].value else [];
      var next := Picked(files, selections[0]);
      assert next == files + batch;
      PickedAllConcatenates(next, selections[1..]);
      assert Batches(selections) == batch + Batches(selections[1..]);
    }
  }

  /** `prevFiles.filter((_, index) => index !== target)`, walking the list
      with the running index `at`. */
  function KeepOthers(files: seq<StagedFile>, target: int, at: int): (r: seq<StagedFile>)
    ensures at <= target < at + |files| ==> r == files[..target - at] + files[target - at + 1..]
    ensures !(at <= target < at + |files|) ==> r == files
    decreases |files|
  {
    if files == [] then []
    else (if at == target then [] else [files[0]]) + KeepOthers(files[1..], target, at + 1)
  }

  /** `removeFile`: drops the entry at `index`. */
  function Removed(files: seq<StagedFile>, index: int): (r: seq<StagedFile>)
    ensures 0 <= index < |files| ==> |r| == |files| - 1
    ensures 0 <= index < |files| ==> r[..index] == files[..index] && r[index..] == files[index + 1..]
    ensures !(0 <= index < |files|) ==> r == files
  {
    KeepOthers(files, index, 0)
  }

  /** Removing the entry just picked undoes the pick. */
  lemma RemoveUndoesPick(files: seq<StagedFile>, f: StagedFile)
    ensures Removed(Picked(files, Some([f])), |files|) == files
  {
    var after := Picked(files, Some([f]));
    assert after[..|files|] == files;
  }

  /** The process button is disabled exactly when there is no list or it is
      empty. */
  predicate ProcessDisabled(files: Option<seq<StagedFile>>) {
    files.None? || |files.value| == 0
  }

  /** A non-empty pick always enables the process button, and removing the
      only staged file disables it again. */
  lemma ProcessEnablement(files: seq<StagedFile>, batch: seq<StagedFile>, f: StagedFile)
    ensures batch != [] ==> !ProcessDisabled(Some(Picked(files, Some(batch))))
    ensures ProcessDisabled(Some(Removed([f], 0)))
  {
  }

  /** What the process button shows. */
  datatype ButtonContent = Spinner | ProcessCount(count: nat)

  /** A spinner while the status mentions "Indexing", otherwise the number of
      staged files (0 when there is no list). */
  function ButtonLabel(status: string, files: Option<seq<StagedFile>>): (b: ButtonContent)
    ensures b == Spinner <==> Contains(status, "Indexing")
    ensures b.ProcessCount? ==> b.count == (if files.Some? then |files.value| else 0)
  {
    if Contains(status, "Indexing") then Spinner
    else ProcessCount(if files.Some? then |files.value| else 0)
  }

  /** The class of the status card. */
  datatype CardClass = SuccessCard | LoadingCard

  /** The card is shown when the status is non-empty; it is styled as a
      success exactly when the status mentions "Success". This is the rule as
      written; see `StatusCardCorrected`. */
  function StatusCard(status: string): (c: Option<CardClass>)
    ensures c.None? <==> status == []
    ensures c == Some(SuccessCard) <==> status != [] && Contains(status, "Success")
  {
    if status == [] then None
    else if Contains(status, "Success") then Some(SuccessCard)
    else Some(LoadingCard)
  }

  /** The word the success status actually carries ("System Ready"). */
  const ReadyWord: string := "Ready"

  /** The status card keyed to the word the success status carries, which is
      what the "Success" test above evidently meant to detect. */
  function StatusCardCorrected(status: string): (c: Option<CardClass>)
    ensures c.None? <==> status == []
    ensures c == Some(SuccessCard) <==> status != [] && Contains(status, ReadyWord)
  {
    if status == [] then None
    else if Contains(status, ReadyWord) then Some(SuccessCard)
    else Some(LoadingCard)
  }
}
