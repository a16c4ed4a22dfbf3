/**
 * The `FileUpload` widget: its own list of chosen files, the count and size
 * limits it applies to a new selection, and removal of one file by position.
 * The simulated progress timer is reduced to its final effect: once it has
 * reached 100 the accepted files are appended in one step.
 */
module Upload {
  import opened Lists

  /** A browser `File`, reduced to what the widget reads. */
  datatype File = File(name: string, size: nat)

  /** The prop defaults: at most 5 files of at most 5 MB each. */
  const DefaultMaxFiles: nat := 5
  const DefaultMaxSize: nat := 5

  /** `maxSize` is in megabytes; the check compares bytes against `maxSize * 1024 * 1024`. */
  function SizeLimit(maxSize: nat): nat
  {
    maxSize * 1024 * 1024
  }

  predicate FitsSize(maxSize: nat, f: File)
  {
    f.size <= SizeLimit(maxSize)
  }

  predicate TooLarge(maxSize: nat, f: File)
  {
    f.size > SizeLimit(maxSize)
  }

  /** The size filter of `handleFileChange`: the selected files within the limit, in order. */
  function ValidFiles(selected: seq<File>, maxSize: nat): (r: seq<File>)
    ensures |r| <= |selected|
    ensures forall f :: f in r <==> f in selected && f.size <= maxSize * 1024 * 1024
  {
    Filter(selected, f => FitsSize(maxSize, f))
  }

  /** The selected files the size filter rejects, each reported in its own notice. */
  function OversizedFiles(selected: seq<File>, maxSize: nat): (r: seq<File>)
    ensures forall f :: f in r <==> f in selected && f.size > maxSize * 1024 * 1024
  {
    Filter(selected, f => TooLarge(maxSize, f))
  }

  /** The size filter keeps the accepted files in the order they were selected. */
  lemma ValidFilesInOrder(selected: seq<File>, maxSize: nat)
    ensures IsSubsequence(ValidFiles(selected, maxSize), selected)
  {
    FilterIsSubsequence(selected, f => FitsSize(maxSize, f));
  }

  /** Every selected file, with its multiplicity, is either accepted or reported as too large. */
  lemma SizeCheckPartitions(selected: seq<File>, maxSize: nat)
    ensures multiset(ValidFiles(selected, maxSize)) + multiset(OversizedFiles(selected, maxSize)) == multiset(selected)
  {
    var v, o := ValidFiles(selected, maxSize), OversizedFiles(selected, maxSize);
    forall f ensures (multiset(v) + multiset(o))[f] == multiset(selected)[f] {
      FilterCount(selected, f => FitsSize(maxSize, f), f);
      FilterCount(selected, f => TooLarge(maxSize, f), f);
    }
  }

  /** The list `handleFileChange` commits and passes to `onChange`; `None` when it calls neither
      `setFiles` nor `onChange`. The count check comes first and counts every selected file,
      before the size filter drops any. */
  function Committed(current: seq<File>, selected: seq<File>, maxFiles: nat, maxSize: nat): (r: Option<seq<File>>)
    ensures r.None? <==> |selected| + |current| > maxFiles || ValidFiles(selected, maxSize) == []
    ensures r.Some? ==> r.value == current + ValidFiles(selected, maxSize)
    ensures r.Some? ==> |current| < |r.value| <= maxFiles
  {
    if |selected| + |current| > maxFiles then None
    else
      var valid := ValidFiles(selected, maxSize);
      if |valid| > 0 then Some(current + valid) else None
  }

  /** The notices (toasts) a selection produces. */
  datatype Notice = TooManyFiles(maxFiles: nat) | FileTooLarge(name: string, maxSize: nat) | FilesUploaded(count: nat)

  function TooLargeNotices(files: seq<File>, maxSize: nat): (r: seq<Notice>)
    ensures |r| == |files|
    ensures forall i :: 0 <= i < |files| ==> r[i] == FileTooLarge(files[i].name, maxSize)
  {
    if files == [] then [] else [FileTooLarge(files[0].name, maxSize)] + TooLargeNotices(files[1..], maxSize)
  }

  /** The notices of `handleFileChange`: the count notice alone, or one notice per oversized
      file followed, when anything was accepted, by the upload notice with the accepted count. */
  function Notices(current: seq<File>, selected: seq<File>, maxFiles: nat, maxSize: nat): (r: seq<Notice>)
    ensures |selected| + |current| > maxFiles ==> r == [TooManyFiles(maxFiles)]
    ensures |selected| + |current| <= maxFiles ==>
      var tooLarge := OversizedFiles(selected, maxSize);
      var accepted := |ValidFiles(selected, maxSize)|;
      && |r| == |tooLarge| + (if accepted > 0 then 1 else 0)
      && r[..|tooLarge|] == TooLargeNotices(tooLarge, maxSize)
      && (accepted > 0 ==> r[|r| - 1] == FilesUploaded(accepted))
  {
    if |selected| + |current| > maxFiles then [TooManyFiles(maxFiles)]
    else
      var valid := ValidFiles(selected, maxSize);
      TooLargeNotices(OversizedFiles(selected, maxSize), maxSize) + (if |valid| > 0 then [FilesUploaded(|valid|)] else [])
  }

  /** A selection made only of oversized files leaves the list as it was. */
  lemma OversizedSelectionChangesNothing(current: seq<File>, selected: seq<File>, maxFiles: nat, maxSize: nat)
    requires forall f :: f in selected ==> TooLarge(maxSize, f)
    ensures Committed(current, selected, maxFiles, maxSize).None?
  {
    FilterKeepsNone(selected, f => FitsSize(maxSize, f));
  }

  /** The start position `splice(index, 1)` computes from `index` on a list of length `len`:
      a negative index counts from the end, and both ends are clamped. */
  function SpliceStart(len: nat, index: int): (k: nat)
    ensures k <= len
    ensures 0 <= index <= len ==> k == index
    ensures index > len ==> k == len
    ensures index < 0 && 0 <= len + index ==> k == len + index
    ensures len + index < 0 ==> k == 0
  {
    if index < 0 then (if len + index < 0 then 0 else len + index)
    else if index > len then len
    else index
  }

  /** `removeFile(index)`: a copy of the list with `splice(index, 1)` applied to it. */
  function RemoveAt<T>(xs: seq<T>, index: int): (r: seq<T>)
    ensures var k := SpliceStart(|xs|, index);
      && (k < |xs| ==> |r| == |xs| - 1
                       && (forall j :: 0 <= j < k ==> r[j] == xs[j])
                       && (forall j :: k <= j < |r| ==> r[j] == xs[j + 1]))
      && (k == |xs| ==> r == xs)
  {
    var k := SpliceStart(|xs|, index);
    if k < |xs| then xs[..k] + xs[k + 1..] else xs
  }

  /** For an index in range, removal takes out exactly the file at that index. */
  lemma RemoveAtTakesOne<T(!new)>(xs: seq<T>, index: int)
    requires 0 <= index < |xs|
    ensures multiset(RemoveAt(xs, index)) + multiset{xs[index]} == multiset(xs)
    ensures IsSubsequence(RemoveAt(xs, index), xs)
  {
    var front, back := xs[..index], xs[index + 1..];
    RemoveAtInRange(xs, index);
    SplitAround(xs, index);
    DroppingOneIsSubsequence(front, xs[index], back);
  }

  /** In range, `RemoveAt` is the list with the one element cut out. */
  lemma RemoveAtInRange<T>(xs: seq<T>, index: int)
    requires 0 <= index < |xs|
    ensures RemoveAt(xs, index) == xs[..index] + xs[index + 1..]
  {
    assert SpliceStart(|xs|, index) == index;
  }

  /** A list is its front, the element at `index`, and its back. */
  lemma SplitAround<T>(xs: seq<T>, index: int)
    requires 0 <= index < |xs|
    ensures xs == xs[..index] + [xs[index]] + xs[index + 1..]
    ensures multiset(xs[..index] + xs[index + 1..]) + multiset{xs[index]} == multiset(xs)
  {
    assert xs == xs[..index] + [xs[index]] + xs[index + 1..];
  }

  /** The widget: its file list, its limits and the upload indicator. */
  class FileUpload {
    var files: seq<File>
    const maxFiles: nat
    const maxSize: nat
    var uploading: bool
    var progress: nat

    /** `useState(value)` seeds the list from the prop once, at the first render. */
    constructor (value: seq<File> := [], maxFiles: nat := DefaultMaxFiles, maxSize: nat := DefaultMaxSize)
      ensures files == value && this.maxFiles == maxFiles && this.maxSize == maxSize
      ensures !uploading && progress == 0
    {
      files := value;
      this.maxFiles := maxFiles;
      this.maxSize := maxSize;
      uploading := false;
      progress := 0;
    }

    /** `handleFileChange`, up to the moment the progress reaches 100. `changed` is the list
        handed to `onChange`, if it is called; `notices` are the toasts shown. */
    method HandleFileChange(selected: seq<File>) returns (changed: Option<seq<File>>, notices: seq<Notice>)
      modifies this
      ensures changed == Committed(old(files), selected, maxFiles, maxSize)
      ensures notices == Notices(old(files), selected, maxFiles, maxSize)
      ensures changed.Some? ==> files == changed.value && !uploading && progress == 100
      ensures changed.None? ==> files == old(files) && uploading == old(uploading) && progress == old(progress)
    {
      if |selected| + |files| > maxFiles {
        return None, [TooManyFiles(maxFiles)];
      }
      var valid := ValidFiles(selected, maxSize);
      notices := TooLargeNotices(OversizedFiles(selected, maxSize), maxSize);
      changed := None;
      if |valid| > 0 {
        progress := 100;
        uploading := false;
        var newFiles := files + valid;
        files := newFiles;
        changed := Some(newFiles);
        notices := notices + [FilesUploaded(|valid|)];
      }
    }

    /** `removeFile(index)`; `onChange` always receives the new list. */
    method RemoveFile(index: int) returns (changed: seq<File>)
      modifies this
      ensures files == RemoveAt(old(files), index) && changed == files
      ensures uploading == old(uploading) && progress == old(progress)
    {
      files := RemoveAt(files, index);
      changed := files;
    }
  }

  /** An upload that keeps within the limit keeps the widget within the limit. */
  lemma CommitKeepsWithinLimit(current: seq<File>, selected: seq<File>, maxFiles: nat, maxSize: nat)
    ensures var r := Committed(current, selected, maxFiles, maxSize);
      |current| <= maxFiles ==> |if r.Some? then r.value else current| <= maxFiles
  {
  }
}
