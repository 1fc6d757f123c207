/**
 * The file upload control (components/ui/file-upload.tsx): files over the size limit are
 * dropped, the rest are listed with a simulated upload progress that advances ten points per
 * tick until it completes, and a listed file can be removed.
 */
module FileUpload {
  import opened Wrappers
  import opened Types
  import opened Seqs

  const BytesPerMegabyte: real := 1048576.0

  /** The size in bytes, converted to megabytes, is at most the limit. */
  predicate WithinLimit(file: File, maxSize: real)
  {
    file.size as real / BytesPerMegabyte <= maxSize
  }

  function SizeFilter(maxSize: real): File -> bool
  {
    (file: File) => WithinLimit(file, maxSize)
  }

  /** `validFiles`: the selected files of at most `maxSize` megabytes, in selection order. */
  function ValidFiles(files: seq<File>, maxSize: real): (r: seq<File>)
    ensures forall f :: f in r <==> f in files && f.size as real <= maxSize * BytesPerMegabyte
    ensures IsSubseq(r, files)
    ensures KeepsEveryCopy(r, files, SizeFilter(maxSize))
  {
    FilterIsSubseq(files, SizeFilter(maxSize));
    FilterKeepsEveryCopy(files, SizeFilter(maxSize));
    Filter(files, SizeFilter(maxSize))
  }

  datatype UploadStatus = Uploading | Completed | UploadError

  datatype UploadedFile = UploadedFile(file: File, progress: int, status: UploadStatus, id: string)

  /** The entries for newly accepted files: no progress yet, uploading, with fresh ids. */
  function NewEntries(files: seq<File>, freshId: nat -> string, start: nat): (r: seq<UploadedFile>)
    ensures |r| == |files|
    ensures forall k :: 0 <= k < |files| ==> r[k] == UploadedFile(files[k], 0, Uploading, freshId(start + k))
  {
    if files == [] then []
    else [UploadedFile(files[0], 0, Uploading, freshId(start))] + NewEntries(files[1..], freshId, start + 1)
  }

  /** One tick of the upload simulation on one entry. */
  function Advance(f: UploadedFile): UploadedFile
  {
    var newProgress := if f.progress + 10 < 100 then f.progress + 10 else 100;
    f.(progress := newProgress, status := if newProgress == 100 then Completed else Uploading)
  }

  /** One tick for the file `fileId`; the other entries are unchanged. */
  function Ticked(files: seq<UploadedFile>, fileId: string): (r: seq<UploadedFile>)
    ensures |r| == |files|
    ensures forall k :: 0 <= k < |files| ==> r[k] == if files[k].id == fileId then Advance(files[k]) else files[k]
  {
    seq(|files|, k requires 0 <= k < |files| => if files[k].id == fileId then Advance(files[k]) else files[k])
  }

  /** What every listed entry satisfies: progress in steps of ten from 0 to 100, complete
      exactly at 100, and never in error. */
  predicate WellFormed(f: UploadedFile)
  {
    0 <= f.progress <= 100 && f.progress % 10 == 0
    && (f.status == Completed <==> f.progress == 100)
    && f.status != UploadError
  }

  /** A tick keeps an entry well formed and never moves its progress back. */
  lemma AdvanceKeepsWellFormed(f: UploadedFile)
    requires WellFormed(f)
    ensures WellFormed(Advance(f))
    ensures Advance(f).progress >= f.progress
    ensures f.status == Completed ==> Advance(f) == f
  {
  }

  /** `n` ticks on one entry. */
  function AdvanceTimes(f: UploadedFile, n: nat): UploadedFile
  {
    if n == 0 then f else Advance(AdvanceTimes(f, n - 1))
  }

  /** From a fresh entry, `n` ticks bring the progress to `10 n` capped at 100, so the tenth
      tick completes the upload. */
  lemma {:induction false} ProgressAfterTicks(f: UploadedFile, n: nat)
    requires f.progress == 0 && f.status == Uploading
    ensures AdvanceTimes(f, n).progress == if 10 * n < 100 then 10 * n else 100
    ensures AdvanceTimes(f, n).status == Completed <==> n >= 10
    ensures AdvanceTimes(f, n).file == f.file && AdvanceTimes(f, n).id == f.id
  {
    if n > 0 {
      ProgressAfterTicks(f, n - 1);
    }
  }

  class FileUploadState {
    var uploadedFiles: seq<UploadedFile>

    predicate Valid()
      reads this
    {
      forall k :: 0 <= k < |uploadedFiles| ==> WellFormed(uploadedFiles[k])
    }

    constructor()
      ensures uploadedFiles == [] && Valid()
    {
      uploadedFiles := [];
    }

    /** `handleFileSelect`: nothing happens without a selection or when every file is too
        large; otherwise the accepted files are listed after the earlier ones and handed to
        `onFileSelect`. `freshId` stands for the random ids. */
    method HandleFileSelect(files: Option<seq<File>>, maxSize: real, freshId: nat -> string) returns (selected: Option<seq<File>>)
      requires Valid()
      modifies this
      ensures Valid()
      ensures files.None? ==> selected.None? && uploadedFiles == old(uploadedFiles)
      ensures files.Some? && ValidFiles(files.value, maxSize) == [] ==> selected.None? && uploadedFiles == old(uploadedFiles)
      ensures files.Some? && ValidFiles(files.value, maxSize) != [] ==>
        selected == Some(ValidFiles(files.value, maxSize))
        && uploadedFiles == old(uploadedFiles) + NewEntries(ValidFiles(files.value, maxSize), freshId, 0)
    {
      if files.None? {
        return None;
      }
      var validFiles := ValidFiles(files.value, maxSize);
      if |validFiles| > 0 {
        var newFiles := NewEntries(validFiles, freshId, 0);
        uploadedFiles := uploadedFiles + newFiles;
        selected := Some(validFiles);
      } else {
        selected := None;
      }
    }

    /** One tick of `simulateUpload` for `fileId`. */
    method Tick(fileId: string)
      requires Valid()
      modifies this
      ensures Valid()
      ensures uploadedFiles == Ticked(old(uploadedFiles), fileId)
    {
      uploadedFiles := Ticked(uploadedFiles, fileId);
      forall k | 0 <= k < |uploadedFiles| ensures WellFormed(uploadedFiles[k]) {
        AdvanceKeepsWellFormed(old(uploadedFiles)[k]);
      }
    }

    /** `removeFile`: every entry with that id leaves the list; the rest keep their order. */
    method RemoveFile(fileId: string)
      requires Valid()
      modifies this
      ensures Valid()
      ensures uploadedFiles == Filter(old(uploadedFiles), (f: UploadedFile) => f.id != fileId)
      ensures forall f :: f in uploadedFiles <==> f in old(uploadedFiles) && f.id != fileId
    {
      uploadedFiles := Filter(uploadedFiles, (f: UploadedFile) => f.id != fileId);
      forall k | 0 <= k < |uploadedFiles| ensures WellFormed(uploadedFiles[k]) {
        assert uploadedFiles[k] in old(uploadedFiles);
      }
    }
  }
}
