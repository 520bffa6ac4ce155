/** What the two upload components share: choosing and checking the dropped
    file (`handleFiles`), and the component state that the progress loop and
    `resetUpload` update (`uploadedImage`, `isAnalyzing`, `analysisProgress`). */
module UploadState {
  import opened Types
  import opened Text

  /** A browser `File`: its name, MIME type and size in bytes. */
  datatype File = File(name: string, mimeType: string, size: nat)

  /** The titles of the two rejection notices. */
  datatype UploadError = InvalidFileType | FileTooLarge

  datatype Validation = Accepted(file: File) | Rejected(error: UploadError)

  /** What `handleFiles` ends with: a rejection notice, or the result that the
      analysis hands to `onAnalysisComplete`. */
  datatype UploadOutcome<R> = Refused(error: UploadError) | Completed(result: R)

  /** `20 * 1024 * 1024` bytes. */
  const MaxImageBytes: nat := 20 * 1024 * 1024

  predicate IsImage(f: File)
  {
    StartsWith(f.mimeType, "image/")
  }

  /** `files[i]` is the file that `files.find(isImage)` returns. */
  predicate FirstImageAt(files: seq<File>, i: nat)
  {
    i < |files| && IsImage(files[i]) && forall j :: 0 <= j < i ==> !IsImage(files[j])
  }

  /** `files.find(file => file.type.startsWith('image/'))`, as an index. */
  function FindImage(files: seq<File>): (r: Option<nat>)
    ensures r.Some? ==> FirstImageAt(files, r.value)
    ensures r.None? <==> forall j :: 0 <= j < |files| ==> !IsImage(files[j])
  {
    if files == [] then None
    else if IsImage(files[0]) then Some(0)
    else match FindImage(files[1..])
      case None => None
      case Some(i) => Some(i + 1)
  }

  /** The two guards of `handleFiles`: there must be an image, and the first
      image must be at most 20 MiB. */
  function ValidateUpload(files: seq<File>): (v: Validation)
    ensures v == Rejected(InvalidFileType) <==> forall j :: 0 <= j < |files| ==> !IsImage(files[j])
    ensures v == Rejected(FileTooLarge) <==>
      exists i: nat :: FirstImageAt(files, i) && files[i].size > MaxImageBytes
    ensures v.Accepted? <==>
      exists i: nat :: FirstImageAt(files, i) && files[i].size <= MaxImageBytes
    ensures v.Accepted? ==> exists i: nat :: FirstImageAt(files, i) && v.file == files[i]
  {
    match FindImage(files)
    case None => Rejected(InvalidFileType)
    case Some(i) =>
      FirstImageUnique(files, i);
      if files[i].size > MaxImageBytes then Rejected(FileTooLarge) else Accepted(files[i])
  }

  /** There is at most one first image. */
  lemma FirstImageUnique(files: seq<File>, i: nat)
    requires FirstImageAt(files, i)
    ensures forall k: nat :: FirstImageAt(files, k) ==> k == i
  {
  }

  /** Files after the first image are never looked at. */
  lemma {:induction false} LaterFilesIgnored(files: seq<File>, later: seq<File>)
    requires exists j :: 0 <= j < |files| && IsImage(files[j])
    ensures ValidateUpload(files + later) == ValidateUpload(files)
  {
    FindImagePrefix(files, later);
  }

  lemma {:induction false} FindImagePrefix(files: seq<File>, later: seq<File>)
    requires exists j :: 0 <= j < |files| && IsImage(files[j])
    ensures FindImage(files + later) == FindImage(files)
  {
    assert (files + later)[0] == files[0];
    if !IsImage(files[0]) {
      assert (files + later)[1..] == files[1..] + later;
      var j :| 0 <= j < |files| && IsImage(files[j]);
      assert files[1..][j - 1] == files[j];
      FindImagePrefix(files[1..], later);
    }
  }

  /** The size guard is strict: an image of exactly 20 MiB is accepted. */
  lemma ExactLimitAccepted(f: File)
    requires IsImage(f) && f.size == MaxImageBytes
    ensures ValidateUpload([f]) == Accepted(f)
  {
    assert FirstImageAt([f], 0);
  }

  /** The progress values that `simulateAnalysis` steps through. */
  const Intervals: seq<int> := [10, 25, 45, 65, 80, 95, 100]

  predicate StrictlyIncreasing(s: seq<int>)
  {
    forall i, j :: 0 <= i < j < |s| ==> s[i] < s[j]
  }

  /** Starting from 0, the progress values strictly increase and end at 100. */
  lemma ProgressClimbsToFull()
    ensures StrictlyIncreasing([0] + Intervals)
    ensures forall k :: 0 <= k < |Intervals| ==> 0 < Intervals[k] <= 100
    ensures Intervals[|Intervals| - 1] == 100
  {
  }

  /** The state an upload component keeps between renders. */
  class Uploader {
    var uploadedImage: Option<string>
    var isAnalyzing: bool
    var analysisProgress: int
    /** The values `analysisProgress` has taken since the last start or reset. */
    ghost var progressTrace: seq<int>

    /** Progress stays within 0..100, and since the last start or reset it has
        started at 0 and only grown, ending at its current value. */
    ghost predicate Valid()
      reads this
    {
      && 0 <= analysisProgress <= 100
      && |progressTrace| > 0
      && progressTrace[0] == 0
      && progressTrace[|progressTrace| - 1] == analysisProgress
      && StrictlyIncreasing(progressTrace)
      && (forall k :: 0 <= k < |progressTrace| ==> 0 <= progressTrace[k] <= 100)
    }

    /** The `useState` initial values. */
    constructor ()
      ensures Valid()
      ensures uploadedImage == None && !isAnalyzing && analysisProgress == 0
    {
      uploadedImage := None;
      isAnalyzing := false;
      analysisProgress := 0;
      progressTrace := [0];
    }

    /** `setUploadedImage` with the data URL the file reader produced. */
    method ShowImage(dataUrl: string)
      requires Valid()
      modifies this
      ensures Valid()
      ensures uploadedImage == Some(dataUrl)
      ensures isAnalyzing == old(isAnalyzing) && analysisProgress == old(analysisProgress)
      ensures progressTrace == old(progressTrace)
    {
      uploadedImage := Some(dataUrl);
    }

    /** The first part of `simulateAnalysis`: mark the analysis as running,
        reset progress to 0, then set it to each value of `Intervals` in turn. */
    method RunProgress()
      modifies this
      ensures Valid()
      ensures isAnalyzing && analysisProgress == 100
      ensures progressTrace == [0] + Intervals
      ensures uploadedImage == old(uploadedImage)
    {
      isAnalyzing := true;
      analysisProgress := 0;
      progressTrace := [0];
      for i := 0 to |Intervals|
        invariant isAnalyzing && uploadedImage == old(uploadedImage)
        invariant progressTrace == [0] + Intervals[..i]
        invariant analysisProgress == progressTrace[|progressTrace| - 1]
      {
        analysisProgress := Intervals[i];
        progressTrace := progressTrace + [Intervals[i]];
      }
      assert Intervals[..|Intervals|] == Intervals;
      ProgressClimbsToFull();
    }

    /** `setIsAnalyzing(false)` once the result is ready. */
    method FinishAnalysis()
      requires Valid()
      modifies this
      ensures Valid()
      ensures !isAnalyzing
      ensures uploadedImage == old(uploadedImage) && analysisProgress == old(analysisProgress)
      ensures progressTrace == old(progressTrace)
    {
      isAnalyzing := false;
    }

    /** `resetUpload`: whatever the state, clear the image, stop and zero the progress. */
    method ResetUpload()
      modifies this
      ensures Valid()
      ensures uploadedImage == None && !isAnalyzing && analysisProgress == 0
    {
      uploadedImage := None;
      isAnalyzing := false;
      analysisProgress := 0;
      progressTrace := [0];
    }
  }
}
