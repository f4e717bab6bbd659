/** The video drop area of the coach page (components/UploadSection.tsx). It
    remembers the last accepted file, highlights while something is dragged
    over it, and hands accepted files to the page. */
module UploadSection {
  import opened Types
  import opened Text
  import opened FileCheck

  const VideoPrefix: string := "video/"
  /** 100 MiB. */
  const MaxVideoBytes: int := 100 * 1024 * 1024
  const NotVideoMessage: string := "Please select a video file."
  const VideoTooLargeMessage: string := "File size must be less than 100MB."

  /** The checks of `handleFile`. */
  function CheckVideo(file: LocalFile): (r: Verdict)
    ensures r.Accepted? <==> StartsWith(file.mimeType, VideoPrefix) && file.size <= 104857600
    ensures r.Rejected? ==> r.message == NotVideoMessage || r.message == VideoTooLargeMessage
  {
    CheckFile(file, VideoPrefix, MaxVideoBytes, NotVideoMessage, VideoTooLargeMessage)
  }

  /** A video of exactly 100 MiB is accepted, although the message speaks of
      "less than 100MB"; one byte more is refused with that message. */
  lemma VideoCeilingInclusive(name: string, mimeType: string)
    requires StartsWith(mimeType, VideoPrefix)
    ensures CheckVideo(LocalFile(name, mimeType, 104857600)) == Accepted
    ensures CheckVideo(LocalFile(name, mimeType, 104857601)) == Rejected(VideoTooLargeMessage)
  {
    SizeCheckedSecond(LocalFile(name, mimeType, 104857601), VideoPrefix, MaxVideoBytes, NotVideoMessage, VideoTooLargeMessage);
  }

  /** The prefix test is case-sensitive: "VIDEO/MP4" is not a video. */
  lemma VideoPrefixCaseSensitive(name: string, size: int)
    ensures CheckVideo(LocalFile(name, "VIDEO/MP4", size)) == Rejected(NotVideoMessage)
  {
    assert "VIDEO/MP4"[0] != VideoPrefix[0];
  }

  /** The area's own state. */
  class DropArea {
    var isDragOver: bool
    var selectedFile: Option<LocalFile>

    constructor ()
      ensures !isDragOver && selectedFile == None
    {
      isDragOver := false;
      selectedFile := None;
    }

    /** `handleFile`. `alert` is the message shown, `selected` the file passed
        to `onFileSelect` (at most one call). A missing file does nothing; a
        refused file leaves the state alone. */
    method HandleFile(file: Option<LocalFile>) returns (alert: Option<string>, selected: Option<LocalFile>)
      modifies this
      ensures isDragOver == old(isDragOver)
      ensures file.None? ==> alert.None? && selected.None? && selectedFile == old(selectedFile)
      ensures file.Some? && CheckVideo(file.value).Rejected? ==>
        alert == Some(CheckVideo(file.value).message) && selected.None? && selectedFile == old(selectedFile)
      ensures file.Some? && CheckVideo(file.value).Accepted? ==>
        alert.None? && selected == file && selectedFile == file
      ensures selected.Some? ==> CheckVideo(selected.value).Accepted?
    {
      alert, selected := None, None;
      if file.None? {
        return;
      }
      var verdict := CheckVideo(file.value);
      if verdict.Rejected? {
        alert := Some(verdict.message);
        return;
      }
      selectedFile := file;
      selected := file;
    }

    /** `handleDragOver`: highlight unless disabled. */
    method DragOver(disabled: bool)
      modifies this
      ensures isDragOver == (!disabled || old(isDragOver))
      ensures selectedFile == old(selectedFile)
    {
      if !disabled {
        isDragOver := true;
      }
    }

    /** `handleDragLeave`: always drop the highlight. */
    method DragLeave()
      modifies this
      ensures !isDragOver && selectedFile == old(selectedFile)
    {
      isDragOver := false;
    }

    /** `handleDrop`: always drop the highlight; unless disabled, handle the
        first dropped file. */
    method Drop(disabled: bool, files: seq<LocalFile>) returns (alert: Option<string>, selected: Option<LocalFile>)
      modifies this
      ensures !isDragOver
      ensures disabled ==> alert.None? && selected.None? && selectedFile == old(selectedFile)
      ensures !disabled && files == [] ==> alert.None? && selected.None? && selectedFile == old(selectedFile)
      ensures !disabled && files != [] && CheckVideo(files[0]).Accepted? ==>
        alert.None? && selected == Some(files[0]) && selectedFile == Some(files[0])
      ensures !disabled && files != [] && CheckVideo(files[0]).Rejected? ==>
        alert == Some(CheckVideo(files[0]).message) && selected.None? && selectedFile == old(selectedFile)
    {
      isDragOver := false;
      alert, selected := None, None;
      if !disabled {
        alert, selected := HandleFile(if files == [] then None else Some(files[0]));
      }
    }

    /** `handleFileChange`: the first picked file, if any. The picker is
        reachable only through `Click`, which is gated by `disabled`. */
    method FileChange(files: seq<LocalFile>) returns (alert: Option<string>, selected: Option<LocalFile>)
      modifies this
      ensures isDragOver == old(isDragOver)
      ensures files == [] ==> alert.None? && selected.None? && selectedFile == old(selectedFile)
      ensures files != [] && CheckVideo(files[0]).Accepted? ==>
        alert.None? && selected == Some(files[0]) && selectedFile == Some(files[0])
      ensures files != [] && CheckVideo(files[0]).Rejected? ==>
        alert == Some(CheckVideo(files[0]).message) && selected.None? && selectedFile == old(selectedFile)
    {
      alert, selected := HandleFile(if files == [] then None else Some(files[0]));
    }
  }

  /** `handleClick`: the file picker opens only when the area is enabled. */
  predicate OpensPicker(disabled: bool)
  {
    !disabled
  }
}
