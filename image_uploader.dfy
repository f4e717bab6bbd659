/** The image picker of the shopping assistant (components/ImageUploader.tsx).
    It shows a preview and an error, and reports the chosen image, or its
    absence, to its owner through `onImageUpload`. */
module ImageUploader {
  import opened Types
  import opened Text
  import opened FileCheck

  const ImagePrefix: string := "image/"
  /** The `maxSizeMb` the assistant leaves at its default. */
  const DefaultMaxSizeMb: nat := 5
  const NotImageMessage: string := "Please upload an image file."

  /** The ceiling in bytes for a limit in mebibytes. */
  function MaxImageBytes(maxSizeMb: nat): nat {
    maxSizeMb * 1024 * 1024
  }

  /** "File size cannot exceed {maxSizeMb}MB." */
  function ImageTooLargeMessage(maxSizeMb: nat): string {
    "File size cannot exceed " + NatToString(maxSizeMb) + "MB."
  }

  /** The checks of `processFile`. */
  function CheckImage(file: LocalFile, maxSizeMb: nat): (r: Verdict)
    ensures r.Accepted? <==> StartsWith(file.mimeType, ImagePrefix) && file.size <= maxSizeMb * 1048576
    ensures r.Rejected? ==> r.message == NotImageMessage || r.message == ImageTooLargeMessage(maxSizeMb)
  {
    CheckFile(file, ImagePrefix, MaxImageBytes(maxSizeMb), NotImageMessage, ImageTooLargeMessage(maxSizeMb))
  }

  /** With the default limit an image of exactly 5 MiB is accepted and one byte
      more is refused with "File size cannot exceed 5MB.". */
  lemma DefaultImageCeiling(name: string, mimeType: string)
    requires StartsWith(mimeType, ImagePrefix)
    ensures CheckImage(LocalFile(name, mimeType, 5242880), DefaultMaxSizeMb) == Accepted
    ensures CheckImage(LocalFile(name, mimeType, 5242881), DefaultMaxSizeMb) ==
      Rejected("File size cannot exceed 5MB.")
  {
    assert NatToString(5) == "5";
  }

  /** The limit written in the message reads back as the limit enforced. */
  lemma TooLargeMessageNamesLimit(maxSizeMb: nat)
    ensures var m := ImageTooLargeMessage(maxSizeMb);
      var digits := m[|"File size cannot exceed "|..|m| - |"MB."|];
      (forall i :: 0 <= i < |digits| ==> '0' <= digits[i] <= '9') &&
      DigitsValue(digits) * 1048576 == MaxImageBytes(maxSizeMb)
  {
    var m := ImageTooLargeMessage(maxSizeMb);
    assert m[|"File size cannot exceed "|..|m| - |"MB."|] == NatToString(maxSizeMb);
    NatToStringRoundTrip(maxSizeMb);
  }

  class Picker {
    /** The `maxSizeMb` prop. */
    const maxSizeMb: nat
    var preview: Option<string>
    var error: Option<string>

    constructor (maxSizeMb: nat)
      ensures this.maxSizeMb == maxSizeMb && preview == None && error == None
    {
      this.maxSizeMb := maxSizeMb;
      preview := None;
      error := None;
    }

    /** `processFile`. `reported` is the argument of its one `onImageUpload`
        call. The error is cleared first and set again only for a refused file;
        the preview is left as it was, even on refusal, until the reader
        delivers the new one (`PreviewLoaded`). */
    method ProcessFile(file: LocalFile) returns (reported: Option<LocalFile>)
      modifies this
      ensures preview == old(preview)
      ensures CheckImage(file, maxSizeMb).Accepted? ==> error == None && reported == Some(file)
      ensures CheckImage(file, maxSizeMb).Rejected? ==>
        error == Some(CheckImage(file, maxSizeMb).message) && reported == None
      ensures reported.Some? ==> CheckImage(reported.value, maxSizeMb).Accepted?
    {
      error := None;
      var verdict := CheckImage(file, maxSizeMb);
      if verdict.Rejected? {
        error := Some(verdict.message);
        return None;
      }
      reported := Some(file);
    }

    /** The reader's `onloadend` for an accepted file. */
    method PreviewLoaded(dataUrl: string)
      modifies this
      ensures preview == Some(dataUrl) && error == old(error)
    {
      preview := Some(dataUrl);
    }

    /** `handleChange`: with no file picked nothing happens and nothing is
        reported (`None`); otherwise the first file is processed and its
        report returned. */
    method HandleChange(files: seq<LocalFile>) returns (report: Option<Option<LocalFile>>)
      modifies this
      ensures files == [] ==> report.None? && preview == old(preview) && error == old(error)
      ensures files != [] ==> report.Some? && preview == old(preview)
      ensures files != [] && CheckImage(files[0], maxSizeMb).Accepted? ==>
        error == None && report == Some(Some(files[0]))
      ensures files != [] && CheckImage(files[0], maxSizeMb).Rejected? ==>
        error == Some(CheckImage(files[0], maxSizeMb).message) && report == Some(None)
    {
      if files == [] {
        return None;
      }
      var reported := ProcessFile(files[0]);
      report := Some(reported);
    }

    /** `removeImage`: no preview, no error, and the owner is told there is no
        image. */
    method RemoveImage() returns (reported: Option<LocalFile>)
      modifies this
      ensures preview == None && error == None && reported == None
    {
      preview := None;
      error := None;
      reported := None;
    }
  }
}
