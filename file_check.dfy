/** The check both pickers run on a chosen file before accepting it
    (components/UploadSection.tsx and components/ImageUploader.tsx): the
    declared MIME type must start with a family prefix, then the size must not
    exceed a ceiling in bytes. */
module FileCheck {
  import opened Types
  import opened Text

  datatype Verdict = Accepted | Rejected(message: string)

  /** The type test comes first; the size test is inclusive of the ceiling. */
  function CheckFile(file: LocalFile, prefix: string, ceiling: int, typeMessage: string, sizeMessage: string): (r: Verdict)
    ensures r.Accepted? <==> StartsWith(file.mimeType, prefix) && file.size <= ceiling
  {
    if !StartsWith(file.mimeType, prefix) then Rejected(typeMessage)
    else if file.size > ceiling then Rejected(sizeMessage)
    else Accepted
  }

  /** A file of the wrong type is refused for its type whatever its size. */
  lemma TypeCheckedFirst(file: LocalFile, prefix: string, ceiling: int, typeMessage: string, sizeMessage: string)
    requires !StartsWith(file.mimeType, prefix)
    ensures CheckFile(file, prefix, ceiling, typeMessage, sizeMessage) == Rejected(typeMessage)
  {
  }

  /** A file of the right type is refused only for its size, and only when it
      is strictly larger than the ceiling. */
  lemma SizeCheckedSecond(file: LocalFile, prefix: string, ceiling: int, typeMessage: string, sizeMessage: string)
    requires StartsWith(file.mimeType, prefix)
    ensures CheckFile(file, prefix, ceiling, typeMessage, sizeMessage) ==
      (if file.size > ceiling then Rejected(sizeMessage) else Accepted)
  {
  }

  /** Only the declared type and the size matter: two files that agree on
      both get the same verdict, whatever their names. */
  lemma VerdictIgnoresName(a: LocalFile, b: LocalFile, prefix: string, ceiling: int, typeMessage: string, sizeMessage: string)
    requires a.mimeType == b.mimeType && a.size == b.size
    ensures CheckFile(a, prefix, ceiling, typeMessage, sizeMessage) == CheckFile(b, prefix, ceiling, typeMessage, sizeMessage)
  {
  }

  /** Raising the ceiling never turns an accepted file away. */
  lemma CeilingMonotone(file: LocalFile, prefix: string, low: int, high: int, typeMessage: string, sizeMessage: string)
    requires low <= high && CheckFile(file, prefix, low, typeMessage, sizeMessage).Accepted?
    ensures CheckFile(file, prefix, high, typeMessage, sizeMessage).Accepted?
  {
  }
}
