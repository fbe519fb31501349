/** What the browser hands the pages: a chosen file and its MIME type. */
module Browser {

  import opened Basics

  /** A `File` from an `<input type="file">`. */
  datatype File = File(name: string, mimeType: string, data: seq<byte>)

  /** `file.type.startsWith('image/')`. */
  predicate IsImage(file: File) {
    "image/" <= file.mimeType
  }
}
