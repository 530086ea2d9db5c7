/** Values shared by the enhancement client and the home page session. */
module Common {

  datatype Option<+T> = None | Some(value: T)

  /** The content of an image file picked by the user, named by a number;
      its bytes are never inspected here. */
  datatype File = File(id: nat)

  /** A displayable image reference.
      ObjectUrl stands for a URL made by URL.createObjectURL (its number is
      whatever the browser hands out); DataUrl is the data: URL that a
      FileReader yields for a file, so the same file always gives the same one. */
  datatype Handle = ObjectUrl(id: nat) | DataUrl(source: File)
}
