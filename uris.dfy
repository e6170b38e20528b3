/** The System.Uri values the result decoders produce. URI parsing itself is
    the .NET library's; the model takes it as a parameter. */
module Uris {
  import opened Wrappers

  /** An absolute URI as System.Uri holds it: its scheme and its text. */
  datatype Uri = Uri(scheme: string, text: string)
  {
    /** Uri.IsFile */
    predicate IsFile()
    {
      scheme == "file"
    }
  }

  /** Uri.TryCreate(text, UriKind.Absolute, out uri): the parsed URI, or None
      where the text is not an absolute URI. */
  type UriParser = string -> Option<Uri>
}
