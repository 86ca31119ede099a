/**
 * The failures raised by the mapping. The family tells reading from writing
 * (OpmlReadError and OpmlWriteError); the reason replaces the message text;
 * `outline` is the offending outline's text, which the messages about an
 * outline of a given type end with.
 */
module Errors {
  import opened Wrappers

  datatype Family = ReadError | WriteError

  datatype Reason =
    | TextMissing          // the outline has no (or an empty) `text`
    | XmlUrlMissing        // an "rss" outline has no `xml_url`
    | InvalidRssVersion    // an "rss" outline's `version` is not a known RSS version
    | UrlMissing           // a "link" or "include" outline has no `url`
    | VersionNotFound      // the root has no (or an empty) `version` attribute
    | UnsupportedVersion   // the root's `version` is not "2.0"
    | HeadNotFound         // the root has no `head` child
    | BodyNotFound         // the root has no `body` child
    | InvalidDate          // a header date is not valid RFC 2822 text

  datatype Error = Error(family: Family, reason: Reason, outline: Option<string>)
}

/**
 * Timestamps are opaque: the RFC 2822 rendering and parsing that the source
 * delegates to the Python standard library are passed in as functions.
 */
module Dates {
  import opened Wrappers

  type DateTime(==, !new)

  /** Renders a timestamp as RFC 2822 text. */
  type Formatter = DateTime -> string

  /** Reads RFC 2822 text; `None` when the text is malformed. */
  type Parser = string -> Option<DateTime>
}
