/** Option and Result, plus the exceptions the updater can raise on its way to a result. */
module Wrappers {

  datatype Option<+T> = None | Some(value: T)

  /** The Python exceptions that end a run, as values. */
  datatype Error =
    | FileNotFound(name: string)    // ET.parse on a path that is not in the directory
    | XmlParseError(name: string)   // ET.parse on a file that is not well-formed XML
    | HistoryMissing(name: string)  // root.find("HistorialPartidas") is None, so slicing it raises
    | FieldMissing(field: nat)      // row[field] on a row with too few fields (IndexError)

  datatype Result<+T> = Ok(value: T) | Err(error: Error)
}
