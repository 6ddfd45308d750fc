/**
 * What the importers receive from the browser: the chosen file's name and MIME type,
 * its text when read as text, and its first worksheet when decoded by the spreadsheet
 * library. Reading and decoding happen outside the model; their outcomes are data.
 */
module Files {
  import opened Wrappers

  /**
   * A worksheet cell as `sheet_to_json(ws, { header: 1 })` yields it, already turned
   * into text by `toString()`; `None` is a blank cell, which the library leaves as a
   * hole in the row's sparse array, so `forEach` and `some` pass over it.
   */
  type Cell = Option<string>

  /** Rows of cells, the header row first. */
  type Sheet = seq<seq<Cell>>

  datatype SheetRead =
    | ReadFailed                    // the `FileReader` reported an error
    | DecodeFailed(message: string) // the spreadsheet library threw, with this message
    | Decoded(rows: Sheet)

  /** `text` fails with the browser's message when the file cannot be read as text. */
  datatype UploadedFile = UploadedFile(name: string, mimeType: string, text: Result<string, string>, sheet: SheetRead)

  /** `cell?.toString() || ''`. */
  function CellText(c: Cell): string
  {
    if c.Some? then c.value else ""
  }

  /** `values[index] || ''`: the `i`-th text of a row, empty past its end. */
  function TextAt(values: seq<string>, i: nat): string
  {
    if i < |values| then values[i] else ""
  }
}
