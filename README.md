# AI PDF renamer: a Dafny model of the rename pipeline

The original program is a small Tk application, `pdf_renamer_gui.py`. It renames every PDF in
a folder after a short name that a language model suggests from the document's text. The
text is either the leading pages of the document, up to 1000 characters, or the text inside
a rectangle that the user drags on a preview of a sample PDF. This project models the part of
that script with logic of its own, and proves what that logic does:

- **`Strings`**: the Python string operations the script relies on. `strip()` over Python's
  whitespace set, the case-insensitive `.lower().endswith(".pdf")` filter, and slicing.
- **`Naming`**: `generate_filename`. It builds the prompt, takes the service's reply (an
  oracle), trims it and replaces spaces, `/` and `\` with `_`. Its string-or-tuple return
  becomes `Success(name) | Failure(msg)`. The final name is
  `prefix + name + suffix + ".pdf"`.
- **`Extraction`**: `extract_text_by_area`, the stripped text clipped from the first page.
  Also the whole-document loop, which appends page texts and stops at the first page that
  brings the total to 1000 characters. That loop is written as a method (`GatherText`)
  and proved against a specification function (`PagesRead`, `Concat`).
- **`Renamer`**: `rename_pdfs`. The folder (`Folder`, a set of names) and the output box
  (`OutputBox`, an append-only sequence of `LogLine`s) are objects. The batch loop changes
  them in place, over a snapshot of the directory listing. The method `RenamePdfs` is
  proved against the function `Run`, which folds `ProcessEntry` over the listing. The
  lemmas state the properties of `Run`: the log shape, the preview guarantee, conflict
  safety, which names can change, and when the naming service is consulted.
- **`Selection`**: `PDFRenamerApp`'s selection state. `rect` is a four-element array that
  clicks and drags overwrite in place. The model covers the checks `start_renaming` makes
  before it launches the worker, and the mapping of the rectangle from preview pixels to
  page units. Each coordinate is multiplied by its own axis factor and truncated toward
  zero, as Python's `int()` does.
- **`Scenarios`**: one worked run. `doc1.pdf` holds an invoice, the service answers
  "May Rent Invoice", and the file becomes `May_Rent_Invoice.pdf`.

Collaborators the script calls but cannot see are parameters, bundled in `Renamer.Env`:

- `fitz.open` of an entry gives a `Document` (its pages' sizes, texts and clipped texts) or
  the exception's message.
- The completion service maps the prompt to the reply or the exception's message.
- The operating system may refuse a rename.

Every exception the script catches becomes an `Err` value that the model logs, as the
script's `except` clause does.

Where the code behaves differently from what its comments, names or messages suggest, the model follows the code:

- An empty sanitised name is not rejected. A reply of nothing but whitespace gives
  `Success("")` (`Naming.BlankReplyGivesEmptyName`), and the file is then renamed to
  `prefix + suffix + ".pdf"`.
- The vertical scale factor divides by the canvas's current height (`winfo_height()`), not
  by the height of the rendered preview image. The divisor is a parameter of
  `StartRenaming` (`displayHeight`), so both choices can be modelled. No property here
  depends on which one is used.
- In whole-document mode, the text is stripped *after* the pages are joined. The 1000
  character cap is then applied to the stripped text. The stopping test counts raw
  characters, whitespace included. A document with no pages is not an error: the service
  is asked about the empty text (`Renamer.NoPagesStillNamed`).
- Only an all-zero rectangle counts as "no area". A click without a drag leaves
  `[x, y, 0, 0]`, which is accepted and scaled like any other rectangle.
- `start_renaming` opens the sample PDF even when area mode is off. Without a sample (or
  with one that has no pages) it raises before the worker starts. `StartRenaming` reports
  this as `SampleFailed`.

## Model

| member | source | states |
|---|---|---|
| `Strings.Strip` | pdf_renamer_gui.py:37 | `str.strip()`: the result is the slice of the input that starts at the first non-whitespace character; everything removed at either end is whitespace; the result neither starts nor ends with whitespace |
| `Strings.StripIdempotent` | pdf_renamer_gui.py:22 | stripping an already stripped text changes nothing |
| `Strings.StripOfExtension` | pdf_renamer_gui.py:62 | when a string's strip is non-empty, the strip of any extension of that string begins with it |
| `Strings.Take` | pdf_renamer_gui.py:62 | `s[:n]` is a prefix of `s` of length `min(n, len(s))` |
| `Strings.Lower` | pdf_renamer_gui.py:45 | the model of `lower()` lowers each ASCII letter and keeps every other character, one for one (see "Left out") |
| `Strings.IsPdfName` | pdf_renamer_gui.py:45 | a name the filter accepts is at least four characters long and has a `.` four from its end |
| `Strings.IsPdfNameCaseInsensitive` | pdf_renamer_gui.py:45 | the filter accepts exactly the names whose last four characters are `.` then `p`, `d`, `f` in either case |
| `Naming.Prompt` | pdf_renamer_gui.py:25-28 | the user prompt begins with the fixed instruction, word for word, and is followed by the extracted text, unchanged |
| `Naming.ReplaceChar` | pdf_renamer_gui.py:38 | one `str.replace` of a character: the length is kept, each occurrence of the old character becomes the new one, every other character stays, and none of the old character is left |
| `Naming.Sanitize` | pdf_renamer_gui.py:38 | the replace chain keeps the length, leaves no space, `/` or `\`, and turns exactly those characters into `_` |
| `Naming.SanitizeIdempotent` | pdf_renamer_gui.py:38 | sanitising a sanitised name changes nothing |
| `Naming.SanitizeFixesClean` | pdf_renamer_gui.py:38 | a name without a forbidden character is left as it is |
| `Naming.SanitizeConcat` | pdf_renamer_gui.py:38 | the replace chain works character by character: sanitising a concatenation sanitises each part |
| `Naming.GenerateFilename` | pdf_renamer_gui.py:24-41 | `Success` exactly when the service answers; the name is the stripped reply with each space, `/` and `\` replaced by `_` and every other character kept in place, so it is as long as the stripped reply and has no forbidden character and no surrounding whitespace; a raised call gives `Failure` with its message |
| `Naming.BlankReplyGivesEmptyName` | pdf_renamer_gui.py:37-39 | a reply of only whitespace gives `Success("")`: an empty name is not rejected |
| `Naming.GeneratedNameIsSanitized` | pdf_renamer_gui.py:37-39 | a generated name is a fixed point of the sanitiser |
| `Naming.FinalName` | pdf_renamer_gui.py:66 | the final name is the prefix, then the name, then the suffix, then `.pdf` |
| `Naming.FinalNameIsPdf` | pdf_renamer_gui.py:66 | every final name passes the batch's `.pdf` filter, whatever the prefix and suffix |
| `Extraction.ExtractTextByArea` | pdf_renamer_gui.py:18-22 | fails with `IndexError`'s message exactly when the document has no page; otherwise it gives the first page's clipped text, stripped |
| `Extraction.AreaTextOnlyFirstPage` | pdf_renamer_gui.py:20-21 | area extraction looks at the first page only |
| `Extraction.ConcatPrefix` | pdf_renamer_gui.py:58-59 | the text of the first k pages is a prefix of the text of all pages: pages are appended in order |
| `Extraction.PagesReadFrom` | pdf_renamer_gui.py:58-61 | having read i pages below the cap, the loop stops after the first later page that reaches the cap, or after the last page |
| `Extraction.PagesRead` | pdf_renamer_gui.py:58-61 | the loop reads at least one page when there is one, stops at the first page where the total reaches 1000, and otherwise reads every page |
| `Extraction.PagesReadUnique` | pdf_renamer_gui.py:58-61 | those conditions single out the stopping point |
| `Extraction.GatherText` | pdf_renamer_gui.py:57-61 | the `for`/`break` loop returns exactly the joined text of the pages `PagesRead` counts |
| `Extraction.WholeDocumentText` | pdf_renamer_gui.py:62 | the text sent for naming is a prefix of the stripped gathered text: all of it when it has at most 1000 characters, otherwise exactly its first 1000 |
| `Extraction.ShortDocumentReadWhole` | pdf_renamer_gui.py:56-62 | a document whose text is under the cap is read to its last page and sent whole, stripped |
| `Extraction.EarlyStopKeepsCap` | pdf_renamer_gui.py:56-62 | when the stripped gathered text still holds 1000 characters, stopping early gives what reading every page would give |
| `Renamer.OsRename` | pdf_renamer_gui.py:72 | `os.rename` succeeds exactly when the OS allows it and the source exists; it then adds the target and changes no other name except the source |
| `Renamer.Conclude` | pdf_renamer_gui.py:63-75 | it logs a GPT error, "Will rename to", a skip, a rename or the caught error, and nothing else; a naming failure is logged as a GPT error carrying the service's message, and leaves the folder unchanged; a preview logs "Will rename to"; an existing target is skipped and the folder is left unchanged; an absent target is renamed to when the entry exists and the OS allows it, and otherwise the OS error (or a missing-file error) is logged and the folder is left unchanged; a logged rename is to the final name; the folder changes only by a logged rename that moves exactly this entry to a previously absent `.pdf` name, and never in a preview |
| `Renamer.Extract` | pdf_renamer_gui.py:49-62 | area mode passes on the non-empty stripped area text, stops on an empty one, and raises, with `IndexError`'s message, exactly on a document with no pages; whole-document mode passes on `WholeDocumentText` of the document |
| `Renamer.Attempt` | pdf_renamer_gui.py:48-77 | the `try` body logs one outcome line; the folder changes only by the entry's logged rename to a previously absent `.pdf` name, and never in a preview |
| `Renamer.UnnamedEntryKeepsFolder` | pdf_renamer_gui.py:48-53 | an entry that never reaches the naming service logs the caught error or "No text found in area." and leaves the folder unchanged; a document that does not open logs the exception's message, and one with no first page in area mode logs `IndexError`'s message |
| `Renamer.NoTextExactlyOnEmptyArea` | pdf_renamer_gui.py:49-53 | "No text found in area." is logged exactly when area mode finds an empty stripped area |
| `Renamer.ProcessEntry` | pdf_renamer_gui.py:44-77 | an entry that fails the `.pdf` filter logs nothing and changes nothing; any other entry logs "Reading" and then exactly one outcome line |
| `Renamer.PdfEntries` | pdf_renamer_gui.py:45 | the filtered entries are `.pdf` names taken from the listing |
| `Renamer.PdfEntriesFilter` | pdf_renamer_gui.py:44-45 | the filter keeps every `.pdf` entry of the listing, as many times as it occurs, and nothing else |
| `Renamer.PdfEntriesConcat` | pdf_renamer_gui.py:44-45 | the filter works entry by entry: filtering two listings one after the other is filtering their concatenation |
| `Renamer.Run` | pdf_renamer_gui.py:44-77 | the loop over the listing; a preview leaves the folder exactly as it was |
| `Renamer.RunLogShape` | pdf_renamer_gui.py:44-78 | the run's log is, for each `.pdf` entry in listing order, its "Reading" line and then one outcome line; it contains no "Done" line |
| `Renamer.DoneOnlyAtEnd` | pdf_renamer_gui.py:78 | the batch's log contains exactly one "Done" line, and it is the last line |
| `Renamer.EntryMovesOnlyItself` | pdf_renamer_gui.py:44-77 | one pass of the loop body can only move its own entry, a `.pdf` name, to a `.pdf` name; the number of files stays the same |
| `Renamer.RunMovesOnlyPdfEntries` | pdf_renamer_gui.py:44-77 | only `.pdf` entries of the listing can disappear, every new name ends in `.pdf`, and the number of files never changes |
| `Renamer.PreviewKeepsFolder` | pdf_renamer_gui.py:68-69 | a preview run leaves the folder exactly as it was and never logs a rename or a skip |
| `Renamer.PreviewRepeatable` | pdf_renamer_gui.py:68-69 | with collaborators that answer the same way both times, running the same preview twice logs the same lines: the first preview changes nothing the second one reads |
| `Renamer.PreviewLogsTarget` | pdf_renamer_gui.py:68-69 | in a preview, every successfully named entry logs "Will rename to" with its final name |
| `Renamer.ExistingTargetSkipped` | pdf_renamer_gui.py:70-75 | outside a preview, an existing target leaves the source and the target in place and logs a skip |
| `Renamer.AbsentTargetRenamed` | pdf_renamer_gui.py:71-73 | outside a preview, an absent target that the OS allows is renamed to: exactly the entry leaves and the target arrives |
| `Renamer.FailureKeepsFolder` | pdf_renamer_gui.py:63-77 | an entry whose outcome is a GPT error or a caught exception leaves the folder unchanged |
| `Renamer.EmptyAreaSkipsNaming` | pdf_renamer_gui.py:49-54 | an empty stripped area logs "No text found in area." and the result does not depend on the naming service |
| `Renamer.ConcludeIgnoresService` | pdf_renamer_gui.py:63-75 | once the name is known, what happens depends on the folder and the operating system, not on the naming service |
| `Renamer.NamingOnlyOnInput` | pdf_renamer_gui.py:49-62 | the service is consulted only with the extracted text: two services that agree on that prompt give the same result |
| `Renamer.NoPagesStillNamed` | pdf_renamer_gui.py:56-62 | in whole-document mode, a document with no pages sends the empty text to the service |
| `Renamer.SnapshotEntriesPresent` | pdf_renamer_gui.py:44 | when the listing is a duplicate-free snapshot of the folder, every entry is still present when the loop reaches it |
| `Renamer.Folder.Rename` | pdf_renamer_gui.py:72 | the folder's names after `os.rename` are those `OsRename` gives; on failure they are unchanged and the error is returned |
| `Renamer.OutputBox.Insert` | pdf_renamer_gui.py:47 | a line is appended at the end of the log |
| `Renamer.HandleEntry` | pdf_renamer_gui.py:45-77 | the loop body changes the folder and the log as `ProcessEntry` says |
| `Renamer.ConcludeEntry` | pdf_renamer_gui.py:63-75 | the end of the loop body changes the folder and the log as `Conclude` says |
| `Renamer.RenamePdfs` | pdf_renamer_gui.py:43-78 | the batch leaves the folder as `Run` says and appends `Run`'s lines followed by one "Done" line |
| `Selection.NoArea` | pdf_renamer_gui.py:167 | `not any(self.rect)` holds exactly when every coordinate is 0 |
| `Selection.ScaleX` | pdf_renamer_gui.py:173 | the x factor times the preview width of 600 gives the page width; it is non-negative for a non-negative width |
| `Selection.ScaleY` | pdf_renamer_gui.py:174 | the y factor times the divisor gives the page height; it is non-negative for a non-negative height |
| `Selection.Trunc` | pdf_renamer_gui.py:175 | `int()` truncates toward zero: the result is within one unit of its argument, on the side of 0 |
| `Selection.TruncMonotone` | pdf_renamer_gui.py:175 | truncation preserves order |
| `Selection.ScaleRect` | pdf_renamer_gui.py:175 | every even coordinate is scaled by the x factor and every odd one by the y factor, each truncated on its own |
| `Selection.ScaleCloseToExact` | pdf_renamer_gui.py:175 | a scaled coordinate lies within one page unit of the exact product, never further from 0 |
| `Selection.ZeroRectScalesToZero` | pdf_renamer_gui.py:175 | an all-zero rectangle maps to all zeros |
| `Selection.ScaleAxesIndependent` | pdf_renamer_gui.py:173-175 | x results depend only on the x coordinates and the x factor; y results depend only on the y coordinates and the y factor |
| `Selection.ScaleMonotone` | pdf_renamer_gui.py:175 | a non-negative factor keeps the order of two coordinates |
| `Selection.ScaleKeepsOrder` | pdf_renamer_gui.py:173-175 | with non-negative factors, a rectangle drawn left-to-right (top-to-bottom) stays that way in page units |
| `Selection.App.constructor` | pdf_renamer_gui.py:86-87 | the application starts with no folder and the rectangle `[0, 0, 0, 0]` |
| `Selection.App.SelectFolder` | pdf_renamer_gui.py:126-131 | a chosen folder replaces the previous one; a cancelled dialog keeps it |
| `Selection.App.OnCanvasClick` | pdf_renamer_gui.py:148-150 | a click overwrites indices 0-1 and keeps indices 2-3 |
| `Selection.App.OnCanvasDrag` | pdf_renamer_gui.py:152-154 | a drag overwrites indices 2-3 and keeps indices 0-1 |
| `Selection.App.StartRenaming` | pdf_renamer_gui.py:159-185 | it refuses exactly when no folder is set; it refuses area mode exactly when all four coordinates are 0; it fails exactly when the sample cannot be opened or has no first page; otherwise it starts the batch with the stripped prefix and suffix and the rectangle scaled by page width / 600 and page height / divisor |
| `Scenarios.InvoiceRenamed` | pdf_renamer_gui.py:43-78 | `doc1.pdf` holding an invoice, with the reply "May Rent Invoice" and no prefix, suffix or preview, becomes `May_Rent_Invoice.pdf`, logged as renamed |

## Left out

- `Renamer.PreviewRepeatable`: a real completion service may answer the same prompt differently on a second call. The lemma holds only for collaborators that answer the same way both times. The model's oracles are functions, so a service that varies is not modelled.
- `Selection.App.SelectFolder` also logs "Folder Selected" to the output box and enables the start button. Neither is modelled: the output box belongs to the batch here, and the button's state is widget plumbing.
- Tk widgets, layout, dialogs, message boxes and the red selection rectangle drawn on the canvas (`rect_id`): user-interface plumbing. `StartRenaming` returns which message box would appear instead of showing it.
- `select_sample_pdf`'s preview rendering (`get_pixmap`, the PIL resize, the image height): image library calls. The vertical divisor is a parameter instead.
- The `Thread` that runs the batch: `RenamePdfs` is sequential, and a `Started` result carries the arguments the thread would receive.
- The OpenAI request and its configuration (API key, model name, system message): the completion service is an oracle from prompt to reply or error message.
- `fitz.open` and `get_text`: an oracle from entry name to `Document`. A `get_text` call that raises on one page is not modelled; a document fails only as a whole, when it is opened.
- `os.listdir`: the listing is a parameter, and a listing that itself raises is not modelled. `os.path.join` is not modelled either: a prefix or suffix holding a path separator would address another directory, but here the final name is a name in the same folder.
- Exact error texts: the model keeps only the message each exception carries. A missing source file is reported as `No such file or directory`, without the paths Python adds.
- Floating point: scale factors and products are exact reals, truncated toward zero. IEEE rounding is not modelled.
- `Strings.Lower`: lowers ASCII letters only, one character for one. Python's `lower()` also lowers non-ASCII letters, and turns `İ` (U+0130) into two characters, so the length it keeps is the model's, not Python's. The `.pdf` test, its only use, is unaffected: no character other than `.`, `P`/`p`, `D`/`d` and `F`/`f` lowers to a string ending in one of those four.
- The emoji and the wording of the log lines: each line is a `LogLine` constructor carrying the same data.
- Case-insensitive file systems: the folder compares names exactly.
