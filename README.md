# Quality-control image analysis: verified model of the request core

The tool lets a quality-control operator upload up to five "good" and five
"bad" reference images, each with a comment, and then send a target image
with an instruction to a hosted vision model. The annotated references go
along as few-shot context. This project models in Dafny the three pieces of
`app.py` that hold list logic, and proves properties about them:

- **Request assembly** (`analyze_image`), in modules `Messages` and `Analysis`.
  A request is one fixed system message, then the few-shot messages unchanged,
  then one user turn. That turn holds an image part with a
  `data:image/jpeg;base64,` URL followed by a text part carrying the prompt.
  The remote call is a function parameter `ChatRequest -> Response`. The
  outcome becomes text: either the first choice verbatim, or
  `"An error occurred during image analysis: "` followed by the failure's
  description.
- **Few-shot accumulation** (the good and bad loops of `main`), in module
  `FewShot`. `CollectExamples` is a method with two loops over upload slots.
  A slot with a non-empty comment appends an image-only user message and an
  assistant message carrying the comment, and records its sample. Any other
  slot changes nothing. The method is proved against the specification
  functions `ExampleTurns` and `Kept`, and the lemmas say what those
  functions yield.
- **Folder filter** (the list comprehension over the directory listing), in
  module `Browse`. It keeps, in listing order, the names whose lower-cased
  form ends with `.png`, `.jpg` or `.jpeg`.

Module `Wrappers` holds only an `Option` datatype.

Three behaviours of the code are easy to miss, and the model keeps them:

- The code never rejects an empty target image: an empty encoding gives a
  URL that is just the `data:image/jpeg;base64,` header.
- The model identifier is fixed to `"gpt-4o"`. The model chosen in the
  selection box is never used.
- Good examples always come before bad ones because the good loop finishes
  first. The order the operator filled them in does not matter.

An empty choice list raises Python's `IndexError`, and that error is caught
like any other failure. The model therefore returns the error prefix
followed by `list index out of range`.

## Model

| member | source | states |
|---|---|---|
| Messages.ImageUrl | app.py:40 | the URL is the fixed `data:image/jpeg;base64,` header followed by as many characters as the payload has |
| Messages.ImagePayload | app.py:40 | partial inverse of the data-URL construction: it gives a payload exactly when the URL starts with the header, and the URL is then the header followed by that payload |
| Messages.ImageUrlRoundTrip | app.py:40 | the payload read back from an image URL is the very base64 string that was embedded |
| Messages.ImagePayloadRoundTrip | app.py:40 | every URL that has a payload is the image URL of that payload, so the two are mutually inverse |
| Messages.ImageMessage | app.py:97-107 | a few-shot input is a user message with exactly one part, an image whose URL carries the example's base64 |
| Analysis.AssembleMessages | app.py:22-48 | the list has length len(few_shot) + 2; index 0 is the system directive; indices 1..n are the few-shot messages unchanged and in order; the last is the user turn with image then prompt |
| Analysis.SplitMessages | app.py:25-48 | reads an assembled list back into image, few-shot list and prompt; any list it accepts has length few-shot + 2 |
| Analysis.SplitAssembled | app.py:25-48 | assembly loses nothing: splitting an assembled list gives back exactly its image, few-shot list and prompt |
| Analysis.AssembleSplit | app.py:25-48 | every list that splits is the assembly of its parts, so assembly is a bijection onto the lists of that shape |
| Analysis.BuildRequest | app.py:51-55 | the request uses model "gpt-4o" and a cap of 1000 output tokens; its messages split back into the call's inputs |
| Analysis.ResultText | app.py:58-62 | a response with choices yields its first choice verbatim; an empty choice list yields the prefix + "list index out of range"; a failure yields the prefix with its description after it |
| Analysis.AnalyzeImage | app.py:22-62 | handing the assembled request to the remote call returns its first choice unchanged on success; otherwise it returns, without failing, a text that starts with the error prefix: exactly the prefix + the failure's description for a failed call, and the prefix + "list index out of range" for an empty choice list |
| FewShot.ExampleTurns | app.py:95-111 | the few-shot messages of a list of slots number exactly two per recorded sample |
| FewShot.Kept | app.py:113 | no more samples are recorded than there are slots, and every recorded sample has a non-empty comment |
| FewShot.SlotTurns | app.py:95-111 | a slot adds two messages when it has an upload with a non-empty comment, otherwise none |
| FewShot.ProcessSlot | app.py:87-113 | one iteration: a non-empty comment appends the image turn and then the answer turn, and records the sample; otherwise both lists are unchanged |
| FewShot.CollectLabel | app.py:84-113 | after one label's loop the few-shot list is the old list followed by that label's turns, and the label's sample list holds exactly its recorded samples |
| FewShot.CollectExamples | app.py:84-148 | after both loops the few-shot list is the good slots' turns followed by the bad slots' turns, and good_images and bad_images are the recorded samples of each label |
| FewShot.ExampleTurnsShape | app.py:95-113 | one label's history has two messages per recorded sample; the k-th sample's image turn is at 2k and its comment turn at 2k+1 |
| FewShot.KeptFromSlots | app.py:85-113 | every recorded sample was uploaded in one of the slots and has a non-empty comment, and no more samples are recorded than there are slots |
| FewShot.KeptAppend | app.py:85-113 | recording over a concatenated slot list is the recording of the first part followed by that of the second, so slot order is kept |
| FewShot.ExampleTurnsAppend | app.py:85-111 | the few-shot messages of a concatenated slot list are those of the first part followed by those of the second |
| FewShot.KeptComplete | app.py:95-113 | every slot with an upload and a non-empty comment is recorded, at the position right after the samples recorded from the slots before it |
| FewShot.ExampleTurnsRoles | app.py:97-111 | few-shot messages are user or assistant messages, never system messages |
| FewShot.GoodBeforeBad | app.py:85-148 | the history has 2 messages per good sample and 2 per bad sample; every good sample's pair comes before every bad sample's pair, and each group keeps index order |
| FewShot.RequestSizeBound | app.py:82-117 | with at most five slots per label the history has at most 20 messages and the assembled request at most 22 |
| FewShot.OnlyFirstIsSystem | app.py:25-34 | a request built from collected examples has exactly one system message, at index 0 |
| Browse.ToLower | app.py:182 | the result is never an upper-case letter, and a character is left unchanged exactly when it is not an upper-case letter |
| Browse.Lower | app.py:182 | lower-casing keeps the length, works character by character, and leaves no upper-case letter in the result |
| Browse.LowerAppend | app.py:182 | lower-casing a concatenation is concatenating the lower-cased parts |
| Browse.EndsWithExtend | app.py:182 | a string followed by a suffix ends with that suffix, and a string that ends with a suffix keeps ending with it whatever is put in front |
| Browse.HasImageExtension | app.py:182 | a name passes exactly when its lower-cased form ends with one of ".png", ".jpg", ".jpeg"; a passing name has at least four characters |
| Browse.LowerIdempotent | app.py:182 | lower-casing twice is lower-casing once |
| Browse.HasImageExtensionCaseInsensitive | app.py:182 | a name passes the extension test exactly when its lower-cased form does |
| Browse.ImageFiles | app.py:182 | a name is in the result exactly when it is in the listing and passes the extension test; the result is no longer than the listing |
| Browse.ImageFilesIsSubsequence | app.py:182 | the result is a subsequence of the listing: names are only dropped, never reordered |
| Browse.ImageFilesAppend | app.py:182 | filtering a concatenated listing is the concatenation of the filtered parts, so the order of the listing is kept |
| Browse.ImageFilesIdempotent | app.py:182 | filtering an already filtered listing changes nothing |
| Browse.ExtensionExamples | app.py:182 | "Box_01.JPG" and "scan.jpeg" pass; "notes.txt" and a bare "png" do not |

## Left out

- Streamlit widgets, columns, spinners, image display and buttons (app.py:67-78, 86-93, 150-165, 185-208). These are user interface. An upload slot is modelled as either `NoUpload` or an uploaded sample with the comment typed beside it.
- The OpenAI client and the HTTP call (app.py:20, 51-55). This is a foreign network call. It is the `remote` parameter of `AnalyzeImage`; logging of the error (app.py:61) is left out.
- Analysis.ResultText: choices are modelled as strings. The client library's `message.content` can also be `None`, and the source would return that `None` unchanged; the model does not capture that case.
- Analysis.ResultText: the text of a failure is taken as given (`str(e)` of the exception). The exception classes themselves are not modelled, only their text.
- Base64 encoding and decoding and PIL image decoding (app.py:88, 92, 123, 127, 154, 157, 192, 195). These are library calls, so encoded images are opaque strings.
- FewShot.CollectExamples: in the source, an upload that PIL cannot decode raises at app.py:92 or 127, before its comment is tested. That exception ends `main` (it is caught at app.py:214), so neither that slot, any later slot, nor the analysis runs. The model has no such failure path: every uploaded slot with a comment contributes.
- Filesystem access: `os.path.exists`, `os.listdir`, file reads and the timestamped result file (app.py:169-175, 179-191, 204-208). This is I/O; only the filename filter is modelled.
- Browse.Lower: only ASCII letters are lower-cased, whereas Python's `str.lower` maps all of Unicode. The extension test still agrees with Python's, because no non-ASCII character lower-cases to one of the characters `.`, `p`, `n`, `g`, `j`, `e`.
- Environment configuration, dotenv and the outer error handler of the script (app.py:13-17, 210-216).
- The model selection box (app.py:74-75). Its value is never used, and the request always names "gpt-4o".
- FewShot.CollectExamples: the slot counts are not limited by the method. The number inputs cap them at five (app.py:82, 117), and `RequestSizeBound` takes that cap as its precondition.
