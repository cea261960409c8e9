# PDFox content formatter: a Dafny model

PDFox is a web application that turns pasted text into a formatted document
and lets the user download it as PDF or plain text. This project models three
parts of it and proves properties of the model:

- **The editor page** (`src/pages/Editor.tsx`). It holds three fields:
  `title`, `content` and `formattedContent`.
  - The *Auto-Format* button does nothing when the content is blank.
  - Otherwise it cuts the content at every `"\n\n"`. A chunk shorter than
    100 code units and without a `.` becomes `<h2>chunk</h2>`. Every other
    chunk becomes `<p>chunk</p>`. The pieces are joined with `"\n"`.
  - The two download buttons build the PDF markup and options, and the
    plain-text payload and file name, from the same fields.
  - `editor.dfy` has the class `Editor` (fields, setters, `FormatContent`,
    `DownloadPdf`, `DownloadTxt`) and the pure functions behind it.
- **The `format-with-ai` edge function**
  (`supabase/functions/format-with-ai/index.ts`). It is modelled as one total
  function, `FormatWithAi.Handle`, of three inputs:
  - the request (HTTP method, and a parsed body or the parser's error);
  - the configured API key;
  - the reply of the generation API.

  Its result is the call the function makes (if any) and the response it
  returns.
- **The page metadata component** (`src/components/SEO.tsx`). It covers the
  full-title rule and the head tags with their defaults (`seo.dfy`).

JavaScript's own string operations are stated in `js_text.dfy`: `trim`,
`indexOf`, `includes`, `split`, `join`, and how an integer prints in a
template literal. A `string` is a `seq<char>`, and each `char` stands for one
UTF-16 code unit, so `|s|` is JavaScript's `s.length`.

The code has no sentence normalisation, list detection, line classifier, AI
fallback or file-name resolver. The editor never calls the edge function, and
the export file name is `title || "document"`, untrimmed.

## Model

| member | source | states |
|---|---|---|
| `JsText.Trim` | src/pages/Editor.tsx:21 | `content.trim()` removes leading and trailing whitespace; what is left neither starts nor ends with whitespace |
| `JsText.TrimEmptyIffBlank` | src/pages/Editor.tsx:21 | `content.trim()` is empty exactly when every code unit of the content is whitespace |
| `JsText.TrimIsInfix` | src/pages/Editor.tsx:21 | `trim` keeps one contiguous part of the string and removes only whitespace on each side |
| `JsText.IndexOf` | src/components/SEO.tsx:24 | `indexOf` returns the first index at or after `from` where the substring occurs, or -1 exactly when it occurs nowhere from there on |
| `JsText.Includes` | src/components/SEO.tsx:24 | `includes` is true exactly when the substring occurs somewhere |
| `JsText.Split` | src/pages/Editor.tsx:25 | `split("\n\n")` always yields at least one chunk, and joining the chunks with the separator gives back the input |
| `JsText.SplitIsLeftmost` | src/pages/Editor.tsx:25 | separators are matched greedily from the left without overlap: no chunk holds a separator, including one that straddles the following separator |
| `JsText.SplitUnique` | src/pages/Editor.tsx:25 | any chunking that joins back to the input and is leftmost in that sense is exactly `Split`'s, so `Split` is JavaScript's `split` |
| `JsText.SplitAfterFirst` | src/pages/Editor.tsx:25 | if no separator starts inside `a`, splitting `a + sep + b` gives `a` and then the chunks of `b` |
| `JsText.DecimalString` | supabase/functions/format-with-ai/index.ts:98 | a status prints as one or more decimal digits, with no leading zero |
| `JsText.ParseDecimalString` | supabase/functions/format-with-ai/index.ts:98 | reading the printed digits back gives the status |
| `JsText.DecimalStringInjective` | supabase/functions/format-with-ai/index.ts:98 | different statuses print differently |
| `JsText.TrimStart` | src/pages/Editor.tsx:21 | only leading whitespace is removed, and what is left is empty or starts with non-whitespace |
| `JsText.TrimEnd` | src/pages/Editor.tsx:21 | only trailing whitespace is removed, and what is left is empty or ends with non-whitespace |
| `JsText.Join` | src/pages/Editor.tsx:32 | no contract; characterised by `Split`, `SplitUnique` and `FormatRecoversContent` |
| `EditorPage.Render` | src/pages/Editor.tsx:27-30 | the markup is the text plus the opening and closing tags, five code units more than twice the tag; read back by `ParseFormatChunk` |
| `EditorPage.FormatChunk` | src/pages/Editor.tsx:26-31 | a chunk gains nine code units of tags as a heading and seven as a paragraph; read back by `ParseFormatChunk` |
| `EditorPage.Chunks` | src/pages/Editor.tsx:25 | there is at least one chunk, and the chunks joined with `"\n\n"` are the content |
| `EditorPage.Pieces` | src/pages/Editor.tsx:24-31 | one formatted piece per chunk, each holding at least its tags |
| `EditorPage.Classify` | src/pages/Editor.tsx:26-31 | a chunk becomes an `h2` exactly when it is shorter than 100 code units and has no `.`, and a `p` otherwise; its text is the chunk, untrimmed |
| `EditorPage.ParseFormatChunk` | src/pages/Editor.tsx:27-30 | a formatted chunk reads back as its tag and its exact text, so nothing is escaped or trimmed |
| `EditorPage.FormatIsChunkwise` | src/pages/Editor.tsx:24-32 | there are as many formatted pieces as chunks (at least one), in order, and piece `i` wraps chunk `i` in the tag the heading rule picks |
| `EditorPage.FormatRecoversContent` | src/pages/Editor.tsx:24-32 | the texts of the pieces, joined again with `"\n\n"`, are the raw content: no text is lost, reordered or changed |
| `EditorPage.Format` | src/pages/Editor.tsx:24-32 | the formatter's output starts with the first formatted piece, so it is never empty; its pieces are characterised by `FormatIsChunkwise` and `FormatRecoversContent` |
| `EditorPage.ChunksOverlapExample` | src/pages/Editor.tsx:25 | `"a\n\n\nb"` splits into `"a"` and `"\nb"` |
| `EditorPage.ChunksEmptyExample` | src/pages/Editor.tsx:25 | `"a\n\n\n\nb"` splits into `"a"`, `""` and `"b"` |
| `EditorPage.PiecesEmptyExample` | src/pages/Editor.tsx:26-31 | those three chunks all become headings, including the empty one |
| `EditorPage.FormatEmptyChunkExample` | src/pages/Editor.tsx:24-32 | `"a\n\n\n\nb"` formats to `<h2>a</h2>\n<h2></h2>\n<h2>b</h2>` |
| `EditorPage.Editor.constructor` | src/pages/Editor.tsx:14-16 | the page starts with all three fields empty |
| `EditorPage.Editor.SetTitle` | src/pages/Editor.tsx:115 | typing a title changes only the title and keeps the state invariant |
| `EditorPage.Editor.SetContent` | src/pages/Editor.tsx:125 | typing content changes only the content and keeps the state invariant; earlier formatted markup stays |
| `EditorPage.Editor.FormatContent` | src/pages/Editor.tsx:20-34 | blank content leaves the formatted markup unchanged; otherwise the markup becomes the formatting of the content; title and content never change; the markup is always empty or the formatting of some non-blank content |
| `EditorPage.Editor.DownloadPdf` | src/pages/Editor.tsx:41-58 | the markup and options handed to the PDF converter are those of `PdfJobFor` on the current fields; while the button is enabled the markup's body is non-empty |
| `EditorPage.Editor.DownloadTxt` | src/pages/Editor.tsx:66-70 | the text file handed to the browser is that of `TextFileFor` on the current fields |
| `EditorPage.OrElse` | src/pages/Editor.tsx:45-46 | `text \|\| fallback` on strings: the text unless it is empty, else the fallback; empty only when both are |
| `EditorPage.PdfJobFor` | src/pages/Editor.tsx:43-56 | no contract; characterised by `PdfJobContents`, `PdfBodyAfterFormat` and `EnabledPdfHasBody` |
| `EditorPage.TextFileFor` | src/pages/Editor.tsx:68-70 | no contract; characterised by `TextFileContents` and `TextFileSplitsBack` |
| `EditorPage.Editor.DownloadsEnabled` | src/pages/Editor.tsx:160-176 | the download buttons are enabled exactly when the content is not blank |
| `EditorPage.PdfJobContents` | src/pages/Editor.tsx:43-52 | the PDF heading is the title, or `"Document"` only for the empty title (a whitespace-only title is kept); the body is the formatted markup if non-empty, else the raw content; the file name is the title or `"document"`, plus `.pdf` |
| `EditorPage.TextFileContents` | src/pages/Editor.tsx:68-70 | the TXT payload is exactly title, `"\n\n"`, content, even for an empty title; the file name is the title or `"document"`, plus `.txt` |
| `EditorPage.TextFileSplitsBack` | src/pages/Editor.tsx:68 | for a one-line title, splitting the TXT payload at blank lines gives the title first and the content as the rest |
| `EditorPage.PdfBodyAfterFormat` | src/pages/Editor.tsx:46 | after formatting, the PDF body is exactly the formatter's output |
| `EditorPage.EnabledPdfHasBody` | src/pages/Editor.tsx:160-176 | while the download buttons are enabled (content not blank), the PDF body is non-empty |
| `FormatWithAi.Handle` | supabase/functions/format-with-ai/index.ts:14-125 | OPTIONS gives 200, only the CORS headers and no body, and makes no call. Any other request gives 200 with the formatted content or 500 with an error, with JSON and CORS headers. A 200 body is non-empty text. A call is made exactly for a readable body and a non-empty key; it carries the key in the URL and the prompt for the content and tone (professional by default) |
| `FormatWithAi.Instruction` | supabase/functions/format-with-ai/index.ts:28-32 | no contract; characterised by `InstructionsDistinct` |
| `FormatWithAi.Prompt` | supabase/functions/format-with-ai/index.ts:34-75 | no contract; characterised by `PromptRoundTrip` and `PromptInjective` |
| `FormatWithAi.Receive` | supabase/functions/format-with-ai/index.ts:77-106 | the reply yields text exactly when it arrived with an ok status and non-empty text, and then it is that text |
| `FormatWithAi.Attempt` | supabase/functions/format-with-ai/index.ts:20-114 | a call is made exactly for a readable body and a non-empty key; without a call the attempt fails; with one its result is what the reply yields |
| `FormatWithAi.PromptRoundTrip` | supabase/functions/format-with-ai/index.ts:34-75 | the tone and the verbatim content can both be read back from the prompt |
| `FormatWithAi.PromptInjective` | supabase/functions/format-with-ai/index.ts:34-75 | different contents or tones give different prompts |
| `FormatWithAi.InstructionsDistinct` | supabase/functions/format-with-ai/index.ts:28-32 | the three tones have three different instructions |
| `FormatWithAi.ToneDefaultsToProfessional` | supabase/functions/format-with-ai/index.ts:21 | a request without a tone gets the professional prompt |
| `FormatWithAi.MalformedBodyFails` | supabase/functions/format-with-ai/index.ts:20-21 | an unreadable body gives 500 with the parser's message, whatever the key, and makes no call |
| `FormatWithAi.MissingKeyFails` | supabase/functions/format-with-ai/index.ts:23-26 | an absent or empty key gives 500 `"GEMINI_API_KEY not configured"` and makes no call |
| `FormatWithAi.UpstreamStatusFails` | supabase/functions/format-with-ai/index.ts:97-99 | a reply that is not ok gives 500 `"Gemini API error: "` plus the status, and the status can be read back from the message |
| `FormatWithAi.NoTextFails` | supabase/functions/format-with-ai/index.ts:101-106 | an ok reply with no text, or empty text, gives 500 `"No content generated from Gemini API"` |
| `FormatWithAi.TextSucceeds` | supabase/functions/format-with-ai/index.ts:108-114 | an ok reply with text gives 200 with exactly that text as `formattedContent` |
| `FormatWithAi.ReplyUnusedWithoutCall` | supabase/functions/format-with-ai/index.ts:23-26 | when no call is made, the generation API's reply does not affect the outcome |
| `FormatWithAi.ErrorMessages` | supabase/functions/format-with-ai/index.ts:115-123 | every error message comes from a known source: the body parser, the missing key, the transport failure, the status, the reply parser, or the missing text |
| `Seo.FullTitle` | src/components/SEO.tsx:24 | a title that contains `PDFox` is kept as is; any other title gets `" \| PDFox - Smart Content Formatter"` appended |
| `Seo.FullTitleNamesBrand` | src/components/SEO.tsx:24 | the full title starts with the title and always contains `PDFox` |
| `Seo.FullTitleIdempotent` | src/components/SEO.tsx:24 | applying the rule to its own result changes nothing |
| `Seo.HeadTags` | src/components/SEO.tsx:26-72 | no contract; characterised by `TitlesShareFullTitle`, `DefaultsApplied` and `StructuredDataScript` |
| `Seo.TitlesShareFullTitle` | src/components/SEO.tsx:29-52 | the `<title>`, `og:title` and `twitter:title` all carry the same full title, and there is exactly one title tag |
| `Seo.DefaultsApplied` | src/components/SEO.tsx:14-43 | absent keywords, canonical URL, image, OG type and card type take the listed defaults; the canonical link and `og:url` use the same address |
| `Seo.StructuredDataScript` | src/components/SEO.tsx:66-70 | the structured-data script is emitted, as the last tag, exactly when structured data is given |

## Left out

- Each `char` stands for one UTF-16 code unit. Dafny's `char` cannot hold a surrogate, so text outside the Basic Multilingual Plane (two code units in JavaScript) is not modelled.
- Toasts, the html2pdf rendering, the DOM element, the Blob, `URL.createObjectURL` and the link click are browser or library calls. Only the strings and options handed to them are modelled.
- The preview pane and the rest of the JSX layout are presentation. The disabled state of the download buttons is kept as the predicate `Editor.DownloadsEnabled`, which `Editor.DownloadPdf` uses to promise a non-empty body; a disabled button's click is not modelled. `useAuth` is called but its result is unused.
- `serve`, `Deno.env`, `fetch`, `req.json()`, `response.json()` and `console.error` are runtime and network plumbing. Their results are abstract inputs:
  - the key is an optional string;
  - the body is readable or a parser message;
  - the reply is a transport failure, or a status with data;
  - the data is unreadable, or the extracted `candidates[0].content.parts[0].text`.
- The fetch `ok` flag is taken to mean a status in 200..299, as the Fetch standard defines it.
- `FormatWithAi.Handle`: the `generationConfig` numbers and the JSON body layout of the upstream request are not modelled. The call records only the URL and the prompt text.
- `FormatWithAi.Handle`: `JSON.stringify` is not modelled. A response body is kept as the object it serialises, so string escaping is out of scope.
- `FormatWithAi.Handle`: the tone is limited to the declared union `casual | professional | story`. The handler does not check it. Another value would render as the lookup's result (such as `undefined`) inside the prompt. Body fields of other JSON types are also not modelled.
- `Seo.HeadTags`: react-helmet's head management is not modelled. Structured data is given as the JSON text it serialises to.
- src/components/ContactSection.tsx and src/hooks/useAnalytics.tsx are not part of this model; they are I/O with no logic to check.
- The landing, features, pricing, contact and not-found pages, the navigation bar, the footer and the static data files are not part of this model; they have no logic to check.
