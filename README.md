# WhatsApp pest-identification webhook, modelled in Dafny

The bot answers WhatsApp messages about crop pests. A farmer sends a photo of a
pest, then replies with a language: English, Hindi or Telugu. The bot sends the
stored photo and that language's prompt template to a vision model and replies
with the identification. For Hindi and Telugu it also synthesises a voice note
and links to it. All the logic is in the webhook handler `whatsapp()`. That
handler keeps one piece of process-wide state, `user_last_image`, which maps a
sender to the path of the last image they sent.

The model has two modules.

- `PyStr` (`pystr.dfy`) models the three Python string methods the handler
  applies to the message body: `strip`, `lower` and `capitalize`. They are
  modelled on the ASCII range. The module proves what `strip` removes, and that
  `capitalize` does not depend on the case the text arrived in.
- `App` (`app.py` → `app.dfy`) holds the rest:
  - `build_prompt`, as `BuildPrompt`;
  - the download, the vision call and the speech synthesis, each as an outcome
    value that is an input (a success with its payload, or an exception's
    text);
  - a log of the external calls made (`Call`), so "no inference is performed"
    and "synthesised with the Hindi voice into hindi.mp3" can be stated;
  - the order in which messages are routed (`Classify`);
  - the pure transition `Step(map, message, outcomes) -> (map', reply, calls)`;
  - a class `Webhook` whose field `userLastImage` is the dictionary. Its method
    `Whatsapp` updates that field in place, with the source's early returns,
    and is proved equal to `Step`.

The class keeps an invariant: every stored path is `static/<sender>.jpg` for
its own sender. That invariant means a stored entry always passes the
handler's `if not image_path` test.

`generate_telugu_audio` is defined twice (app.py:81 and app.py:88), and only
the second definition takes effect. The model makes this a parameter, `Tts`:
`AsWritten` is what the code does and `Corrected` is what it evidently
intends. Most properties below hold for both bindings. These are specific to one:

- `App.GenerateTeluguAudio`, `App.TeluguNoteLinksUnwrittenFile` and
  `App.ScenarioImageThenTelugu` describe `AsWritten`.
- `App.IntendedAudio` and `App.CorrectedNoteLinksSpokenFile` describe
  `Corrected`.
- `App.BindingsAgreeOnHindi` relates the two bindings (see Findings).

## Model

| member | source | states |
|---|---|---|
| `PyStr.SpaceIsAscii` | app.py:99 | whitespace (`IsSpace`: what `str.isspace` accepts in the ASCII range, i.e. space, TAB to CR and FS to US) is ASCII only, and case mapping leaves it unchanged |
| `PyStr.FirstNonSpace` | app.py:99 | where the text starts: everything from the given index up to it is whitespace, and the character there (if any) is not |
| `PyStr.EndOfText` | app.py:99 | where the text ends once trailing whitespace is cut: everything from it to the end is whitespace, and the character before it (if inside the range) is not |
| `PyStr.Strip` | app.py:99 | `body.strip()` has no whitespace at either end and is no longer than the body |
| `PyStr.StripFramed` | app.py:99 | the stripped body is the one slice of the body between its leading and trailing whitespace, and everything removed on either side is whitespace |
| `PyStr.StripPadded` | app.py:99 | any whitespace padding around a trimmed text is exactly what `strip` removes, so " Hindi\n" strips to "Hindi" |
| `PyStr.StripTrimmed` | app.py:99 | `strip` leaves a text with no whitespace at its ends unchanged |
| `PyStr.StripIdempotent` | app.py:99 | stripping twice is stripping once |
| `PyStr.Lower` | app.py:116 | `body.lower()` has the same length, and each character is the lower-case form of the original one |
| `PyStr.LowerIdempotent` | app.py:116 | lower-casing a lower-cased text changes nothing |
| `PyStr.Capitalize` | app.py:117 | `body.capitalize()` upper-cases the first character and lower-cases all the others |
| `PyStr.CapitalizeIgnoresCase` | app.py:116-117 | `capitalize` gives the same result for a text as for its lower-cased form |
| `PyStr.CapitalizeCaseInsensitive` | app.py:116-117 | two texts that lower-case alike capitalize alike |
| `App.BuildPrompt` | app.py:26-43 | a template exists exactly for "English", "Hindi" and "Telugu" (otherwise `None`), each one non-empty and the source's own text |
| `App.PromptsDistinct` | app.py:26-43 | the three languages get three different templates |
| `App.ImagePath` | app.py:50 | the saved image's path is "static/" followed by the sender's number and ".jpg" |
| `App.ImagePathInjective` | app.py:50 | different senders' images go to different files, so one sender's upload never overwrites another's image |
| `App.DownloadImage` | app.py:46-57 | a 200 response (and only that) yields the path `static/<phone>.jpg`; any other status gives "Image error: Twilio image download failed"; an exception is re-wrapped as "Image error: <e>" |
| `App.AskGpt` | app.py:60-78 | a completion yields its text stripped of surrounding whitespace; an exception from reading the image or from the service gives that error |
| `App.GenerateTeluguAudio` | app.py:88-92 | the effective definition always speaks the text with the Hindi voice, never the Telugu one, and never writes telugu.mp3 |
| `App.IntendedAudio` | app.py:81-92 | the intended synthesis speaks Telugu as "te" into telugu.mp3 and Hindi as "hi" into hindi.mp3, so it writes the file the reply links |
| `App.Synthesis` | app.py:129-134 | both branches synthesise the analysis text itself |
| `App.LinkedAudio` | app.py:130-135 | the voice-note URL names static/telugu.mp3 exactly for Telugu, and static/hindi.mp3 otherwise |
| `App.HasMedia` | app.py:106 | `if media_url:` holds only for a URL that is present, and an empty URL is falsy |
| `App.BodyText` | app.py:99 | the body text the handler tests has no surrounding whitespace. It is no longer than the form field and is "" when `Body` is absent |
| `App.KeywordsNormalised` | app.py:116 | each keyword in `["english", "hindi", "telugu"]` (`IsKeyword`) is unpadded and lower-case, so the test accepts that keyword sent exactly as it is |
| `App.KeywordCapitalized` | app.py:116-117 | a body whose lower-cased form is a keyword capitalizes to exactly "English", "Hindi" or "Telugu", the name matching that keyword |
| `App.LanguageNameRecognised` | app.py:116-117 | each language name sent as it is, with no media, is recognised as itself |
| `App.LanguageNameIsKeyword` | app.py:116-117 | each language name lower-cases to a keyword, has no surrounding whitespace and capitalizes to itself |
| `App.Classify` | app.py:105-117 | a message with media takes the image branch whatever its body; without media, the language branch is taken exactly when the stripped, lower-cased body is a keyword; the language passed on is one of the three names |
| `App.ImageFailed` | app.py:112 | the upload failure reply starts with "❌" and ends with the error text verbatim, 27 characters of fixed prefix before it |
| `App.AnalyzeFailed` | app.py:140 | the analysis failure reply starts with "❌" and ends with the error text verbatim, 27 characters of fixed prefix before it |
| `App.Analysis` | app.py:126 | the analysis reply starts with "🌐", names the language right after the emoji and its space, and ends with the answer text unchanged |
| `App.VoiceNote` | app.py:131-136 | the voice-note line starts on a new line and ends with the public URL, `host_url` followed by the file path |
| `App.RepliesDistinguishable` | app.py:110-144 | the fixed replies (`ImageReceived` at app.py:110, `SendImageFirst` at app.py:121, `Fallback` at app.py:144) start with "✅", "⚠" and "👋" and are pairwise different; neither failure reply equals a fixed reply or an analysis reply, and the two failures differ whatever their errors |
| `App.ImageFor` | app.py:118-120 | the stored path is used exactly when the sender has an entry and it is non-empty |
| `App.ReceiveImage` | app.py:106-113 | exactly one download call is made; on 200 the sender's entry becomes their image file and the acknowledgement is sent; on failure the map is unchanged and the reply carries the re-wrapped error |
| `App.ChooseLanguage` | app.py:115-141 | the map is never changed. With no stored image: the "send an image first" reply and no call. With one: an inference on that image with the language's template. A second call (synthesis) happens exactly for Telugu and Hindi after a good answer. Then the analysis reply, with a voice-note link only for Telugu and Hindi, or the "Failed to analyze image" reply on either failure |
| `App.Step` | app.py:97-145 | a request either leaves the map alone or sets the sender's entry to their image file; it changes no other sender's entry; only a message with media can change the map |
| `App.MediaTakesPrecedence` | app.py:105-113 | with media, only the download is called, and the result does not depend on the body (even a keyword), the vision or speech outcomes, or the synthesiser binding |
| `App.DownloadOverwrites` | app.py:108-110 | a successful download overwrites the sender's entry, whatever it was, and every other sender's entry is unchanged |
| `App.DownloadFailureKeepsSessions` | app.py:111-112 | a failed download leaves the map unchanged and replies "❌ Failed to process image: Image error: …" |
| `App.TextNeverChangesSessions` | app.py:115-145 | the language and fallback branches never modify the map, so an analysis does not clear the entry |
| `App.OtherTextFallsBack` | app.py:143-145 | text that is neither media nor a keyword gets the fallback reply, makes no call and changes nothing |
| `App.NoImageNoInference` | app.py:118-122 | a language choice from a sender with no stored image gets "send an image of the pest first" and makes no call at all |
| `App.CaseInsensitiveChoice` | app.py:99-117 | bodies that strip and lower-case to the same text ("ENGLISH", "English", " english\n") produce the same transition |
| `App.AnalysisReply` | app.py:124-138 | the inference runs on the stored image with the chosen language's template. The reply is "🌐 <lang>:\n" followed by the answer. Telugu and Hindi add a voice-note link and two calls are made. English gets no link and only one call |
| `App.AnalysisFailure` | app.py:139-140 | an inference failure, or a synthesis failure for Telugu or Hindi, gives the "❌ Failed to analyze image: <e>" reply |
| `App.StepKeepsPaths` | app.py:108-109 | each request keeps the invariant that every stored path is its own sender's image file; under it every stored entry passes `if not image_path` |
| `App.ImageThenLanguage` | app.py:106-125 | after a successful image, the sender's language choice analyses that very image; since the entry is not cleared, a second choice analyses it again |
| `App.ScenarioImageThenTelugu` | app.py:106-131 | the two-message conversation in full. An image is stored as `static/<sender>.jpg`; then "telugu" in any case analyses it with the Telugu template; the Hindi voice speaks the answer into hindi.mp3; the reply links telugu.mp3 |
| `App.TeluguNoteLinksUnwrittenFile` | app.py:128-131 | as written, a successful Telugu analysis synthesises with locale "hi" into static/hindi.mp3 while its reply links static/telugu.mp3 |
| `App.CorrectedNoteLinksSpokenFile` | app.py:128-136 | with one synthesiser per language, the file the reply links is the file just synthesised, in the chosen language's voice |
| `App.BindingsAgreeOnHindi` | app.py:133-136 | the two bindings agree on every message except a Telugu choice: the Hindi branch was already right |
| `App.Webhook.constructor` | app.py:23 | the map starts empty, and the stored-path invariant holds |
| `App.Webhook.Whatsapp` | app.py:97-145 | the in-place update of `user_last_image`, and the reply and call log, are exactly `Step` on the map's old value; the stored-path invariant is kept |

## Left out

- Flask routing, form parsing and TwiML rendering (`MessagingResponse`, `str(resp)`) are left out. The reply is the text of the one message each path sends.
- Configuration and client set-up from the environment (app.py:12-20) are left out, and so is console logging (app.py:103). None of them affects the reply or the map.
- The HTTP download, the file write and the base64 encoding are not modelled. The outcome `Fetch` stands for them: a status code, or the text of any exception raised inside `download_image`'s `try` (transport or file write).
- The OpenAI request (model name, message layout) is not modelled. The call log records the image path and the prompt. The outcome `Vision` gives the completion or the exception, including a missing or unreadable image file.
- gTTS is not modelled. The call log records the text, the locale and the output file; the outcome `Speech` says whether saving succeeded.
- `request.host_url` is an input, not derived from the request.
- Concurrency is not modelled. Two requests at once can race on `user_last_image` and on the shared mp3 files; each request is modelled as one atomic step.
- `PyStr.Strip`, `PyStr.Lower`, `PyStr.Capitalize`: only ASCII whitespace and ASCII case mapping are modelled. Python's Unicode whitespace, Unicode case mapping and title-casing of the first character are not. So a keyword padded with non-ASCII whitespace (U+0085, U+00A0, U+2000 to U+200A, U+3000 and the like) gets the fallback reply in the model, while Python strips it and takes the language branch. No non-ASCII character lower-cases to text that occurs in a keyword, so the ASCII folding decides the keyword test exactly as Python does for unpadded bodies.
- `App.Step`: a missing `From` field is not modelled (Python would use the key `None` and the path `static/None.jpg`); the sender is always a string.

## Findings

| source | as written | input that shows it | evidently intended | confidence | as-written member | corrected member |
|---|---|---|---|---|---|---|
| app.py:81-92 | `generate_telugu_audio` is defined twice; the second definition replaces the first, so the Telugu branch (app.py:129) synthesises with `lang="hi"` into `static/hindi.mp3`. Its reply then links `static/telugu.mp3`, a file this request never wrote | a stored image, then the body "Telugu", with a successful inference and synthesis | the Telugu branch speaks with `lang="te"` into `static/telugu.mp3`, the file its reply links | high (the second `def` rebinds the name); not executed | `App.TeluguNoteLinksUnwrittenFile` | `App.CorrectedNoteLinksSpokenFile` |

The Telugu reply does link a telugu.mp3 URL (`App.ScenarioImageThenTelugu`).
That is not the file the request just synthesised, so the model follows the
code.
