/** The WhatsApp webhook of the pest-identification bot: a process-wide map from
    sender to the path of the last image they sent, and a handler that routes
    each inbound message (image, language choice, anything else) and answers with
    one text message. The three foreign services the handler calls (media
    download, vision inference, speech synthesis) are inputs: each call's outcome
    is given, and every call made is recorded in a call log. */
module App {
  import opened PyStr

  datatype Option<T> = None | Some(value: T) {
    function GetOr(default: T): T {
      if Some? then value else default
    }
  }

  /** A value, or the text of the exception raised instead (`str(e)`). */
  datatype Result<T> = Ok(value: T) | Err(error: string)

  // ---------------------------------------------------------------------------
  // Prompt templates (build_prompt)
  // ---------------------------------------------------------------------------

  /** The three language names the handler passes to `BuildPrompt`. */
  predicate IsLanguage(lang: string) {
    lang == "English" || lang == "Hindi" || lang == "Telugu"
  }

  const EnglishPrompt: string := "Identify the pest in this image. Respond in English in the following format:\n"
    + "Bug identified: \"...\"\n"
    + "Risk factor: \"...\" (e.g. Moderate / Critical / Low)\n"
    + "Natural remedy: \"...\" (organic solution only)"

  const HindiPrompt: string := "इस चित्र में कीट की पहचान करें। जवाब हिंदी में इस प्रारूप में दें:\n"
    + "कीट की पहचान: \"...\"\n"
    + "जोखिम स्तर: \"...\"\n"
    + "प्राकृतिक उपचार: \"...\" (केवल जैविक समाधान)"

  const TeluguPrompt: string := "ఈ చిత్రంలో పురుగును గుర్తించండి. సమాధానం తెలుగులో ఈ ఫార్మాట్‌లో ఇవ్వండి:\n"
    + "పురుగు గుర్తింపు: \"...\"\n"
    + "ఆపద స్థాయి: \"...\"\n"
    + "ప్రाकृतिक పరిష్కారం: \"...\" (సేంద్రీయ పరిష్కారం మాత్రమే)"

  /** `build_prompt(lang)`: a fixed template for each of the three language names,
      and nothing (Python's implicit `None`) for any other string. */
  function BuildPrompt(lang: string): (p: Option<string>)
    ensures p.Some? <==> IsLanguage(lang)
    ensures p.Some? ==> p.value != []
    ensures lang == "English" ==> p == Some(EnglishPrompt)
    ensures lang == "Hindi" ==> p == Some(HindiPrompt)
    ensures lang == "Telugu" ==> p == Some(TeluguPrompt)
  {
    if lang == "English" then Some(EnglishPrompt)
    else if lang == "Hindi" then Some(HindiPrompt)
    else if lang == "Telugu" then Some(TeluguPrompt)
    else None
  }

  /** Each language gets its own template. */
  lemma PromptsDistinct(a: string, b: string)
    requires IsLanguage(a) && IsLanguage(b) && a != b
    ensures BuildPrompt(a) != BuildPrompt(b)
  {
    assert |EnglishPrompt| == 196 && |HindiPrompt| == 147 && |TeluguPrompt| == 170;
  }

  // ---------------------------------------------------------------------------
  // Foreign calls, as outcomes
  // ---------------------------------------------------------------------------

  /** What `requests.get` on the media URL led to: an HTTP status, or an exception
      raised inside the download's `try` (by the transport or by the file write). */
  datatype Fetch = Responded(status: int) | FetchRaised(error: string)

  /** What the vision model returned: the completion's text, or an exception
      (unreadable image file, service error, missing content). */
  datatype Vision = Completion(content: string) | VisionRaised(error: string)

  /** What gTTS synthesis and `save` did. */
  datatype Speech = Saved | SpeechRaised(error: string)

  /** The outcomes of the foreign calls one request may make; each is consulted
      only if the handler makes that call. */
  datatype Outcomes = Outcomes(fetch: Fetch, vision: Vision, speech: Speech)

  /** The external calls a request made, in order. */
  datatype Call =
    | Downloaded(url: string)
    | Asked(imagePath: string, prompt: string)
    | Spoken(text: string, locale: string, file: string)

  /** The file a downloaded image is saved to. */
  function ImagePath(phone: string): (p: string)
    ensures |p| == |phone| + 11
    ensures p[..7] == "static/" && p[7..|p| - 4] == phone && p[|p| - 4..] == ".jpg"
  {
    "static/" + phone + ".jpg"
  }

  /** Different senders' images are saved to different files. */
  lemma ImagePathInjective(a: string, b: string)
    requires ImagePath(a) == ImagePath(b)
    ensures a == b
  {
    assert a == ImagePath(a)[7..|ImagePath(a)| - 4];
  }

  const ImageErrorPrefix: string := "Image error: "
  const DownloadFailedError: string := "Twilio image download failed"

  /** `download_image(media_url, phone)`: the saved file's path on status 200;
      otherwise an exception whose text is always re-wrapped as "Image error: ...". */
  function DownloadImage(phone: string, fetch: Fetch): (r: Result<string>)
    ensures r.Ok? <==> fetch == Responded(200)
    ensures r.Ok? ==> r.value == ImagePath(phone)
    ensures fetch.Responded? && fetch.status != 200 ==>
      r == Err(ImageErrorPrefix + DownloadFailedError)
    ensures fetch.FetchRaised? ==> r == Err(ImageErrorPrefix + fetch.error)
  {
    match fetch
    case Responded(status) =>
      if status == 200 then Ok(ImagePath(phone))
      else Err(ImageErrorPrefix + DownloadFailedError)
    case FetchRaised(e) => Err(ImageErrorPrefix + e)
  }

  /** `ask_gpt(image_path, lang)`: the completion's text with surrounding
      whitespace stripped, or the exception that arose. */
  function AskGpt(vision: Vision): (r: Result<string>)
    ensures r.Ok? <==> vision.Completion?
    ensures r.Ok? ==> Trimmed(r.value) && r.value == Strip(vision.content)
    ensures r.Err? ==> r.error == vision.error
  {
    match vision
    case Completion(content) => Ok(Strip(content))
    case VisionRaised(e) => Err(e)
  }

  /** Which binding of the name `generate_telugu_audio` the handler calls:
      `AsWritten`, the second definition (app.py:88), which replaces the first
      (app.py:81) when the module is loaded; or `Corrected`, the Telugu
      synthesiser for Telugu and the Hindi one for Hindi. */
  datatype Tts = AsWritten | Corrected

  /** The effective `generate_telugu_audio(text)`: it is the second definition that
      runs, so the text is always spoken with the Hindi voice into hindi.mp3, never
      with the Telugu voice and never into telugu.mp3. */
  function GenerateTeluguAudio(text: string): (c: Call)
    ensures c.Spoken? && c.text == text
    ensures c.locale == "hi" && c.file != "static/telugu.mp3"
  {
    Spoken(text, "hi", "static/hindi.mp3")
  }

  /** The synthesis each branch evidently intends: the first definition
      (Telugu voice, telugu.mp3) for Telugu and the second (Hindi voice,
      hindi.mp3) for Hindi, so the file written is the file the reply links. */
  function IntendedAudio(lang: string, text: string): (c: Call)
    requires lang == "Telugu" || lang == "Hindi"
    ensures c.Spoken? && c.text == text && c.file == LinkedAudio(lang)
    ensures c.locale == (if lang == "Telugu" then "te" else "hi")
  {
    if lang == "Telugu" then Spoken(text, "te", "static/telugu.mp3")
    else Spoken(text, "hi", "static/hindi.mp3")
  }

  function Synthesis(tts: Tts, lang: string, text: string): (c: Call)
    requires lang == "Telugu" || lang == "Hindi"
    ensures c.Spoken? && c.text == text
  {
    match tts
    case AsWritten => GenerateTeluguAudio(text)
    case Corrected => IntendedAudio(lang, text)
  }

  /** The static file the reply's voice-note URL names (app.py:130, app.py:135). */
  function LinkedAudio(lang: string): (f: string)
    ensures f == "static/telugu.mp3" <==> lang == "Telugu"
    ensures lang != "Telugu" ==> f == "static/hindi.mp3"
  {
    if lang == "Telugu" then "static/telugu.mp3" else "static/hindi.mp3"
  }

  // ---------------------------------------------------------------------------
  // Replies
  // ---------------------------------------------------------------------------

  // Each fixed reply is a status emoji followed by its text.
  const ImageReceived: string := "✅ " + "Image received! Now reply with a language: English, Hindi, or Telugu."
  const SendImageFirst: string := "⚠️ " + "Please send an image of the pest first."
  const Fallback: string := "👋 " + "Send a pest image first, then reply with 'English', 'Hindi', or 'Telugu'."

  /** The upload failure reply carries the error text verbatim after a fixed prefix. */
  function ImageFailed(e: string): (r: string)
    ensures |r| == |e| + 27 && r[0] == '❌'
    ensures r[|r| - |e|..] == e
  {
    "❌ Failed to process image: " + e
  }

  /** The vision failure reply carries the error text verbatim after a fixed prefix. */
  function AnalyzeFailed(e: string): (r: string)
    ensures |r| == |e| + 27 && r[0] == '❌'
    ensures r[|r| - |e|..] == e
  {
    "❌ Failed to analyze image: " + e
  }

  /** The analysis reply names the language right after the globe emoji and ends with the answer. */
  function Analysis(lang: string, text: string): (r: string)
    ensures |r| == |lang| + |text| + 4 && r[0] == '🌐'
    ensures r[2..2 + |lang|] == lang
    ensures r[|r| - |text|..] == text
  {
    "🌐 " + lang + ":\n" + text
  }

  /** The voice-note line starts on a new line and ends with the public URL of the file. */
  function VoiceNote(hostUrl: string, file: string): (r: string)
    ensures |r| == |hostUrl| + |file| + 15 && r[0] == '\n'
    ensures r[|r| - |file| - |hostUrl|..] == hostUrl + file
  {
    "\n🔊 Voice Note: " + hostUrl + file
  }

  /** The user can tell every kind of reply apart from its first character,
      and the two failure replies apart from the stage they name. */
  lemma RepliesDistinguishable(e: string, e': string, lang: string, text: string)
    ensures ImageReceived[0] == '✅' && SendImageFirst[0] == '⚠' && Fallback[0] == '👋'
    ensures ImageReceived != SendImageFirst && SendImageFirst != Fallback && Fallback != ImageReceived
    ensures ImageFailed(e) != AnalyzeFailed(e')
    ensures ImageFailed(e) !in {ImageReceived, SendImageFirst, Fallback, Analysis(lang, text)}
    ensures AnalyzeFailed(e) !in {ImageReceived, SendImageFirst, Fallback, Analysis(lang, text)}
  {
    assert ImageFailed(e)[12] == 'p';
    assert AnalyzeFailed(e')[12] == 'a';
  }

  // ---------------------------------------------------------------------------
  // Routing
  // ---------------------------------------------------------------------------

  /** One inbound webhook request: `From`, `Body` and `MediaUrl0` (each form field
      possibly absent), and the host URL the request came in on. */
  datatype Inbound = Inbound(sender: string, body: Option<string>, mediaUrl: Option<string>, hostUrl: string)

  /** `if media_url:` -- present and non-empty. */
  predicate HasMedia(mediaUrl: Option<string>)
    ensures HasMedia(mediaUrl) ==> mediaUrl.Some?
    ensures mediaUrl == Some("") ==> !HasMedia(mediaUrl)
  {
    mediaUrl.Some? && mediaUrl.value != ""
  }

  /** `request.form.get("Body", "").strip()`. */
  function BodyText(body: Option<string>): (text: string)
    ensures Trimmed(text)
    ensures body.None? ==> text == ""
    ensures |text| <= |body.GetOr("")|
  {
    Strip(body.GetOr(""))
  }

  /** `body.lower() in ["english", "hindi", "telugu"]`. */
  predicate IsKeyword(word: string) {
    word == "english" || word == "hindi" || word == "telugu"
  }

  /** Each keyword is what a body stripped and lower-cased can be: it has no
      surrounding whitespace and is already lower-case, so each keyword is matched
      by that keyword as it is. */
  lemma KeywordsNormalised(word: string)
    requires IsKeyword(word)
    ensures Trimmed(word) && Lower(word) == word
    ensures Lower(Strip(word)) == word
  {
    assert Trimmed(word) && Lower(word) == word by {
      if word == "english" {
        EnglishName();
        LowerIdempotent("English");
      } else if word == "hindi" {
        HindiName();
        LowerIdempotent("Hindi");
      } else {
        TeluguName();
        LowerIdempotent("Telugu");
      }
    }
    StripTrimmed(word);
  }

  /** A keyword, whatever its case, capitalizes to exactly the matching language name. */
  lemma KeywordCapitalized(text: string)
    requires IsKeyword(Lower(text))
    ensures Lower(text) == "english" ==> Capitalize(text) == "English"
    ensures Lower(text) == "hindi" ==> Capitalize(text) == "Hindi"
    ensures Lower(text) == "telugu" ==> Capitalize(text) == "Telugu"
    ensures IsLanguage(Capitalize(text))
    ensures Lower(Capitalize(text)) == Lower(text)
  {
    CapitalizeIgnoresCase(text);
    if Lower(text) == "english" {
      CapitalizedEnglish();
      EnglishName();
    } else if Lower(text) == "hindi" {
      CapitalizedHindi();
      HindiName();
    } else {
      CapitalizedTelugu();
      TeluguName();
    }
  }

  /** Each keyword capitalizes to its language name. */
  lemma CapitalizedEnglish()
    ensures Capitalize("english") == "English"
  {
    var r := Capitalize("english");
    assert r[0] == 'E' && r[1] == 'n' && r[2] == 'g' && r[3] == 'l' && r[4] == 'i' && r[5] == 's' && r[6] == 'h';
  }

  lemma CapitalizedHindi()
    ensures Capitalize("hindi") == "Hindi"
  {
    var r := Capitalize("hindi");
    assert r[0] == 'H' && r[1] == 'i' && r[2] == 'n' && r[3] == 'd' && r[4] == 'i';
  }

  lemma CapitalizedTelugu()
    ensures Capitalize("telugu") == "Telugu"
  {
    var r := Capitalize("telugu");
    assert r[0] == 'T' && r[1] == 'e' && r[2] == 'l' && r[3] == 'u' && r[4] == 'g' && r[5] == 'u';
  }

  /** The three branches of the handler. */
  datatype Route = ImageBranch(url: string) | LanguageBranch(lang: string) | FallbackBranch

  /** The order in which the handler tests a message (app.py:106, app.py:116):
      media first, then an exact keyword match of the stripped, lower-cased body. */
  function Classify(body: Option<string>, mediaUrl: Option<string>): (r: Route)
    ensures r.ImageBranch? <==> HasMedia(mediaUrl)
    ensures r.ImageBranch? ==> r.url == mediaUrl.value
    ensures r.LanguageBranch? <==> !HasMedia(mediaUrl) && IsKeyword(Lower(BodyText(body)))
    ensures r.LanguageBranch? ==> IsLanguage(r.lang) && Lower(r.lang) == Lower(BodyText(body))
  {
    var text := BodyText(body);
    if HasMedia(mediaUrl) then ImageBranch(mediaUrl.value)
    else if IsKeyword(Lower(text)) then
      KeywordCapitalized(text);
      LanguageBranch(Capitalize(text))
    else FallbackBranch
  }

  // ---------------------------------------------------------------------------
  // Transitions
  // ---------------------------------------------------------------------------

  /** The map after a request, the one reply message, and the calls made. */
  datatype Transition = Transition(sessions: map<string, string>, reply: string, calls: seq<Call>)

  /** `user_last_image.get(from)` followed by `if not image_path`. */
  function ImageFor(sessions: map<string, string>, sender: string): (r: Option<string>)
    ensures r.Some? <==> sender in sessions && sessions[sender] != ""
    ensures r.Some? ==> r.value == sessions[sender]
  {
    if sender in sessions && sessions[sender] != "" then Some(sessions[sender]) else None
  }

  /** Every stored path is the image file of its own sender. */
  ghost predicate PathsWellFormed(sessions: map<string, string>) {
    forall k :: k in sessions ==> sessions[k] == ImagePath(k)
  }

  /** Step 1 (app.py:106-113): download, and on success remember the image. */
  function ReceiveImage(sessions: map<string, string>, sender: string, url: string, fetch: Fetch): (t: Transition)
    ensures t.calls == [Downloaded(url)]
    ensures fetch == Responded(200) ==>
      t.sessions == sessions[sender := ImagePath(sender)] && t.reply == ImageReceived
    ensures fetch != Responded(200) ==> t.sessions == sessions
    ensures fetch.Responded? && fetch.status != 200 ==>
      t.reply == ImageFailed(ImageErrorPrefix + DownloadFailedError)
    ensures fetch.FetchRaised? ==> t.reply == ImageFailed(ImageErrorPrefix + fetch.error)
  {
    match DownloadImage(sender, fetch)
    case Ok(path) => Transition(sessions[sender := path], ImageReceived, [Downloaded(url)])
    case Err(e) => Transition(sessions, ImageFailed(e), [Downloaded(url)])
  }

  /** Step 2 (app.py:116-141): analyse the sender's last image in `lang`. The map
      is never changed here, and the entry is not cleared after an analysis. */
  function ChooseLanguage(sessions: map<string, string>, sender: string, lang: string,
                          hostUrl: string, out: Outcomes, tts: Tts): (t: Transition)
    requires IsLanguage(lang)
    ensures t.sessions == sessions
    ensures ImageFor(sessions, sender).None? ==> t.reply == SendImageFirst && t.calls == []
    ensures ImageFor(sessions, sender).Some? ==>
      1 <= |t.calls| <= 2 && t.calls[0] == Asked(sessions[sender], BuildPrompt(lang).value)
    ensures |t.calls| == 2 <==>
      ImageFor(sessions, sender).Some? && out.vision.Completion? && lang != "English"
    ensures |t.calls| == 2 ==>
      t.calls[1] == Synthesis(tts, lang, Strip(out.vision.content))
    ensures ImageFor(sessions, sender).Some? && out.vision.VisionRaised? ==>
      t.reply == AnalyzeFailed(out.vision.error)
    ensures ImageFor(sessions, sender).Some? && out.vision.Completion? && lang != "English" &&
            out.speech.SpeechRaised? ==>
      t.reply == AnalyzeFailed(out.speech.error)
    ensures ImageFor(sessions, sender).Some? && out.vision.Completion? && lang == "English" ==>
      t.reply == Analysis(lang, Strip(out.vision.content))
    ensures ImageFor(sessions, sender).Some? && out.vision.Completion? && lang != "English" &&
            out.speech == Saved ==>
      t.reply == Analysis(lang, Strip(out.vision.content)) + VoiceNote(hostUrl, LinkedAudio(lang))
  {
    match ImageFor(sessions, sender)
    case None => Transition(sessions, SendImageFirst, [])
    case Some(path) =>
      var asked := [Asked(path, BuildPrompt(lang).value)];
      match AskGpt(out.vision)
      case Err(e) => Transition(sessions, AnalyzeFailed(e), asked)
      case Ok(text) =>
        if lang == "Telugu" || lang == "Hindi" then
          var calls := asked + [Synthesis(tts, lang, text)];
          match out.speech
          case SpeechRaised(e) => Transition(sessions, AnalyzeFailed(e), calls)
          case Saved => Transition(sessions, Analysis(lang, text) + VoiceNote(hostUrl, LinkedAudio(lang)), calls)
        else Transition(sessions, Analysis(lang, text), asked)
  }

  /** One run of the handler `whatsapp()` (app.py:97-145) against the map. */
  function Step(sessions: map<string, string>, msg: Inbound, out: Outcomes, tts: Tts): (t: Transition)
    ensures t.sessions == sessions || t.sessions == sessions[msg.sender := ImagePath(msg.sender)]
    ensures t.sessions - {msg.sender} == sessions - {msg.sender}
    ensures t.sessions != sessions ==> HasMedia(msg.mediaUrl)
  {
    match Classify(msg.body, msg.mediaUrl)
    case ImageBranch(url) => ReceiveImage(sessions, msg.sender, url, out.fetch)
    case LanguageBranch(lang) => ChooseLanguage(sessions, msg.sender, lang, msg.hostUrl, out, tts)
    case FallbackBranch => Transition(sessions, Fallback, [])
  }

  // ---------------------------------------------------------------------------
  // Properties of the transition
  // ---------------------------------------------------------------------------

  /** A message with media always takes the image branch: the body (even a
      language keyword) and the inference and speech outcomes play no part. */
  lemma MediaTakesPrecedence(sessions: map<string, string>, msg: Inbound, out: Outcomes, tts: Tts,
                             otherBody: Option<string>, otherOut: Outcomes, otherTts: Tts)
    requires HasMedia(msg.mediaUrl)
    ensures Step(sessions, msg, out, tts).calls == [Downloaded(msg.mediaUrl.value)]
    ensures Step(sessions, msg, out, tts) ==
      Step(sessions, msg.(body := otherBody), otherOut.(fetch := out.fetch), otherTts)
  {
  }

  /** A successful download overwrites the sender's entry with their image file and
      leaves every other sender's entry as it was. */
  lemma DownloadOverwrites(sessions: map<string, string>, msg: Inbound, out: Outcomes, tts: Tts)
    requires HasMedia(msg.mediaUrl) && out.fetch == Responded(200)
    ensures var t := Step(sessions, msg, out, tts);
      t.sessions == sessions[msg.sender := ImagePath(msg.sender)] && t.reply == ImageReceived &&
      forall k :: k != msg.sender ==> (k in t.sessions <==> k in sessions) &&
                                      (k in sessions ==> t.sessions[k] == sessions[k])
  {
  }

  /** A failed download (a status other than 200, or an exception) changes nothing
      and reports the re-wrapped error. */
  lemma DownloadFailureKeepsSessions(sessions: map<string, string>, msg: Inbound, out: Outcomes, tts: Tts)
    requires HasMedia(msg.mediaUrl) && out.fetch != Responded(200)
    ensures var t := Step(sessions, msg, out, tts);
      t.sessions == sessions &&
      t.reply == ImageFailed(ImageErrorPrefix +
                             (if out.fetch.Responded? then DownloadFailedError else out.fetch.error))
  {
  }

  /** The language and fallback branches never change the map. */
  lemma TextNeverChangesSessions(sessions: map<string, string>, msg: Inbound, out: Outcomes, tts: Tts)
    requires !HasMedia(msg.mediaUrl)
    ensures Step(sessions, msg, out, tts).sessions == sessions
  {
  }

  /** Anything that is neither media nor a keyword gets the fallback reply,
      makes no call and changes nothing. */
  lemma OtherTextFallsBack(sessions: map<string, string>, msg: Inbound, out: Outcomes, tts: Tts)
    requires !HasMedia(msg.mediaUrl) && !IsKeyword(Lower(BodyText(msg.body)))
    ensures Step(sessions, msg, out, tts) == Transition(sessions, Fallback, [])
  {
  }

  /** A language choice before any image gets the "send an image first" reply and
      makes no call at all (in particular no inference). */
  lemma NoImageNoInference(sessions: map<string, string>, msg: Inbound, out: Outcomes, tts: Tts)
    requires !HasMedia(msg.mediaUrl) && IsKeyword(Lower(BodyText(msg.body)))
    requires msg.sender !in sessions
    ensures Step(sessions, msg, out, tts) == Transition(sessions, SendImageFirst, [])
  {
  }

  /** Bodies that strip and lower-case to the same text ("ENGLISH", " English",
      "english\n") are handled identically. */
  lemma {:induction false} CaseInsensitiveChoice(sessions: map<string, string>, msg: Inbound, out: Outcomes,
                                                 tts: Tts, b1: string, b2: string)
    requires Lower(Strip(b1)) == Lower(Strip(b2))
    ensures Step(sessions, msg.(body := Some(b1)), out, tts) == Step(sessions, msg.(body := Some(b2)), out, tts)
  {
    CapitalizeCaseInsensitive(Strip(b1), Strip(b2));
  }

  /** The keyword branch analyses the stored image with the chosen language's
      template; the reply is "🌐 <lang>:\n" and the stripped answer, followed by a
      voice-note link for Telugu and Hindi and by nothing for English. */
  lemma AnalysisReply(sessions: map<string, string>, msg: Inbound, out: Outcomes, tts: Tts)
    requires !HasMedia(msg.mediaUrl) && IsKeyword(Lower(BodyText(msg.body)))
    requires msg.sender in sessions && sessions[msg.sender] != ""
    requires out.vision.Completion? && out.speech == Saved
    ensures var t := Step(sessions, msg, out, tts);
      var lang := Capitalize(BodyText(msg.body));
      var text := Strip(out.vision.content);
      t.calls[0] == Asked(sessions[msg.sender], BuildPrompt(lang).value) &&
      (lang == "English" ==> t.reply == Analysis(lang, text) && |t.calls| == 1) &&
      (lang != "English" ==> t.reply == Analysis(lang, text) + VoiceNote(msg.hostUrl, LinkedAudio(lang)) &&
                             |t.calls| == 2)
  {
    KeywordCapitalized(BodyText(msg.body));
  }

  /** Any failure of inference or synthesis gives the "Failed to analyze image" reply. */
  lemma AnalysisFailure(sessions: map<string, string>, msg: Inbound, out: Outcomes, tts: Tts)
    requires !HasMedia(msg.mediaUrl) && IsKeyword(Lower(BodyText(msg.body)))
    requires msg.sender in sessions && sessions[msg.sender] != ""
    requires out.vision.VisionRaised? || out.speech.SpeechRaised?
    ensures var t := Step(sessions, msg, out, tts);
      var lang := Capitalize(BodyText(msg.body));
      (out.vision.VisionRaised? ==> t.reply == AnalyzeFailed(out.vision.error)) &&
      (out.vision.Completion? && lang != "English" ==> t.reply == AnalyzeFailed(out.speech.error))
  {
  }

  /** Every request keeps the map's invariant: each stored path is its sender's
      image file, so a stored entry is always usable by the language branch. */
  lemma StepKeepsPaths(sessions: map<string, string>, msg: Inbound, out: Outcomes, tts: Tts)
    requires PathsWellFormed(sessions)
    ensures PathsWellFormed(Step(sessions, msg, out, tts).sessions)
    ensures forall k :: k in sessions ==> ImageFor(sessions, k) == Some(ImagePath(k))
  {
  }

  /** The two-step conversation: after a successful image from `sender`, the
      sender's language choice analyses that very image, and since the entry is
      not cleared, a second choice analyses it again. */
  lemma ImageThenLanguage(sessions: map<string, string>, image: Inbound, choice: Inbound,
                          out1: Outcomes, out2: Outcomes, out3: Outcomes, tts: Tts)
    requires HasMedia(image.mediaUrl) && out1.fetch == Responded(200)
    requires choice.sender == image.sender
    requires !HasMedia(choice.mediaUrl) && IsKeyword(Lower(BodyText(choice.body)))
    ensures var s1 := Step(sessions, image, out1, tts).sessions;
      var t2 := Step(s1, choice, out2, tts);
      var t3 := Step(t2.sessions, choice, out3, tts);
      var prompt := BuildPrompt(Capitalize(BodyText(choice.body))).value;
      t2.calls[0] == Asked(ImagePath(image.sender), prompt) &&
      t3.calls[0] == Asked(ImagePath(image.sender), prompt)
  {
    KeywordCapitalized(BodyText(choice.body));
  }

  /** Each language name is trimmed, and its lower-cased form is its keyword. */
  lemma EnglishName()
    ensures Trimmed("English") && Lower("English") == "english"
  {
  }

  lemma HindiName()
    ensures Trimmed("Hindi") && Lower("Hindi") == "hindi"
  {
  }

  lemma TeluguName()
    ensures Trimmed("Telugu") && Lower("Telugu") == "telugu"
  {
  }

  /** Each language name is a keyword in its own right, and capitalizes to itself. */
  lemma LanguageNameIsKeyword(lang: string)
    requires IsLanguage(lang)
    ensures Trimmed(lang) && IsKeyword(Lower(lang)) && Capitalize(lang) == lang
  {
    if lang == "English" {
      EnglishName();
    } else if lang == "Hindi" {
      HindiName();
    } else {
      TeluguName();
    }
    KeywordCapitalized(lang);
  }

  /** A language name sent as it is, with no media, is recognised as itself. */
  lemma LanguageNameRecognised(lang: string)
    requires IsLanguage(lang)
    ensures BodyText(Some(lang)) == lang
    ensures IsKeyword(Lower(lang)) && Capitalize(lang) == lang
    ensures Classify(Some(lang), None) == LanguageBranch(lang)
  {
    LanguageNameIsKeyword(lang);
    StripTrimmed(lang);
  }

  /** The worked conversation, as the code runs it: a sender with nothing on
      record sends an image, then a body reading "telugu" in any case and with
      any surrounding whitespace. The image is stored, that image is analysed
      with the Telugu template, the answer is spoken by the Hindi voice into
      hindi.mp3, and the reply links telugu.mp3. */
  lemma ScenarioImageThenTelugu(sender: string, host: string, url: string, body: string, answer: string)
    requires url != "" && Lower(Strip(body)) == "telugu" && Trimmed(answer)
    ensures var ok := Outcomes(Responded(200), Completion(answer), Saved);
      var t1 := Step(map[], Inbound(sender, None, Some(url), host), ok, AsWritten);
      var stored := map[sender := ImagePath(sender)];
      var t2 := Step(stored, Inbound(sender, Some(body), None, host), ok, AsWritten);
      t1.reply == ImageReceived && t1.sessions == stored &&
      |t2.calls| == 2 && t2.calls[0] == Asked(ImagePath(sender), TeluguPrompt) &&
      t2.calls[1] == Spoken(answer, "hi", "static/hindi.mp3") &&
      t2.reply == Analysis("Telugu", answer) + VoiceNote(host, "static/telugu.mp3") &&
      t2.sessions == stored
  {
    var ok := Outcomes(Responded(200), Completion(answer), Saved);
    DownloadOverwrites(map[], Inbound(sender, None, Some(url), host), ok, AsWritten);
    TeluguAfterImage(sender, host, body, answer);
  }

  /** The second message of `ScenarioImageThenTelugu`: any body that strips and
      lower-cases to "telugu" is routed to the Telugu analysis. */
  lemma TeluguAfterImage(sender: string, host: string, body: string, answer: string)
    requires Lower(Strip(body)) == "telugu" && Trimmed(answer)
    ensures var ok := Outcomes(Responded(200), Completion(answer), Saved);
      var t2 := Step(map[sender := ImagePath(sender)], Inbound(sender, Some(body), None, host), ok, AsWritten);
      |t2.calls| == 2 && t2.calls[0] == Asked(ImagePath(sender), TeluguPrompt) &&
      t2.calls[1] == Spoken(answer, "hi", "static/hindi.mp3") &&
      t2.reply == Analysis("Telugu", answer) + VoiceNote(host, "static/telugu.mp3") &&
      t2.sessions == map[sender := ImagePath(sender)]
  {
    assert Classify(Some(body), None) == LanguageBranch("Telugu") by {
      KeywordCapitalized(Strip(body));
    }
    TeluguChosenAfterImage(sender, host, body, answer);
  }

  /** `TeluguAfterImage` once the body is known to choose Telugu. */
  lemma TeluguChosenAfterImage(sender: string, host: string, body: string, answer: string)
    requires Classify(Some(body), None) == LanguageBranch("Telugu") && Trimmed(answer)
    ensures var ok := Outcomes(Responded(200), Completion(answer), Saved);
      var t2 := Step(map[sender := ImagePath(sender)], Inbound(sender, Some(body), None, host), ok, AsWritten);
      |t2.calls| == 2 && t2.calls[0] == Asked(ImagePath(sender), TeluguPrompt) &&
      t2.calls[1] == Spoken(answer, "hi", "static/hindi.mp3") &&
      t2.reply == Analysis("Telugu", answer) + VoiceNote(host, "static/telugu.mp3") &&
      t2.sessions == map[sender := ImagePath(sender)]
  {
    var ok := Outcomes(Responded(200), Completion(answer), Saved);
    var choice := Inbound(sender, Some(body), None, host);
    var sessions := map[sender := ImagePath(sender)];
    assert Strip(answer) == answer by {
      StripTrimmed(answer);
    }
    AnalysisReply(sessions, choice, ok, AsWritten);
    TeluguNoteLinksUnwrittenFile(sessions, choice, ok);
  }

  // ---------------------------------------------------------------------------
  // The duplicated generate_telugu_audio
  // ---------------------------------------------------------------------------

  /** As written, a successful Telugu analysis synthesises with the Hindi voice into
      hindi.mp3, while the reply links telugu.mp3, a file this request never wrote. */
  lemma TeluguNoteLinksUnwrittenFile(sessions: map<string, string>, msg: Inbound, out: Outcomes)
    requires Classify(msg.body, msg.mediaUrl) == LanguageBranch("Telugu")
    requires ImageFor(sessions, msg.sender).Some? && out.vision.Completion? && out.speech == Saved
    ensures var t := Step(sessions, msg, out, AsWritten);
      |t.calls| == 2 && t.calls[1].Spoken? &&
      t.calls[1].locale == "hi" && t.calls[1].file == "static/hindi.mp3" &&
      t.reply == Analysis("Telugu", Strip(out.vision.content)) + VoiceNote(msg.hostUrl, "static/telugu.mp3")
  {
  }

  /** With one synthesiser per language, the voice note a reply links is the file
      the request just synthesised, in the chosen language's voice. */
  lemma CorrectedNoteLinksSpokenFile(sessions: map<string, string>, msg: Inbound, out: Outcomes, lang: string)
    requires Classify(msg.body, msg.mediaUrl) == LanguageBranch(lang) && lang != "English"
    requires ImageFor(sessions, msg.sender).Some? && out.vision.Completion? && out.speech == Saved
    ensures var t := Step(sessions, msg, out, Corrected);
      |t.calls| == 2 &&
      t.calls[1] == Spoken(Strip(out.vision.content), if lang == "Telugu" then "te" else "hi", LinkedAudio(lang)) &&
      t.reply == Analysis(lang, Strip(out.vision.content)) + VoiceNote(msg.hostUrl, t.calls[1].file)
  {
  }

  /** The two bindings differ only for Telugu: Hindi was already right. */
  lemma BindingsAgreeOnHindi(sessions: map<string, string>, msg: Inbound, out: Outcomes)
    requires Classify(msg.body, msg.mediaUrl) != LanguageBranch("Telugu")
    ensures Step(sessions, msg, out, AsWritten) == Step(sessions, msg, out, Corrected)
  {
  }

  // ---------------------------------------------------------------------------
  // The handler
  // ---------------------------------------------------------------------------

  /** The process-wide state of the webhook: `user_last_image` (app.py:23). */
  class Webhook {
    var userLastImage: map<string, string>
    /** Which `generate_telugu_audio` the handler calls. */
    const tts: Tts

    ghost predicate Valid()
      reads this
    {
      PathsWellFormed(userLastImage)
    }

    constructor (tts: Tts)
      ensures Valid() && userLastImage == map[] && this.tts == tts
    {
      userLastImage := map[];
      this.tts := tts;
    }

    /** `whatsapp()`: route one inbound message, update `user_last_image` in place
        and return the reply and the external calls made. */
    method Whatsapp(msg: Inbound, out: Outcomes) returns (reply: string, calls: seq<Call>)
      requires Valid()
      modifies this
      ensures Valid()
      ensures Transition(userLastImage, reply, calls) == Step(old(userLastImage), msg, out, tts)
    {
      ghost var expected := Step(userLastImage, msg, out, tts);
      var body := BodyText(msg.body);

      // Step 1: an image was sent
      if HasMedia(msg.mediaUrl) {
        calls := [Downloaded(msg.mediaUrl.value)];
        var downloaded := DownloadImage(msg.sender, out.fetch);
        match downloaded {
          case Ok(imagePath) =>
            userLastImage := userLastImage[msg.sender := imagePath];
            reply := ImageReceived;
          case Err(e) =>
            reply := ImageFailed(e);
        }
        return;
      }

      // Step 2: a language choice
      if IsKeyword(Lower(body)) {
        var lang := Capitalize(body);
        KeywordCapitalized(body);
        assert expected == ChooseLanguage(userLastImage, msg.sender, lang, msg.hostUrl, out, tts);
        var imagePath := ImageFor(userLastImage, msg.sender);
        if imagePath.None? {
          reply, calls := SendImageFirst, [];
          return;
        }
        calls := [Asked(imagePath.value, BuildPrompt(lang).value)];
        var answer := AskGpt(out.vision);
        if answer.Err? {
          reply := AnalyzeFailed(answer.error);
          return;
        }
        var responseText := answer.value;
        var finalMessage := Analysis(lang, responseText);
        if lang == "Telugu" {
          calls := calls + [Synthesis(tts, lang, responseText)];
          if out.speech.SpeechRaised? {
            reply := AnalyzeFailed(out.speech.error);
            return;
          }
          finalMessage := finalMessage + VoiceNote(msg.hostUrl, "static/telugu.mp3");
        } else if lang == "Hindi" {
          calls := calls + [Synthesis(tts, lang, responseText)];
          if out.speech.SpeechRaised? {
            reply := AnalyzeFailed(out.speech.error);
            return;
          }
          finalMessage := finalMessage + VoiceNote(msg.hostUrl, "static/hindi.mp3");
        }
        reply := finalMessage;
        return;
      }

      // Step 3: fallback
      reply, calls := Fallback, [];
    }
  }
}
