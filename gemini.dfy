/** The Gemini service (services/geminiService.ts): the request each call
    builds and how each call's answer becomes a string or an error. The
    SDK and `fetch` are not modelled: their answers are inputs. */
module Gemini {

  import opened Types
  import opened Text

  /** Content parts as the SDK takes and returns them. */
  datatype InlineData = InlineData(mimeType: string, data: string)

  datatype Part = Part(text: Option<string>, inlineData: Option<InlineData>)

  function TextPart(t: string): Part {
    Part(Some(t), None)
  }

  datatype Content = Content(role: string, parts: seq<Part>)

  /** The slice of a generateContent response the service reads:
      `candidates?.[0]?.content?.parts` and `text`. */
  datatype CandidateContent = CandidateContent(parts: Option<seq<Part>>)

  datatype Candidate = Candidate(content: Option<CandidateContent>)

  datatype Response = Response(candidates: Option<seq<Candidate>>, text: Option<string>)

  /** `response.candidates?.[0]?.content?.parts || []`. */
  function FirstCandidateParts(resp: Response): (r: seq<Part>)
    ensures r != [] ==>
      resp.candidates.Some? && |resp.candidates.value| > 0
      && resp.candidates.value[0].content.Some?
      && resp.candidates.value[0].content.value.parts == Some(r)
    ensures (resp.candidates.Some? && |resp.candidates.value| > 0
             && resp.candidates.value[0].content.Some?
             && resp.candidates.value[0].content.value.parts.Some?) ==>
      r == resp.candidates.value[0].content.value.parts.value
    ensures (resp.candidates.None? || |resp.candidates.value| == 0
             || resp.candidates.value[0].content.None?
             || resp.candidates.value[0].content.value.parts.None?) ==> r == []
  {
    if resp.candidates.Some? && |resp.candidates.value| > 0
      && resp.candidates.value[0].content.Some?
      && resp.candidates.value[0].content.value.parts.Some?
    then resp.candidates.value[0].content.value.parts.value
    else []
  }

  /** A client bound to a key. */
  datatype Client = Client(apiKey: string)

  const KeyMissing := "API Key not found"

  /** getAI (services/geminiService.ts:5-10): an unset or empty key is an
      error. */
  function GetAI(key: Option<string>): (r: Result<Client>)
    ensures r.Err? <==> key.None? || key.value == ""
    ensures r.Err? ==> r.message == KeyMissing
    ensures r.Ok? ==> r.value.apiKey == key.value
  {
    if key.None? || key.value == "" then Err(KeyMissing) else Ok(Client(key.value))
  }

  const Base64Marker := "base64,"

  /** `image.includes('base64,') ? image.split('base64,')[1] : image`
      (services/geminiService.ts:26). */
  function CleanBase64(image: string): (r: string)
    ensures |r| <= |image|
    ensures IndexOf(image, Base64Marker, 0).None? ==> r == image
  {
    match IndexOf(image, Base64Marker, 0)
    case None => image
    case Some(i) =>
      var rest := image[i + |Base64Marker|..];
      match IndexOf(rest, Base64Marker, 0)
      case None => rest
      case Some(j) => rest[..j]
  }

  /** `pat` first occurs in `s` at `i`. */
  predicate FirstOccurrence(s: string, pat: string, i: nat) {
    OccursAt(s, pat, i) && forall k: nat :: k < i ==> !OccursAt(s, pat, k)
  }

  /** `r` sits right after the first marker of `image`, at `i`, and runs to
      the next marker or to the end. */
  predicate SegmentAfter(image: string, i: nat, r: string) {
    FirstOccurrence(image, Base64Marker, i)
    && i + 7 + |r| <= |image| && r == image[i + 7..i + 7 + |r|]
    && (i + 7 + |r| == |image| || OccursAt(image, Base64Marker, i + 7 + |r|))
  }

  /** What the cleanup keeps: without a marker the whole string; with one,
      the text right after the first marker, up to the next marker or the
      end, and containing no marker itself. */
  lemma CleanBase64Segment(image: string)
    ensures !Includes(image, Base64Marker) ==> CleanBase64(image) == image
    ensures Includes(image, Base64Marker) ==>
      var r := CleanBase64(image);
      !Includes(r, Base64Marker) && exists i: nat :: SegmentAfter(image, i, r)
  {
    var m := Base64Marker;
    if Includes(image, m) {
      var i := IndexOf(image, m, 0).value;
      var rest := image[i + 7..];
      var r := CleanBase64(image);
      assert FirstOccurrence(image, m, i);
      match IndexOf(rest, m, 0)
      case None =>
        assert r == rest;
        assert r == image[i + 7..i + 7 + |r|];
        assert SegmentAfter(image, i, r);
      case Some(j) =>
        assert r == rest[..j];
        assert OccursAt(rest, m, j);
        assert image[i + 7 + j..i + 7 + j + 7] == rest[j..j + 7];
        assert SegmentAfter(image, i, r);
        if Includes(r, m) {
          var k := IndexOf(r, m, 0).value;
          assert r[k..k + 7] == rest[k..k + 7];
          assert OccursAt(rest, m, k);
        }
    }
  }

  /** The user turn's parts (services/geminiService.ts:22-33): the prompt,
      and an inline PNG part when an image is given. */
  method UserParts(prompt: string, image: Option<string>) returns (parts: seq<Part>)
    ensures image.Some? && image.value != "" ==>
      parts == [TextPart(prompt), Part(None, Some(InlineData("image/png", CleanBase64(image.value))))]
    ensures image.None? || image.value == "" ==> parts == [TextPart(prompt)]
  {
    parts := [TextPart(prompt)];
    if image.Some? && image.value != "" {
      var base64Data := CleanBase64(image.value);
      parts := parts + [Part(None, Some(InlineData("image/png", base64Data)))];
    }
  }

  datatype ContentRequest = ContentRequest(model: string, contents: seq<Content>)

  const TextModel := "gemini-3-flash-preview"

  const NoResponse := "No response generated."

  /** `response.text || "No response generated."`. */
  function TextOrDefault(text: Option<string>): (r: string)
    ensures r != ""
    ensures text.Some? && text.value != "" ==> r == text.value
    ensures text.None? || text.value == "" ==> r == NoResponse
  {
    if text.Some? && text.value != "" then text.value else NoResponse
  }

  /** generateText (services/geminiService.ts:12-44). `response` is what
      the SDK call answered or threw; `request` is the call made, if any. */
  method GenerateText(key: Option<string>, prompt: string, image: Option<string>,
                      history: seq<Content>, response: Result<Response>)
    returns (request: Option<ContentRequest>, r: Result<string>)
    ensures GetAI(key).Err? ==> request.None? && r == Err(KeyMissing)
    ensures GetAI(key).Ok? ==> request.Some? && request.value.model == TextModel
    ensures request.Some? ==>
      var c := request.value.contents;
      |c| == |history| + 1 && c[..|history|] == history
      && c[|history|] == Content("user", [TextPart(prompt)] +
           (if image.Some? && image.value != ""
            then [Part(None, Some(InlineData("image/png", CleanBase64(image.value))))]
            else []))
    ensures request.Some? && response.Err? ==> r == Err(response.message)
    ensures request.Some? && response.Ok? ==> r == Ok(TextOrDefault(response.value.text))
  {
    var ai := GetAI(key);
    if ai.Err? {
      return None, Err(ai.message);
    }
    var currentParts := UserParts(prompt, image);
    var contents := history + [Content("user", currentParts)];
    assert contents[..|history|] == history;
    request := Some(ContentRequest(TextModel, contents));
    if response.Err? {
      r := Err(response.message);
    } else {
      r := Ok(TextOrDefault(response.value.text));
    }
  }

  const PngDataUrlPrefix := "data:image/png;base64,"

  function ImageDataUrl(data: string): string {
    PngDataUrlPrefix + data
  }

  /** Index `k` holds the first part with inline data. */
  predicate FirstInlineAt(parts: seq<Part>, k: int) {
    0 <= k < |parts| && parts[k].inlineData.Some?
    && forall j :: 0 <= j < k ==> parts[j].inlineData.None?
  }

  /** The extraction loop (services/geminiService.ts:80-84, 119-123): the
      first part with inline data, as a PNG data URL. */
  method FirstInlineImage(parts: seq<Part>) returns (url: Option<string>)
    ensures url.None? <==> forall k :: 0 <= k < |parts| ==> parts[k].inlineData.None?
    ensures url.Some? ==>
      exists k :: FirstInlineAt(parts, k) && url.value == ImageDataUrl(parts[k].inlineData.value.data)
    ensures forall k :: FirstInlineAt(parts, k) ==> url == Some(ImageDataUrl(parts[k].inlineData.value.data))
  {
    var i := 0;
    while i < |parts|
      invariant 0 <= i <= |parts|
      invariant forall j :: 0 <= j < i ==> parts[j].inlineData.None?
    {
      if parts[i].inlineData.Some? {
        assert FirstInlineAt(parts, i);
        return Some(ImageDataUrl(parts[i].inlineData.value.data));
      }
      i := i + 1;
    }
    return None;
  }

  datatype ImageRequest = ImageRequest(model: string, prompt: string, aspectRatio: string, imageSize: string)

  const ImageModel := "gemini-3-pro-image-preview"

  const NoImage := "No image generated in response."

  /** generateImagePro (services/geminiService.ts:46-87), without the
      key-selection dialog. */
  method GenerateImagePro(key: Option<string>, prompt: string, size: ImageSize, ratio: AspectRatio,
                          response: Result<Response>)
    returns (request: Option<ImageRequest>, r: Result<string>)
    ensures GetAI(key).Err? ==> request.None? && r == Err(KeyMissing)
    ensures GetAI(key).Ok? ==>
      request == Some(ImageRequest(ImageModel, prompt, AspectRatioValue(ratio), ImageSizeValue(size)))
    ensures request.Some? && response.Err? ==> r == Err(response.message)
    ensures request.Some? && response.Ok? ==>
      var parts := FirstCandidateParts(response.value);
      ((forall k :: 0 <= k < |parts| ==> parts[k].inlineData.None?) <==> r == Err(NoImage))
      && (r.Ok? ==> exists k :: FirstInlineAt(parts, k)
                      && r.value == ImageDataUrl(parts[k].inlineData.value.data))
      && (forall k :: FirstInlineAt(parts, k) ==> r == Ok(ImageDataUrl(parts[k].inlineData.value.data)))
  {
    var ai := GetAI(key);
    if ai.Err? {
      return None, Err(ai.message);
    }
    request := Some(ImageRequest(ImageModel, prompt, AspectRatioValue(ratio), ImageSizeValue(size)));
    if response.Err? {
      return request, Err(response.message);
    }
    var url := FirstInlineImage(FirstCandidateParts(response.value));
    if url.Some? {
      r := Ok(url.value);
    } else {
      r := Err(NoImage);
    }
  }

  /** `\w`: the ASCII letters, digits and underscore. */
  predicate IsWordChar(c: char) {
    ('a' <= c <= 'z') || ('A' <= c <= 'Z') || ('0' <= c <= '9') || c == '_'
  }

  /** The length of the run of word characters `s` starts with. */
  function WordRun(s: string): (n: nat)
    ensures n <= |s|
    ensures forall i :: 0 <= i < n ==> IsWordChar(s[i])
    ensures n < |s| ==> !IsWordChar(s[n])
  {
    if s != [] && IsWordChar(s[0]) then 1 + WordRun(s[1..]) else 0
  }

  const ImagePrefix := "data:image/"

  const Base64Suffix := ";base64,"

  /** `s.replace(/^data:image\/\w+;base64,/, "")`
      (services/geminiService.ts:100). `\w+` cannot run past the ';', so
      the longest run is the only candidate. */
  function StripDataUrlPrefix(s: string): (r: string)
    ensures |r| <= |s| && r == s[|s| - |r|..]
    ensures !StartsWith(s, ImagePrefix) ==> r == s
  {
    if !StartsWith(s, ImagePrefix) then s
    else
      var rest := s[|ImagePrefix|..];
      var n := WordRun(rest);
      if n >= 1 && StartsWith(rest[n..], Base64Suffix) then rest[n + |Base64Suffix|..]
      else s
  }

  /** Only a leading `data:image/<word>;base64,` is ever removed: a string
      that changes is exactly that prefix followed by the result, so any
      other string, one starting with "data:image/" included, is sent
      whole. */
  lemma StripOnlyWrapped(s: string)
    ensures StripDataUrlPrefix(s) != s ==>
      exists w :: |w| >= 1 && (forall i :: 0 <= i < |w| ==> IsWordChar(w[i]))
                  && s == ImagePrefix + w + Base64Suffix + StripDataUrlPrefix(s)
  {
    var r := StripDataUrlPrefix(s);
    if r != s {
      var p := |ImagePrefix|;
      var rest := s[p..];
      var n := WordRun(rest);
      var q := p + n + |Base64Suffix|;
      assert q <= |s| && s[p + n..q] == rest[n..][..|Base64Suffix|];
      assert s[p..p + n] == rest[..n];
      PrefixedByWrapper(s, s[p..p + n], n, r);
    }
  }

  /** A string cut at the end of "data:image/", at the end of a word run
      and at the end of ";base64," is that wrapper around its tail. */
  lemma PrefixedByWrapper(s: string, w: string, n: nat, r: string)
    requires |ImagePrefix| + n + |Base64Suffix| <= |s|
    requires s[..|ImagePrefix|] == ImagePrefix && w == s[|ImagePrefix|..|ImagePrefix| + n]
    requires 1 <= n && forall i :: 0 <= i < n ==> IsWordChar(w[i])
    requires s[|ImagePrefix| + n..|ImagePrefix| + n + |Base64Suffix|] == Base64Suffix
    requires r == s[|ImagePrefix| + n + |Base64Suffix|..]
    ensures exists w :: |w| >= 1 && (forall i :: 0 <= i < |w| ==> IsWordChar(w[i]))
                  && s == ImagePrefix + w + Base64Suffix + r
  {
    var p := |ImagePrefix|;
    var q := p + n + |Base64Suffix|;
    assert s[p + n..] == Base64Suffix + r by {
      assert s[p + n..] == s[p + n..q] + s[q..];
    }
    assert s[p..] == w + (Base64Suffix + r) by {
      assert s[p..] == s[p..p + n] + s[p + n..];
    }
    assert s == ImagePrefix + (w + (Base64Suffix + r)) by {
      assert s == s[..p] + s[p..];
    }
    assert ImagePrefix + (w + (Base64Suffix + r)) == ImagePrefix + w + Base64Suffix + r;
  }

  /** Stripping a data URL with a word-character subtype yields the data. */
  lemma StripWrapped(subtype: string, data: string)
    requires |subtype| >= 1 && forall i :: 0 <= i < |subtype| ==> IsWordChar(subtype[i])
    ensures StripDataUrlPrefix(ImagePrefix + subtype + Base64Suffix + data) == data
  {
    var tail := Base64Suffix + data;
    var rest := subtype + tail;
    var s := ImagePrefix + rest;
    assert ImagePrefix + subtype + Base64Suffix + data == s;
    assert s[..|ImagePrefix|] == ImagePrefix && s[|ImagePrefix|..] == rest;
    WordRunOf(subtype, tail);
    assert rest[|subtype|..] == tail;
    assert tail[..|Base64Suffix|] == Base64Suffix && tail[|Base64Suffix|..] == data;
    StripAt(s, |subtype|);
  }

  /** The strip, unfolded at a known word run. */
  lemma StripAt(s: string, n: nat)
    requires StartsWith(s, ImagePrefix) && WordRun(s[|ImagePrefix|..]) == n >= 1
    requires StartsWith(s[|ImagePrefix|..][n..], Base64Suffix)
    ensures StripDataUrlPrefix(s) == s[|ImagePrefix|..][n + |Base64Suffix|..]
  {
  }

  lemma {:induction false} WordRunOf(w: string, tail: string)
    requires forall i :: 0 <= i < |w| ==> IsWordChar(w[i])
    requires tail == [] || !IsWordChar(tail[0])
    ensures WordRun(w + tail) == |w|
  {
    if w != [] {
      assert (w + tail)[1..] == w[1..] + tail;
      WordRunOf(w[1..], tail);
    }
  }

  /** So the image the two image calls return reads back as its data. */
  lemma StripImageDataUrl(data: string)
    ensures StripDataUrlPrefix(ImageDataUrl(data)) == data
  {
    StripWrapped("png", data);
    assert ImageDataUrl(data) == ImagePrefix + "png" + Base64Suffix + data;
  }

  /** A string without the prefix is passed on unchanged. */
  lemma StripLeavesOthers(s: string)
    requires !StartsWith(s, ImagePrefix)
    ensures StripDataUrlPrefix(s) == s
  {
  }

  datatype EditRequest = EditRequest(model: string, parts: seq<Part>)

  const EditModel := "gemini-2.5-flash-image"

  const NoEditedImage := "No edited image returned. The model might have returned text instead: "

  /** editImage (services/geminiService.ts:89-126). `mimeType` None is the
      omitted argument, which defaults to PNG. */
  method EditImage(key: Option<string>, prompt: string, base64Image: string, mimeType: Option<string>,
                   response: Result<Response>)
    returns (request: Option<EditRequest>, r: Result<string>)
    ensures GetAI(key).Err? ==> request.None? && r == Err(KeyMissing)
    ensures GetAI(key).Ok? ==> request == Some(EditRequest(EditModel, [
      Part(None, Some(InlineData(mimeType.GetOr("image/png"), StripDataUrlPrefix(base64Image)))),
      TextPart(prompt)]))
    ensures request.Some? && response.Err? ==> r == Err(response.message)
    ensures request.Some? && response.Ok? ==>
      var parts := FirstCandidateParts(response.value);
      ((forall k :: 0 <= k < |parts| ==> parts[k].inlineData.None?) <==>
         r == Err(NoEditedImage + response.value.text.GetOr("undefined")))
      && (r.Ok? ==> exists k :: FirstInlineAt(parts, k)
                      && r.value == ImageDataUrl(parts[k].inlineData.value.data))
      && (forall k :: FirstInlineAt(parts, k) ==> r == Ok(ImageDataUrl(parts[k].inlineData.value.data)))
  {
    var ai := GetAI(key);
    if ai.Err? {
      return None, Err(ai.message);
    }
    var cleanBase64 := StripDataUrlPrefix(base64Image);
    request := Some(EditRequest(EditModel, [
      Part(None, Some(InlineData(mimeType.GetOr("image/png"), cleanBase64))), TextPart(prompt)]));
    if response.Err? {
      return request, Err(response.message);
    }
    var url := FirstInlineImage(FirstCandidateParts(response.value));
    if url.Some? {
      r := Ok(url.value);
    } else {
      r := Err(NoEditedImage + response.value.text.GetOr("undefined"));
    }
  }

  /** What the local server did: `fetch` threw, answered with a non-OK
      status, or answered a body that did or did not parse. */
  datatype LocalOutcome =
    | FetchThrew(message: string)
    | NotOk
    | BodyThrew(message: string)
    | Parsed(response: string)

  datatype LocalRequest = LocalRequest(url: string, model: string, prompt: string, stream: bool)

  /** The request generateLocal sends (services/geminiService.ts:135-143). */
  function LocalRequestFor(prompt: string, baseUrl: string, modelName: string): (q: LocalRequest)
    ensures q.url == baseUrl + "/api/generate" && !q.stream
    ensures q.model == modelName && q.prompt == prompt
  {
    LocalRequest(baseUrl + "/api/generate", modelName, prompt, false)
  }

  const LocalErrorPrefix := "Local LLM Error: "

  const LocalConnectFailure := "Failed to connect to Local LLM"

  /** generateLocal's answer (services/geminiService.ts:144-150). */
  function GenerateLocal(outcome: LocalOutcome): (r: Result<string>)
    ensures r.Ok? <==> outcome.Parsed?
    ensures r.Ok? ==> r.value == outcome.response
  {
    match outcome
    case FetchThrew(m) => Err(LocalErrorPrefix + m)
    case NotOk => Err(LocalErrorPrefix + LocalConnectFailure)
    case BodyThrew(m) => Err(LocalErrorPrefix + m)
    case Parsed(text) => Ok(text)
  }

  /** Every failure, a non-OK status included, surfaces with the same
      prefix and its own message after it; only a parsed body succeeds. */
  lemma LocalErrorsWrapped(outcome: LocalOutcome)
    ensures GenerateLocal(outcome).Ok? <==> outcome.Parsed?
    ensures GenerateLocal(outcome).Ok? ==> GenerateLocal(outcome).value == outcome.response
    ensures GenerateLocal(outcome).Err? ==>
      var msg := GenerateLocal(outcome).message;
      StartsWith(msg, LocalErrorPrefix)
      && msg[|LocalErrorPrefix|..] == (if outcome.NotOk? then LocalConnectFailure else outcome.message)
  {
    if GenerateLocal(outcome).Err? {
      var msg := GenerateLocal(outcome).message;
      assert msg[..|LocalErrorPrefix|] == LocalErrorPrefix;
    }
  }
}
