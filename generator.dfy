/**
 * The landing-page generator: the image/prompt form, the request it sends
 * to `/api/process-image`, and how the output gallery shows the answer.
 */
module Generator {
  import opened Common

  /** The characters JavaScript's `\s` matches. */
  predicate IsJsSpace(c: char)
  {
    || c == '\t' || c == '\n' || c == '\U{B}' || c == '\U{C}' || c == '\r' || c == ' '
    || c == '\U{A0}' || c == '\U{1680}' || ('\U{2000}' <= c <= '\U{200A}')
    || c == '\U{2028}' || c == '\U{2029}' || c == '\U{202F}' || c == '\U{205F}'
    || c == '\U{3000}' || c == '\U{FEFF}'
  }

  /** `[^\s\)]`: a character that may continue a URL. */
  predicate IsUrlChar(c: char)
  {
    !IsJsSpace(c) && c != ')'
  }

  predicate StartsAt(s: string, prefix: string, i: nat)
  {
    i + |prefix| <= |s| && s[i..i + |prefix|] == prefix
  }

  /**
   * The length of the `https?://` that `/(https?:\/\/[^\s\)]+)/` matches at
   * `i` (the optional `s` taken when it fits), or 0 when no match starts at `i`.
   */
  function SchemeLength(s: string, i: nat): (n: nat)
    ensures n == 0 || n == 7 || n == 8
    ensures n == 8 ==> StartsAt(s, "https://", i) && i + 8 < |s| && IsUrlChar(s[i + 8])
    ensures n == 7 ==> StartsAt(s, "http://", i) && i + 7 < |s| && IsUrlChar(s[i + 7])
  {
    if StartsAt(s, "https://", i) && i + 8 < |s| && IsUrlChar(s[i + 8]) then 8
    else if StartsAt(s, "http://", i) && i + 7 < |s| && IsUrlChar(s[i + 7]) then 7
    else 0
  }

  predicate UrlAt(s: string, i: nat)
  {
    SchemeLength(s, i) > 0
  }

  /** The end of the greedy `[^\s\)]+` run starting at `j`. */
  function RunEnd(s: string, j: nat): (e: nat)
    requires j <= |s|
    ensures j <= e <= |s|
    ensures forall k :: j <= k < e ==> IsUrlChar(s[k])
    ensures e == |s| || !IsUrlChar(s[e])
    decreases |s| - j
  {
    if j < |s| && IsUrlChar(s[j]) then RunEnd(s, j + 1) else j
  }

  /** The leftmost position at or after `from` where a URL match starts. */
  function FirstUrl(s: string, from: nat): (r: Option<nat>)
    requires from <= |s|
    ensures r.Some? ==> from <= r.value < |s| && UrlAt(s, r.value)
    ensures r.Some? ==> forall j :: from <= j < r.value ==> !UrlAt(s, j)
    ensures r.None? ==> forall j :: from <= j < |s| ==> !UrlAt(s, j)
    decreases |s| - from
  {
    if from == |s| then None
    else if UrlAt(s, from) then Some(from)
    else FirstUrl(s, from + 1)
  }

  /**
   * `output.match(urlRegex)?.[0]`: the leftmost match, its scheme followed
   * by the longest run of URL characters.
   */
  function FirstUrlMatch(s: string): (m: Option<string>)
    ensures m.None? <==> forall j :: 0 <= j < |s| ==> !UrlAt(s, j)
    ensures m.Some? ==> FirstUrl(s, 0).Some? && StartsAt(s, m.value, FirstUrl(s, 0).value)
  {
    match FirstUrl(s, 0)
    case None => None
    case Some(i) =>
      var e := RunEnd(s, i + SchemeLength(s, i));
      Some(s[i..e])
  }

  /**
   * The match found is a whole URL: it starts with `http://` or `https://`,
   * has at least one character after the scheme, no whitespace or `)`
   * after it, and the text right after it cannot continue it.
   */
  lemma UrlMatchIsMaximal(s: string)
    requires FirstUrl(s, 0).Some?
    ensures var i := FirstUrl(s, 0).value;
      var n := SchemeLength(s, i);
      var m := FirstUrlMatch(s).value;
      && ("https://" <= m || "http://" <= m)
      && |m| > n
      && (forall k :: n <= k < |m| ==> IsUrlChar(m[k]))
      && (i + |m| == |s| || !IsUrlChar(s[i + |m|]))
  {
    var i := FirstUrl(s, 0).value;
    var n := SchemeLength(s, i);
    var e := RunEnd(s, i + n);
    var m := s[i..e];
    assert FirstUrlMatch(s).value == m;
    assert IsUrlChar(s[i + n]);
    assert |m| == e - i;
    forall k | n <= k < |m| ensures IsUrlChar(m[k]) {
      assert m[k] == s[i + k];
    }
    assert m[..n] == s[i..i + n];
  }

  /** What the gallery's `imageUrl` evaluates to for a (truthy) output. */
  function ImageSource(output: string): (src: Option<string>)
    ensures StartsAt(output, "data:image", 0) ==> src == Some(output)
    ensures !StartsAt(output, "data:image", 0) ==> src == FirstUrlMatch(output)
  {
    if StartsAt(output, "data:image", 0) then Some(output) else FirstUrlMatch(output)
  }

  /** What the output gallery shows. */
  datatype Gallery = Placeholder | ImageView(src: string) | TextView(text: string)

  function Display(output: Option<string>): (g: Gallery)
    ensures g == Placeholder <==> !Truthy(output)
    ensures Truthy(output) ==> (g.ImageView? <==> ImageSource(output.value).Some?)
    ensures g.ImageView? ==> ImageSource(output.value) == Some(g.src)
    ensures g.TextView? ==> g.text == output.value && FirstUrlMatch(output.value).None?
  {
    if !Truthy(output) then Placeholder
    else match ImageSource(output.value)
      case Some(src) => ImageView(src)
      case None => TextView(output.value)
  }

  /** An output that is a plain URL is shown as that image; text mentioning none is shown as text. */
  lemma DisplayKinds(output: string)
    requires output != ""
    ensures (forall j :: 0 <= j < |output| ==> !UrlAt(output, j)) && !StartsAt(output, "data:image", 0)
      ==> Display(Some(output)) == TextView(output)
    ensures UrlAt(output, 0) && (forall k :: SchemeLength(output, 0) <= k < |output| ==> IsUrlChar(output[k]))
      ==> Display(Some(output)) == ImageView(output)
  {
    if UrlAt(output, 0) && (forall k :: SchemeLength(output, 0) <= k < |output| ==> IsUrlChar(output[k])) {
      var n := SchemeLength(output, 0);
      assert output[0] == 'h';
      assert FirstUrl(output, 0) == Some(0);
      var e := RunEnd(output, n);
      assert e == |output|;
      assert output[0..e] == output;
    }
  }

  /** The JSON body posted to `/api/process-image`. */
  datatype GenerateRequest = GenerateRequest(prompt: string, image: string)

  /** What the fetch gives back: it threw (or the body was not JSON), or a status and the body's `result`. */
  datatype GenerateReply = FetchFailed | Answered(ok: bool, result: Option<string>)

  /** The component's state. */
  class GeneratorState {
    var imagePreview: Option<string>
    var prompt: string
    var isGenerating: bool
    var output: Option<string>

    /** While a request is pending the gallery shows the placeholder. */
    ghost predicate Valid()
      reads this
    {
      isGenerating ==> output.None?
    }

    constructor ()
      ensures Valid()
      ensures imagePreview.None? && prompt == "" && !isGenerating && output.None?
    {
      imagePreview, prompt, isGenerating, output := None, "", false, None;
    }

    /** `disabled={isGenerating || !imagePreview || !prompt}` */
    predicate GenerateDisabled()
      reads this
      ensures !GenerateDisabled() ==> imagePreview.Some? && imagePreview.value != "" && prompt != ""
      ensures isGenerating ==> GenerateDisabled()
    {
      isGenerating || !Truthy(imagePreview) || prompt == ""
    }

    /** `handleImageUpload`: the data URL the reader produces for the chosen file, if any. */
    method UploadImage(fileDataUrl: Option<string>)
      requires Valid()
      modifies this`imagePreview
      ensures Valid()
      ensures imagePreview == if fileDataUrl.Some? then fileDataUrl else old(imagePreview)
    {
      if fileDataUrl.Some? {
        imagePreview := fileDataUrl;
      }
    }

    method SetPrompt(value: string)
      requires Valid()
      modifies this`prompt
      ensures Valid() && prompt == value
    {
      prompt := value;
    }

    /**
     * `handleGenerate` up to the fetch: without an image or a prompt nothing
     * happens; otherwise the gallery is cleared and the request goes out.
     */
    method BeginGenerate() returns (request: Option<GenerateRequest>)
      requires Valid()
      modifies this`isGenerating, this`output
      ensures Valid()
      ensures request.None? <==> !Truthy(old(imagePreview)) || old(prompt) == ""
      ensures !old(GenerateDisabled()) ==> request.Some?
      ensures request.None? ==> isGenerating == old(isGenerating) && output == old(output)
      ensures request.Some? ==>
        request.value == GenerateRequest(prompt, imagePreview.value) && isGenerating && output.None?
    {
      if !Truthy(imagePreview) || prompt == "" {
        return None;
      }
      isGenerating := true;
      output := None;
      request := Some(GenerateRequest(prompt, imagePreview.value));
    }

    /** The rest of `handleGenerate`: keep the result only on an OK answer, then stop generating. */
    method CompleteGenerate(reply: GenerateReply)
      requires Valid()
      modifies this`isGenerating, this`output
      ensures Valid() && !isGenerating
      ensures output == if reply.Answered? && reply.ok then reply.result else old(output)
    {
      if reply.Answered? && reply.ok {
        output := reply.result;
      }
      isGenerating := false;
    }
  }
}
