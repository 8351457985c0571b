/**
 * The meme generator page: a sidebar that reveals the imgflip templates ten
 * at a time as it is scrolled to the bottom, a selected template with two
 * caption texts, and the URL of the last generated meme.
 */
module MemeGenerator {
  import opened JsSemantics

  datatype Template = Template(id: string, name: string, url: string)

  /** The result of loading the template list (`res.data.data.memes`). */
  datatype TemplatesFetch = TemplatesFailed | TemplatesOk(memes: seq<Template>)

  /** The body posted to `/api/generate-meme`. */
  datatype CaptionRequest = CaptionRequest(templateId: string, text0: string, text1: string)

  /**
   * The result of that post: the request threw, or a reply came with its
   * `success` flag and, when the reply has a `data` object, its `url`.
   */
  datatype CaptionOutcome = CaptionThrew | CaptionReplied(success: bool, data: Option<string>)

  /** The reply reports success and its `data.url` can be read without throwing. */
  predicate StoresUrl(o: CaptionOutcome)
  {
    o.CaptionReplied? && o.success && o.data.Some?
  }

  const PageSize: nat := 10

  /** The sidebar is near its bottom: within 5 pixels of the end of its content. */
  predicate NearBottom(scrollTop: int, clientHeight: int, scrollHeight: int)
  {
    scrollTop + clientHeight >= scrollHeight - 5
  }

  /** `templates.slice(0, visibleCount)`: the first templates, in order, at most `count` of them. */
  function VisibleTemplates(templates: seq<Template>, count: nat): (shown: seq<Template>)
    ensures shown <= templates
    ensures |shown| == if count < |templates| then count else |templates|
  {
    if count < |templates| then templates[..count] else templates
  }

  /** The spinner under the templates (line 128). */
  predicate ShowsLoader(templates: seq<Template>, count: nat)
  {
    count < |templates|
  }

  /** The spinner shows exactly while some template is not yet displayed. */
  lemma LoaderIffHidden(templates: seq<Template>, count: nat)
    ensures ShowsLoader(templates, count) <==> |VisibleTemplates(templates, count)| < |templates|
    ensures !ShowsLoader(templates, count) ==> VisibleTemplates(templates, count) == templates
  {
  }

  /** Growing the window only adds templates at the end of what is shown. */
  lemma WindowGrows(templates: seq<Template>, count: nat)
    ensures VisibleTemplates(templates, count) <= VisibleTemplates(templates, count + PageSize)
  {
  }

  /** The generate button is enabled when nothing is loading and both captions are non-empty. */
  predicate GenerateEnabled(loading: bool, topText: string, bottomText: string)
  {
    !loading && topText != "" && bottomText != ""
  }

  /** The component state of the page. */
  class MemeGeneratorPage {
    var templates: seq<Template>
    var visibleCount: nat
    var selectedTemplate: Option<Template>
    var topText: string
    var bottomText: string
    var generatedMemeUrl: string
    var loading: bool

    /** The window is a positive multiple of ten. */
    ghost predicate Valid()
      reads this
    {
      visibleCount >= PageSize && visibleCount % PageSize == 0
    }

    function Shown(): seq<Template>
      reads this
    {
      VisibleTemplates(templates, visibleCount)
    }

    /** Mounting: the initial state, then one attempt to load the templates. */
    constructor Mount(outcome: TemplatesFetch)
      ensures Valid()
      ensures outcome.TemplatesOk? ==> templates == outcome.memes
      ensures outcome.TemplatesFailed? ==> templates == []
      ensures visibleCount == 10 && selectedTemplate == None
      ensures topText == "" && bottomText == "" && generatedMemeUrl == "" && !loading
    {
      templates, visibleCount, selectedTemplate := [], 10, None;
      topText, bottomText, generatedMemeUrl, loading := "", "", "", false;
      new;
      LoadTemplates(outcome);
    }

    /** `fetchTemplates` on mount: a success replaces the list, a failure is only logged. */
    method LoadTemplates(outcome: TemplatesFetch)
      requires Valid()
      modifies this`templates
      ensures Valid()
      ensures outcome.TemplatesOk? ==> templates == outcome.memes
      ensures outcome.TemplatesFailed? ==> templates == old(templates)
    {
      if outcome.TemplatesOk? {
        templates := outcome.memes;
      }
    }

    /** `handleScroll`: near the bottom the window grows by exactly ten; nothing else changes. */
    method HandleScroll(scrollTop: int, clientHeight: int, scrollHeight: int)
      requires Valid()
      modifies this`visibleCount
      ensures Valid()
      ensures visibleCount == old(visibleCount) + if NearBottom(scrollTop, clientHeight, scrollHeight) then PageSize else 0
      ensures old(Shown()) <= Shown()
    {
      if NearBottom(scrollTop, clientHeight, scrollHeight) {
        visibleCount := visibleCount + PageSize;
        WindowGrows(templates, old(visibleCount));
      }
    }

    /**
     * Clicking a template: select it and clear the generated URL and both
     * captions, which leaves the generate button disabled.
     */
    method SelectTemplate(t: Template)
      requires Valid()
      modifies this`selectedTemplate, this`generatedMemeUrl, this`topText, this`bottomText
      ensures Valid()
      ensures selectedTemplate == Some(t) && generatedMemeUrl == "" && topText == "" && bottomText == ""
      ensures !GenerateEnabled(loading, topText, bottomText)
    {
      selectedTemplate := Some(t);
      generatedMemeUrl := "";
      topText := "";
      bottomText := "";
    }

    /** The top caption's `onChange`. */
    method SetTopText(s: string)
      modifies this`topText
      ensures topText == s
    {
      topText := s;
    }

    /** The bottom caption's `onChange`. */
    method SetBottomText(s: string)
      modifies this`bottomText
      ensures bottomText == s
    {
      bottomText := s;
    }

    /**
     * `generateMeme`: without a selected template nothing happens; otherwise
     * the template id and both captions are posted, the generated URL is
     * replaced only by a reply reporting success whose `data` is present
     * (reading `data.url` of a reply without `data` throws, and the catch
     * leaves the URL as it was), and `loading` is false after any outcome.
     */
    method GenerateMeme(outcome: CaptionOutcome) returns (request: Option<CaptionRequest>)
      requires Valid()
      modifies this`loading, this`generatedMemeUrl
      ensures Valid()
      ensures old(selectedTemplate).None? ==>
                request == None && loading == old(loading) && generatedMemeUrl == old(generatedMemeUrl)
      ensures old(selectedTemplate).Some? ==>
                request == Some(CaptionRequest(selectedTemplate.value.id, topText, bottomText)) && !loading
      ensures old(selectedTemplate).Some? && StoresUrl(outcome) ==>
                generatedMemeUrl == outcome.data.value
      ensures !(old(selectedTemplate).Some? && StoresUrl(outcome)) ==>
                generatedMemeUrl == old(generatedMemeUrl)
    {
      if selectedTemplate.None? {
        return None;
      }
      loading := true;
      request := Some(CaptionRequest(selectedTemplate.value.id, topText, bottomText));
      match outcome {
        case CaptionReplied(success, data) =>
          if success {
            match data {
              case Some(url) => generatedMemeUrl := url;
              case None => // `response.data.data.url` throws; the catch only alerts
            }
          }
        case CaptionThrew =>
      }
      loading := false;
    }
  }
}
