/**
 * The landing-page generator form (src/components/LandingGenerator.tsx): the
 * keyword editor, the city and state inputs, the generate request with its
 * checks, error message and busy flag, the reset, and the two downloads with
 * their file names.  The content service is outside the model: its answer is
 * the `Reply` handed to `FinishGenerate`.
 */
module Generator {
  import opened Wrappers
  import opened Text
  import opened Model
  import opened Keywords
  import opened Export

  const NoKeywordsMessage: string := "Please add at least one keyword."
  const NoCityMessage: string := "Please enter a city."
  const NoStateMessage: string := "Please enter a state."
  const GenerateFailedMessage: string := "Failed to generate content. Please try again."

  /** The checks made before a request, in their order: the first missing
      input gives the message; `None` when the request may start.  Only the
      empty string counts as missing (no trimming). */
  function Validate(keywords: seq<string>, city: string, state: string): (r: Option<string>)
    ensures r.None? <==> |keywords| > 0 && city != "" && state != ""
    ensures r == Some(NoKeywordsMessage) <==> |keywords| == 0
    ensures r == Some(NoCityMessage) <==> |keywords| > 0 && city == ""
    ensures r == Some(NoStateMessage) <==> |keywords| > 0 && city != "" && state == ""
  {
    if |keywords| == 0 then Some(NoKeywordsMessage)
    else if city == "" then Some(NoCityMessage)
    else if state == "" then Some(NoStateMessage)
    else None
  }

  predicate NoUpper(s: string) {
    forall i :: 0 <= i < |s| ==> !('A' <= s[i] <= 'Z')
  }

  /** Lower-casing a text and then dashing its whitespace runs leaves no
      whitespace and no capital ASCII letter. */
  lemma DashedLowerIsClean(s: string)
    ensures NoSpace(DashSpaces(ToLower(s)))
    ensures NoUpper(DashSpaces(ToLower(s)))
  {
    var lower := ToLower(s);
    DashSpacesNoSpaceLeft(lower);
    DashSpacesChars(lower);
    var r := DashSpaces(lower);
    forall i | 0 <= i < |r|
      ensures !('A' <= r[i] <= 'Z')
    {
      if r[i] != '-' {
        var j :| 0 <= j < |lower| && lower[j] == r[i];
        assert lower[j] == LowerChar(s[j]);
      }
    }
  }

  /** `${city}-${state}-${keywords[0]}<ext>`, lower-cased, with every run of
      whitespace replaced by one `-`: a download name holds no whitespace and
      no capital ASCII letter. */
  function DownloadName(city: string, state: string, keywords: seq<string>, ext: string): (r: string)
    ensures NoSpace(r)
    ensures NoUpper(r)
  {
    var s := city + "-" + state + "-" + Primary(keywords) + ext;
    DashedLowerIsClean(s);
    DashSpaces(ToLower(s))
  }

  lemma ToLowerOfLower(s: string)
    requires NoUpper(s)
    ensures ToLower(s) == s
  {
    var r := ToLower(s);
    forall i | 0 <= i < |s|
      ensures r[i] == s[i]
    {
      assert r[i] == LowerChar(s[i]);
    }
  }

  /** Inputs that are already lower case and free of whitespace are joined
      with `-` and kept as they are. */
  lemma DownloadNameOfCleanInputs(city: string, state: string, keywords: seq<string>, ext: string)
    requires var s := city + "-" + state + "-" + Primary(keywords) + ext; NoSpace(s) && NoUpper(s)
    ensures DownloadName(city, state, keywords, ext) == city + "-" + state + "-" + Primary(keywords) + ext
  {
    var s := city + "-" + state + "-" + Primary(keywords) + ext;
    ToLowerOfLower(s);
    DashSpacesNoSpace(s);
  }

  /** The answer of the content service. */
  datatype Reply = Generated(content: Content) | Failed

  /** A file handed to the browser. */
  datatype Download = Download(filename: string, body: string)

  class LandingGenerator {
    const editor: KeywordEditor
    var city: string
    var state: string
    var isGenerating: bool
    var generatedContent: Option<Content>
    var error: Option<string>

    ghost predicate Valid()
      reads this, editor
    {
      editor.Valid()
    }

    constructor ()
      ensures Valid() && fresh(editor)
      ensures editor.keywords == [] && editor.keyword == ""
      ensures city == "" && state == "" && !isGenerating
      ensures generatedContent.None? && error.None?
    {
      editor := new KeywordEditor();
      city := "";
      state := "";
      isGenerating := false;
      generatedContent := None;
      error := None;
    }

    /** `addKeyword`, the same rule as the keyword editor. */
    method AddKeyword()
      requires Valid()
      modifies editor
      ensures Valid()
      ensures var t := Trim(old(editor.keyword));
              if t != [] && t !in old(editor.keywords) then
                editor.keywords == old(editor.keywords) + [t] && editor.keyword == ""
              else
                editor.keywords == old(editor.keywords) && editor.keyword == old(editor.keyword)
    {
      editor.Add();
    }

    /** `removeKeyword`. */
    method RemoveKeyword(index: int)
      requires Valid()
      modifies editor`keywords
      ensures Valid()
      ensures 0 <= index < |old(editor.keywords)| ==>
                editor.keywords == old(editor.keywords)[..index] + old(editor.keywords)[index + 1..]
      ensures !(0 <= index < |old(editor.keywords)|) ==> editor.keywords == old(editor.keywords)
    {
      editor.RemoveAt(index);
    }

    /** `handleKeyDown`: Enter adds the pending keyword; any other key does
        nothing. */
    method KeyDown(key: string)
      requires Valid()
      modifies editor
      ensures Valid()
      ensures key == "Enter" ==>
                var t := Trim(old(editor.keyword));
                if t != [] && t !in old(editor.keywords) then
                  editor.keywords == old(editor.keywords) + [t] && editor.keyword == ""
                else
                  editor.keywords == old(editor.keywords) && editor.keyword == old(editor.keyword)
      ensures key != "Enter" ==>
                editor.keywords == old(editor.keywords) && editor.keyword == old(editor.keyword)
    {
      editor.KeyDown(key);
    }

    /** Typing into the keyword input. */
    method TypeKeyword(text: string)
      requires Valid()
      modifies editor`keyword
      ensures Valid()
      ensures editor.keyword == text
    {
      editor.Type(text);
    }

    /** Typing into the city input. */
    method SetCity(text: string)
      requires Valid()
      modifies this`city
      ensures Valid()
      ensures city == text
    {
      city := text;
    }

    /** Typing into the state input. */
    method SetState(text: string)
      requires Valid()
      modifies this`state
      ensures Valid()
      ensures state == text
    {
      state := text;
    }

    /** The synchronous start of `handleGenerate`: a failed check shows its
        message and stops; otherwise the error is cleared, the form turns
        busy and the request is sent. */
    method BeginGenerate() returns (started: bool)
      requires Valid()
      modifies this`error, this`isGenerating
      ensures Valid()
      ensures started <==> Validate(editor.keywords, city, state).None?
      ensures !started ==> error == Validate(editor.keywords, city, state) && isGenerating == old(isGenerating)
      ensures started ==> error.None? && isGenerating
    {
      var problem := Validate(editor.keywords, city, state);
      if problem.Some? {
        error := problem;
        started := false;
      } else {
        error := None;
        isGenerating := true;
        started := true;
      }
    }

    /** The end of `handleGenerate`, once the service has answered: the
        content is kept, or the failure message is shown; either way the
        form is no longer busy. */
    method FinishGenerate(reply: Reply)
      requires Valid()
      modifies this`generatedContent, this`error, this`isGenerating
      ensures Valid()
      ensures !isGenerating
      ensures reply.Generated? ==> generatedContent == Some(reply.content) && error == old(error)
      ensures reply.Failed? ==>
                error == Some(GenerateFailedMessage) && generatedContent == old(generatedContent)
    {
      if reply.Generated? {
        generatedContent := Some(reply.content);
      } else {
        error := Some(GenerateFailedMessage);
      }
      isGenerating := false;
    }

    /** `handleReset`: content, keywords, city, state and error are cleared;
        the pending keyword text and the busy flag are left alone. */
    method Reset()
      requires Valid()
      modifies this`generatedContent, this`city, this`state, this`error, editor`keywords
      ensures Valid()
      ensures generatedContent.None? && error.None? && city == "" && state == ""
      ensures editor.keywords == []
    {
      generatedContent := None;
      editor.Clear();
      city := "";
      state := "";
      error := None;
    }

    /** `handleDownloadText`: nothing without content; otherwise the text
        export under a `.txt` name. */
    method DownloadText() returns (file: Option<Download>)
      ensures generatedContent.None? ==> file.None?
      ensures generatedContent.Some? ==>
                file == Some(Download(DownloadName(city, state, editor.keywords, ".txt"),
                                      TextFile(generatedContent.value, city, state, editor.keywords)))
    {
      if generatedContent.None? {
        return None;
      }
      var name := DownloadName(city, state, editor.keywords, ".txt");
      file := Some(Download(name, TextFile(generatedContent.value, city, state, editor.keywords)));
    }

    /** `handleDownloadHTML`: nothing without content; otherwise the page
        export under a `.html` name, dated with the given year. */
    method DownloadHtml(year: int) returns (file: Option<Download>)
      ensures generatedContent.None? ==> file.None?
      ensures generatedContent.Some? ==>
                file == Some(Download(DownloadName(city, state, editor.keywords, ".html"),
                                      HtmlFile(generatedContent.value, city, state, editor.keywords, year)))
    {
      if generatedContent.None? {
        return None;
      }
      var name := DownloadName(city, state, editor.keywords, ".html");
      file := Some(Download(name, HtmlFile(generatedContent.value, city, state, editor.keywords, year)));
    }
  }
}
