/** The widget's state: the article input, the selected language, the single-slot
    snapshot of the last successful fetch (`latestArticleDetails`), the TOC container,
    and the requests issued so far. fetchTOC is split into its start and its response
    handler; the language selector's change handler may take the shortcut. */
module Session {
  import opened Wrappers
  import opened Title
  import opened TocBuilder
  import opened Response

  /** The selected `<option>`: its value and its `data-direction`, if any. */
  datatype LanguageOption = LanguageOption(id: string, direction: Option<string>)

  datatype Language = Language(id: string, direction: string)

  /** getLanguage: the option's code, and its direction, `"ltr"` when the attribute is
      absent or empty. */
  function GetLanguage(option: LanguageOption): (r: Language)
    ensures r.id == option.id
    ensures r.direction != ""
    ensures Truthy(option.direction) ==> r.direction == option.direction.value
    ensures !Truthy(option.direction) ==> r.direction == "ltr"
  {
    Language(option.id, if Truthy(option.direction) then option.direction.value else "ltr")
  }

  /** A GET to `host` with the query parameters in this order. */
  datatype Request = Request(host: string, query: seq<(string, string)>)

  /** getApiUrl, before URLSearchParams encodes it: the language's API endpoint and five
      parameters, the last of which is the normalised title, free of whitespace. */
  function ApiRequest(languageId: string, article: string): (r: Request)
    ensures r.host == "https://" + languageId + ".wikipedia.org/w/api.php"
    ensures |r.query| == 5
    ensures r.query[..4] == [("origin", "*"), ("format", "json"), ("action", "parse"),
                             ("prop", "sections|langlinks")]
    ensures r.query[4] == ("page", Normalize(article)) && NoWhitespace(r.query[4].1)
  {
    Request("https://" + languageId + ".wikipedia.org/w/api.php",
            [("origin", "*"), ("format", "json"), ("action", "parse"),
             ("prop", "sections|langlinks"), ("page", Normalize(article))])
  }

  /** `articlePageUrl`, the base of every TOC link: the same normalised title as the
      `page` parameter of the request for that input, under the language's `/wiki/`. */
  function PageUrl(languageId: string, article: string): (r: string)
    ensures r == "https://" + languageId + ".wikipedia.org/wiki/" + ApiRequest(languageId, article).query[4].1
  {
    "https://" + languageId + ".wikipedia.org/wiki/" + Normalize(article)
  }

  /** Two inputs give the same request in a language exactly when they normalise to the
      same title, so inputs differing only in their whitespace runs fetch the same page. */
  lemma SameRequestIff(languageId: string, a: string, b: string)
    ensures ApiRequest(languageId, a) == ApiRequest(languageId, b) <==> Normalize(a) == Normalize(b)
  {
    if ApiRequest(languageId, a) == ApiRequest(languageId, b) {
      assert ApiRequest(languageId, a).query[4].1 == ApiRequest(languageId, b).query[4].1;
    }
  }

  /** `latestArticleDetails`: the raw input value and the reply's language links. */
  datatype Snapshot = Snapshot(article: string, links: seq<LangLink>)

  /** What the TOC container shows. */
  datatype View = Blank | TocView(direction: string, tokens: seq<Token>) | Alert(failure: Failure)

  /** `links.find(l => l.lang === lang)`, as the index of the first match. */
  function FindLink(links: seq<LangLink>, lang: string): (r: Option<nat>)
    ensures r.Some? ==> r.value < |links| && links[r.value].lang == lang
    ensures r.Some? ==> forall j :: 0 <= j < r.value ==> links[j].lang != lang
    ensures r.None? ==> forall j :: 0 <= j < |links| ==> links[j].lang != lang
  {
    if links == [] then None
    else if links[0].lang == lang then Some(0)
    else match FindLink(links[1..], lang)
      case None => None
      case Some(k) => Some(k + 1)
  }

  /** The language-switch shortcut: the title to fetch in `lang`, if the snapshot is set,
      its article is literally the current input, and some link is in `lang`. */
  function Shortcut(latest: Option<Snapshot>, input: string, lang: string): (r: Option<string>)
    ensures r.Some? <==>
              latest.Some? && latest.value.article == input
              && exists i :: 0 <= i < |latest.value.links| && latest.value.links[i].lang == lang
    ensures r.Some? ==>
              exists i :: 0 <= i < |latest.value.links| && latest.value.links[i].lang == lang
                          && r.value == latest.value.links[i].title
                          && forall j :: 0 <= j < i ==> latest.value.links[j].lang != lang
  {
    if latest.Some? && latest.value.article == input then
      match FindLink(latest.value.links, lang)
      case None => None
      case Some(k) => Some(latest.value.links[k].title)
    else None
  }

  /** The comparison is on the raw text: a snapshot of "Foo Bar" does not match an input of
      "Foo  Bar", although both request the same page. */
  lemma ShortcutIsLiteral()
    ensures Normalize("Foo Bar") == Normalize("Foo  Bar")
    ensures Shortcut(Some(Snapshot("Foo Bar", [LangLink("de", "Foo")])), "Foo  Bar", "de") == None
  {
    NormalizeRun("Foo", " ", "Bar");
    NormalizeRun("Foo", "  ", "Bar");
    assert "Foo" + " " + "Bar" == "Foo Bar";
    assert "Foo" + "  " + "Bar" == "Foo  Bar";
  }

  class TocPage {
    var article: string
    var selected: LanguageOption
    var latest: Option<Snapshot>
    var container: View
    var requests: seq<Request>
    var pending: bool

    /** A snapshot is only ever exposed beside the TOC it came with, and never while a
        fetch is in flight. */
    ghost predicate Valid()
      reads this
    {
      latest.Some? ==> !pending && container.TocView?
    }

    constructor (article: string, selected: LanguageOption)
      ensures Valid()
      ensures this.article == article && this.selected == selected
      ensures latest == None && container == Blank && requests == [] && !pending
    {
      this.article := article;
      this.selected := selected;
      latest := None;
      container := Blank;
      requests := [];
      pending := false;
    }

    /** The user edits the article field. */
    method EditArticle(text: string)
      requires Valid()
      modifies this
      ensures Valid()
      ensures article == text
      ensures selected == old(selected) && latest == old(latest) && container == old(container)
      ensures requests == old(requests) && pending == old(pending)
    {
      article := text;
    }

    /** The start of fetchTOC (also what the submit handlers do): the snapshot and the
        container are cleared and one request for the current input is issued. */
    method StartFetch()
      requires Valid()
      modifies this
      ensures Valid()
      ensures latest == None && container == Blank && pending
      ensures requests == old(requests) + [ApiRequest(selected.id, article)]
      ensures article == old(article) && selected == old(selected)
    {
      latest := None;
      container := Blank;
      requests := requests + [ApiRequest(selected.id, article)];
      pending := true;
    }

    /** fetchTOC's response handlers. Only a successful reply sets the snapshot, to the raw
        input value and the reply's language links, and renders the TOC; every failure
        shows an alert and leaves the snapshot as the start of the fetch left it: unset. */
    method OnResponse(reply: Reply)
      requires Valid() && pending
      modifies this
      ensures Valid() && !pending
      ensures article == old(article) && selected == old(selected) && requests == old(requests)
      ensures Classify(reply).Succeeded? ==>
                var parse := Classify(reply).parse;
                && latest == Some(Snapshot(article, parse.langlinks))
                && container == TocView(GetLanguage(selected).direction,
                                        Toc(PageUrl(selected.id, article), parse.sections))
      ensures Classify(reply).Failed? ==>
                latest == None && container == Alert(Classify(reply).failure)
    {
      pending := false;
      match Classify(reply)
      case Succeeded(parse) =>
        latest := Some(Snapshot(article, parse.langlinks));
        var language := GetLanguage(selected);
        var tokens := PresentToc(PageUrl(language.id, article), parse.sections);
        container := TocView(language.direction, tokens);
      case Failed(failure) =>
        container := Alert(failure);
    }

    /** The language selector's change handler, with `option` newly selected. It reports
        how many fetches it started: one when the shortcut applies, after putting the
        linked title into the input; none otherwise, and then nothing else changes. */
    method OnLanguageChange(option: LanguageOption) returns (fetches: nat)
      requires Valid()
      modifies this
      ensures Valid()
      ensures selected == option
      ensures var target := Shortcut(old(latest), old(article), option.id);
              if target.Some? then
                && fetches == 1
                && article == target.value
                && latest == None && container == Blank && pending
                && requests == old(requests) + [ApiRequest(option.id, target.value)]
              else
                && fetches == 0
                && article == old(article) && latest == old(latest)
                && container == old(container) && requests == old(requests)
                && pending == old(pending)
    {
      selected := option;
      fetches := 0;
      var language := GetLanguage(option);
      if latest.Some? && latest.value.article == article {
        var found := FindLink(latest.value.links, language.id);
        if found.Some? {
          article := latest.value.links[found.value].title;
          StartFetch();
          fetches := 1;
        }
      }
    }
  }

  /** A session that follows a successful fetch with a language switch: the shortcut fires
      once; its fetch ends in an API error, which leaves the snapshot unset, so a second
      switch starts no fetch. */
  method SwitchScenario() {
    var english := LanguageOption("en", None);
    var page := new TocPage("Alan Turing", english);
    page.StartFetch();
    var sections := [Section(1, "1", "Early life", "Early_life")];
    var links := [LangLink("de", "Alan Turing"), LangLink("fr", "Alan Turing (fr)")];
    page.OnResponse(Ok(Data(None, Some(Parse(sections, links)))));
    assert page.latest == Some(Snapshot("Alan Turing", links));
    var fetches := page.OnLanguageChange(LanguageOption("fr", Some("ltr")));
    assert fetches == 1 && page.article == "Alan Turing (fr)" && page.latest == None;
    page.OnResponse(Ok(Data(Some(ApiError(Some("No such page"))), None)));
    assert page.container == Alert(Thrown("No such page"));
    fetches := page.OnLanguageChange(english);
    assert fetches == 0;
  }
}
