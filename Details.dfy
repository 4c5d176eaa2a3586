/**
 * The details tab of a trip: the form that attaches a link to the trip. The
 * URL validator and the link server are not part of the model: the validator
 * enters as a predicate and the server's answers as parameters.
 */
module Details {
  import opened Wrappers
  import opened Strings
  import opened Alerts

  /** A link of the trip as the server lists it. */
  datatype Link = Link(id: string, title: string, url: string)

  /** What is sent to the link server. */
  datatype LinkRequest = LinkRequest(tripId: string, title: string, url: string)

  const InvalidUrlAlert := Alert("Link", "URL inválido!")
  const InvalidTitleAlert := Alert("Link", "Título inválido!")
  const LinkCreatedAlert := Alert("Link", "Link criado com sucesso!")

  /** The outcome of the two checks of the form. */
  datatype LinkCheck = BadUrl | BadTitle | LinkReady

  /**
   * The checks of "Save link", in their order: the trimmed URL must pass the
   * validator, then the title must not be blank. A bad URL is reported as
   * such whatever the title.
   */
  function CheckLink(title: string, url: string, isUrl: string -> bool): (r: LinkCheck)
    ensures r == BadUrl <==> !isUrl(Trim(url))
    ensures r == BadTitle <==> isUrl(Trim(url)) && IsBlank(title)
    ensures r == LinkReady <==> isUrl(Trim(url)) && !IsBlank(title)
  {
    TrimFacts(title);
    if !isUrl(Trim(url)) then BadUrl
    else if Trim(title) == "" then BadTitle
    else LinkReady
  }

  /** The message shown when a check fails. */
  function CheckAlert(check: LinkCheck): (alert: Option<Alert>)
    ensures alert.None? <==> check == LinkReady
  {
    match check
    case BadUrl => Some(InvalidUrlAlert)
    case BadTitle => Some(InvalidTitleAlert)
    case LinkReady => None
  }

  /** Blanks around the URL are not seen by the validator, so they never change the outcome. */
  lemma CheckLinkIgnoresUrlBlanks(title: string, pre: string, url: string, post: string, isUrl: string -> bool)
    requires IsBlank(pre) && IsBlank(post)
    requires url == [] || (!IsJsWhitespace(url[0]) && !IsJsWhitespace(url[|url| - 1]))
    ensures CheckLink(title, pre + url + post, isUrl) == CheckLink(title, url, isUrl)
  {
    TrimStrips(pre, url, post);
    TrimTrimmed(url);
    CheckLinkSeesTrimmedUrl(title, pre + url + post, url, isUrl);
  }

  /** The checks see the URL only through its trim. */
  lemma CheckLinkSeesTrimmedUrl(title: string, url1: string, url2: string, isUrl: string -> bool)
    requires Trim(url1) == Trim(url2)
    ensures CheckLink(title, url1, isUrl) == CheckLink(title, url2, isUrl)
  {
  }

  /** The state of the details tab, as far as links go. */
  class LinkForm {
    const tripId: string
    var isCreatingLinkTrip: bool
    var isLoadingLinks: bool
    var showNewLinkModal: bool
    var linkTitle: string
    var linkUrl: string
    var links: seq<Link>

    constructor (tripId: string)
      ensures this.tripId == tripId && !isCreatingLinkTrip && isLoadingLinks && !showNewLinkModal
      ensures linkTitle == "" && linkUrl == "" && links == []
    {
      this.tripId := tripId;
      isCreatingLinkTrip := false;
      isLoadingLinks := true;
      showNewLinkModal := false;
      linkTitle := "";
      linkUrl := "";
      links := [];
    }

    /** Clears both fields and closes the modal. */
    method ResetNewLinkFields()
      modifies this`linkTitle, this`linkUrl, this`showNewLinkModal
      ensures linkTitle == "" && linkUrl == "" && !showNewLinkModal
    {
      linkTitle := "";
      linkUrl := "";
      showNewLinkModal := false;
    }

    /**
     * "Save link". A failed check shows its message and sends nothing; the
     * loading flag is then only ever written false. A passing check sends the
     * title and URL exactly as typed, untrimmed; `created` says whether the
     * server accepted them. On success the form is reset and a reload of the
     * links is started (`reloadLinks`), not awaited. `creatingWrites` lists
     * the values written to the loading flag, in order; it always ends off.
     */
    method HandleCreateTripLink(isUrl: string -> bool, created: bool)
      returns (check: LinkCheck, request: Option<LinkRequest>, alert: Option<Alert>,
               creatingWrites: seq<bool>, reloadLinks: bool)
      modifies this`isCreatingLinkTrip, this`linkTitle, this`linkUrl, this`showNewLinkModal
      ensures check == CheckLink(old(linkTitle), old(linkUrl), isUrl)
      ensures !isCreatingLinkTrip
      ensures check != LinkReady ==>
                request == None && alert == CheckAlert(check) && creatingWrites == [false] && !reloadLinks
                && linkTitle == old(linkTitle) && linkUrl == old(linkUrl) && showNewLinkModal == old(showNewLinkModal)
      ensures check == LinkReady ==>
                request == Some(LinkRequest(tripId, old(linkTitle), old(linkUrl))) && creatingWrites == [true, false]
      ensures check == LinkReady && created ==>
                alert == Some(LinkCreatedAlert) && reloadLinks
                && linkTitle == "" && linkUrl == "" && !showNewLinkModal
      ensures check == LinkReady && !created ==>
                alert == None && !reloadLinks
                && linkTitle == old(linkTitle) && linkUrl == old(linkUrl) && showNewLinkModal == old(showNewLinkModal)
    {
      var title, url := linkTitle, linkUrl;
      check := CheckLink(title, url, isUrl);
      creatingWrites := [];
      request, alert, reloadLinks := None, None, false;
      if check == BadUrl {
        alert := Some(InvalidUrlAlert);
      } else if check == BadTitle {
        alert := Some(InvalidTitleAlert);
      } else {
        isCreatingLinkTrip := true;
        creatingWrites := [true];
        request := Some(LinkRequest(tripId, title, url));
        if created {
          alert := Some(LinkCreatedAlert);
          ResetNewLinkFields();
          reloadLinks := true;
        }
      }
      // the finally block
      isCreatingLinkTrip := false;
      creatingWrites := creatingWrites + [false];
    }

    /** Loads the links: a server answer replaces them and ends the loading; a failure changes nothing. */
    method GetTripLinks(fetched: Option<seq<Link>>)
      modifies this`links, this`isLoadingLinks
      ensures fetched.Some? ==> links == fetched.value && !isLoadingLinks
      ensures fetched.None? ==> links == old(links) && isLoadingLinks == old(isLoadingLinks)
    {
      if fetched.Some? {
        links := fetched.value;
        isLoadingLinks := false;
      }
    }

    /** "Register new link" opens the modal. */
    method OpenNewLinkModal()
      modifies this`showNewLinkModal
      ensures showNewLinkModal
    {
      showNewLinkModal := true;
    }

    /** Closing the modal keeps what was typed. */
    method CloseNewLinkModal()
      modifies this`showNewLinkModal
      ensures !showNewLinkModal
    {
      showNewLinkModal := false;
    }

    /** Typing the title. */
    method EditLinkTitle(text: string)
      modifies this`linkTitle
      ensures linkTitle == text
    {
      linkTitle := text;
    }

    /** Typing the URL. */
    method EditLinkUrl(text: string)
      modifies this`linkUrl
      ensures linkUrl == text
    {
      linkUrl := text;
    }
  }

  /** A bad URL is reported even when the title is empty too, and nothing is sent. */
  method BadUrlScenario(isUrl: string -> bool, url: string)
    requires !isUrl(Trim(url))
  {
    var form := new LinkForm("trip");
    form.EditLinkUrl(url);
    var check, request, alert, writes, reload := form.HandleCreateTripLink(isUrl, true);
    assert alert == Some(InvalidUrlAlert) && request == None && writes == [false];
  }

  /** With a good URL the empty title is reported; once a title is typed, the URL is sent as typed. */
  method SaveLinkScenario(isUrl: string -> bool, url: string, title: string)
    requires isUrl(Trim(url)) && !IsBlank(title)
  {
    var form := new LinkForm("trip");
    form.EditLinkUrl(url);
    var check, request, alert, writes, reload := form.HandleCreateTripLink(isUrl, true);
    assert check == BadTitle && alert == Some(InvalidTitleAlert);
    form.EditLinkTitle(title);
    check, request, alert, writes, reload := form.HandleCreateTripLink(isUrl, true);
    assert request == Some(LinkRequest("trip", title, url));
    assert form.linkUrl == "" && !form.showNewLinkModal && reload;
  }
}
