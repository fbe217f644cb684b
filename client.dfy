/**
 * The decisions the single-page client makes without drawing anything: which
 * campaign to load at start-up and which view to show after it, the name of
 * the downloaded picture, the share link and text, the checks before a
 * campaign is submitted or a frame is accepted, and the delete guard.
 */
module Client {
  import opened Wrappers
  import Text
  import Query

  datatype View = Home | Create | List | Participate

  // ------------------------------------------------------------- start-up

  /** The campaign fetch the page starts with, chosen from its query string. */
  datatype StartupFetch = NoFetch | ForceApproveFetch(id: string) | DirectFetch(id: string)

  /** The request a campaign fetch makes: `/api/campaigns/<id>`, with `force_approve=true` or without. */
  datatype CampaignRequest = CampaignRequest(id: string, forceApprove: Option<string>)

  predicate Truthy(o: Option<string>) {
    o.Some? && o.value != ""
  }

  /**
   * Back from a successful payment (`payment_status=approved` with a `campaign_id`) the page
   * loads that campaign approving it; otherwise a `c` parameter loads that campaign as is;
   * otherwise nothing is loaded.
   */
  function StartupRoute(search: string): (r: StartupFetch)
    ensures r.ForceApproveFetch? <==>
      Query.Get(Query.Params(search), "payment_status") == Some("approved")
      && Truthy(Query.Get(Query.Params(search), "campaign_id"))
    ensures r.ForceApproveFetch? ==> Query.Get(Query.Params(search), "campaign_id") == Some(r.id)
    ensures r.DirectFetch? ==>
      && !(Query.Get(Query.Params(search), "payment_status") == Some("approved")
           && Truthy(Query.Get(Query.Params(search), "campaign_id")))
      && Query.Get(Query.Params(search), "c") == Some(r.id)
    ensures r.NoFetch? <==>
      && !(Query.Get(Query.Params(search), "payment_status") == Some("approved")
           && Truthy(Query.Get(Query.Params(search), "campaign_id")))
      && !Truthy(Query.Get(Query.Params(search), "c"))
    ensures r.ForceApproveFetch? || r.DirectFetch? ==> r.id != ""
  {
    var params := Query.Params(search);
    var status := Query.Get(params, "payment_status");
    var campId := Query.Get(params, "campaign_id");
    var directId := Query.Get(params, "c");
    if status == Some("approved") && Truthy(campId) then ForceApproveFetch(campId.value)
    else if Truthy(directId) then DirectFetch(directId.value)
    else NoFetch
  }

  function StartupRequest(route: StartupFetch): (r: Option<CampaignRequest>)
    ensures r.None? <==> route.NoFetch?
    ensures r.Some? ==> r.value.id == route.id && (r.value.forceApprove == Some("true") <==> route.ForceApproveFetch?)
  {
    match route
    case NoFetch => None
    case ForceApproveFetch(id) => Some(CampaignRequest(id, Some("true")))
    case DirectFetch(id) => Some(CampaignRequest(id, None))
  }

  /** The fields of a fetched campaign the page uses ("" for a missing field). */
  datatype CampaignDoc = CampaignDoc(id: string, name: string, frameImage: string)

  /** How a campaign fetch ended: it threw, or it produced a JSON body that may or may not be a campaign. */
  datatype FetchOutcome = FetchError | Body(campaign: Option<CampaignDoc>)

  /** `data && data.frame_image`: the body is a campaign with a frame to draw. */
  predicate HasFrame(outcome: FetchOutcome) {
    outcome.Body? && outcome.campaign.Some? && outcome.campaign.value.frameImage != ""
  }

  // ---------------------------------------------------------- downloads

  /** `s.replace(/\s+/g, '-')`: every maximal run of white space becomes one '-'. */
  function Dasherize(s: string): string
    decreases |s|
  {
    if s == [] then []
    else if Text.IsSpace(s[0]) then ['-'] + Dasherize(Text.TrimStart(s[1..]))
    else [s[0]] + Dasherize(s[1..])
  }

  /** The stem of the download name: runs of white space to '-', then lower case. */
  function Slug(s: string): string {
    Text.Lower(Dasherize(s))
  }

  const DefaultStem: string := "campanha"

  lemma {:induction false} DasherizeNoSpace(s: string)
    ensures Text.NoSpace(Dasherize(s))
    ensures s != [] ==> Dasherize(s) != []
    decreases |s|
  {
    if s == [] {
    } else if Text.IsSpace(s[0]) {
      DasherizeNoSpace(Text.TrimStart(s[1..]));
    } else {
      DasherizeNoSpace(s[1..]);
    }
  }

  /** A string without white space is left as it is. */
  lemma {:induction false} DasherizeSpaceFree(s: string)
    requires Text.NoSpace(s)
    ensures Dasherize(s) == s
    decreases |s|
  {
    if s != [] {
      assert !Text.IsSpace(s[0]);
      DasherizeSpaceFree(s[1..]);
    }
  }

  /** A word, then a run of white space, then the rest: the run turns into exactly one '-'. */
  lemma {:induction false} DasherizeRun(word: string, run: string, rest: string)
    requires Text.NoSpace(word) && run != [] && Text.AllSpace(run)
    requires rest == [] || !Text.IsSpace(rest[0])
    ensures Dasherize(word + run + rest) == word + "-" + Dasherize(rest)
    decreases |word|
  {
    if word == [] {
      assert word + run + rest == run + rest;
      SkipRun(run[1..], rest);
      assert (run + rest)[1..] == run[1..] + rest;
    } else {
      assert (word + run + rest)[1..] == word[1..] + run + rest;
      DasherizeRun(word[1..], run, rest);
    }
  }

  lemma {:induction false} SkipRun(run: string, rest: string)
    requires Text.AllSpace(run)
    requires rest == [] || !Text.IsSpace(rest[0])
    ensures Text.TrimStart(run + rest) == rest
    decreases |run|
  {
    if run != [] {
      assert (run + rest)[1..] == run[1..] + rest;
      SkipRun(run[1..], rest);
    } else {
      assert run + rest == rest;
    }
  }

  /** Slugging a slug changes nothing. */
  lemma SlugIdempotent(s: string)
    ensures Slug(Slug(s)) == Slug(s)
  {
    DasherizeNoSpace(s);
    Text.LowerKeepsNoSpaceAndIsIdempotent(Dasherize(s));
    DasherizeSpaceFree(Slug(s));
  }

  /** The file name `handleDownload` saves the picture under. */
  function DownloadName(active: Option<CampaignDoc>): (f: string)
    ensures |f| > 4 && f[|f| - 4..] == ".png"
    ensures Text.NoSpace(f[..|f| - 4])
    ensures active.Some? && active.value.name != "" ==> f[..|f| - 4] == Slug(active.value.name)
    ensures active.None? || active.value.name == "" ==> f == "campanha.png"
  {
    var stem := if active.Some? && active.value.name != "" then active.value.name else DefaultStem;
    SlugShape(stem);
    DefaultStemIsSlug();
    WithExtension(Slug(stem), ".png");
    Slug(stem) + ".png"
  }

  lemma SlugShape(s: string)
    ensures Text.NoSpace(Slug(s))
    ensures s != [] ==> Slug(s) != []
  {
    DasherizeNoSpace(s);
    Text.LowerKeepsNoSpaceAndIsIdempotent(Dasherize(s));
  }

  lemma DefaultStemIsSlug()
    ensures Slug(DefaultStem) == DefaultStem
  {
    LowercaseWordIsSlug(DefaultStem);
  }

  /** A word of ASCII lower-case letters is its own slug. */
  lemma LowercaseWordIsSlug(s: string)
    requires forall i :: 0 <= i < |s| ==> 'a' <= s[i] <= 'z'
    ensures Slug(s) == s
  {
    DasherizeSpaceFree(s);
  }

  lemma WithExtension(stem: string, ext: string)
    ensures (stem + ext)[..|stem|] == stem && (stem + ext)[|stem|..] == ext
  {
  }

  // ---------------------------------------------------------------- share

  /** A row of the campaign list as the page receives it. */
  datatype ListItem = ListItem(id: string, name: string)

  /** What is handed to the share sheet. */
  datatype ShareMessage = ShareMessage(title: string, text: string, url: string)

  function ShareUrl(origin: string, id: string): string {
    origin + "/?c=" + id
  }

  function ShareText(name: string): string {
    "Participe da campanha: " + name + "! Crie sua foto personalizada aqui:"
  }

  /** Sharing from a row of the list (`shareCampaignFromList`). */
  function ShareFromList(origin: string, camp: ListItem): ShareMessage {
    ShareMessage(camp.name, ShareText(camp.name), ShareUrl(origin, camp.id))
  }

  /** Sharing the open campaign (`handleShareLink`); nothing without one. */
  function ShareActive(origin: string, active: Option<CampaignDoc>): Option<ShareMessage> {
    match active
    case None => None
    case Some(doc) =>
      Some(ShareMessage(doc.name,
                        "Participe da campanha: " + doc.name + "! Crie sua foto personalizada aqui:",
                        origin + "/?c=" + doc.id))
  }

  /** What is copied when the browser has no share sheet. */
  function ClipboardText(m: ShareMessage): string {
    m.text + " " + m.url
  }

  /** Both share buttons produce the same message, and so the same clipboard text, for the same campaign. */
  lemma SharesAgree(origin: string, doc: CampaignDoc)
    ensures ShareActive(origin, Some(doc)) == Some(ShareFromList(origin, ListItem(doc.id, doc.name)))
    ensures ClipboardText(ShareActive(origin, Some(doc)).value) == ShareText(doc.name) + " " + ShareUrl(origin, doc.id)
  {
  }

  // ------------------------------------------------------------ submission

  const MaxFrameBytes: nat := 2 * 1024 * 1024
  const MaxPayloadLength: nat := 4 * 1024 * 1024

  /** UTF-16 length of one character once `JSON.stringify` has escaped it inside a string. */
  function JsonCharLength(c: char): nat {
    if c == '"' || c == '\\' || c == '\U{8}' || c == '\U{C}' || c == '\n' || c == '\r' || c == '\t' then 2
    else if c < ' ' then 6
    else if c as int > 0xFFFF then 2
    else 1
  }

  function EscapedLength(s: string): nat {
    if s == [] then 0 else JsonCharLength(s[0]) + EscapedLength(s[1..])
  }

  /** `JSON.stringify({ name, frame_image }).length`. */
  function PayloadLength(name: string, frameImage: string): nat {
    |"{\"name\":"| + (2 + EscapedLength(name)) + |",\"frame_image\":"| + (2 + EscapedLength(frameImage)) + |"}"|
  }

  lemma {:induction false} EscapedLengthBounds(s: string)
    ensures |s| <= EscapedLength(s) <= 6 * |s|
  {
    if s != [] {
      EscapedLengthBounds(s[1..]);
    }
  }

  /** The payload is the two strings plus at least 28 characters of JSON around them, and at most six per character. */
  lemma PayloadLengthBounds(name: string, frameImage: string)
    ensures 28 + |name| + |frameImage| <= PayloadLength(name, frameImage)
    ensures PayloadLength(name, frameImage) <= 28 + 6 * (|name| + |frameImage|)
  {
    EscapedLengthBounds(name);
    EscapedLengthBounds(frameImage);
  }

  datatype Submission = NameMissing | FrameMissing | PayloadTooLarge | Submit(name: string, frameImage: string)

  /** The checks `createCampaign` makes before it sends anything. */
  function PrepareSubmission(name: string, frame: Option<string>): (s: Submission)
    ensures s == NameMissing <==> Text.AllSpace(name)
    ensures s.Submit? <==> && !Text.AllSpace(name) && Truthy(frame)
                           && PayloadLength(name, frame.value) <= MaxPayloadLength
    ensures s.Submit? ==> s.name == name && s.frameImage == frame.value
  {
    Text.TrimEmptyIffAllSpace(name);
    if Text.Trim(name) == "" then NameMissing
    else if !Truthy(frame) then FrameMissing
    else if PayloadLength(name, frame.value) > MaxPayloadLength then PayloadTooLarge
    else Submit(name, frame.value)
  }

  /** A frame data URL longer than 4 MiB less the JSON around it is never sent. */
  lemma LargeFrameNeverSubmitted(name: string, frame: string)
    requires |frame| > MaxPayloadLength - 28 - |name|
    ensures !PrepareSubmission(name, Some(frame)).Submit?
  {
    PayloadLengthBounds(name, frame);
  }

  // ---------------------------------------------------------------- delete

  datatype DeleteAttempt = NoRequest | SendDelete(password: string)

  /** The delete guard: a cancelled (None) or empty password prompt sends nothing. */
  function DeleteRequest(answer: Option<string>): (a: DeleteAttempt)
    ensures a.NoRequest? <==> !Truthy(answer)
    ensures a.SendDelete? ==> a.password == answer.value
  {
    if Truthy(answer) then SendDelete(answer.value) else NoRequest
  }

  /** `res.ok && data.success`: only then is the deletion reported as done. */
  function DeleteReportedDone(responseOk: bool, success: bool): bool {
    responseOk && success
  }

  // ------------------------------------------------------------------ page

  /** The page's state that the handlers change: view, open campaign, frame, loading flag. */
  class Page {
    var view: View
    var active: Option<CampaignDoc>
    /** The image source handed to `loadFrameImage` for the open campaign. */
    var frameSource: Option<string>
    var loading: bool
    /** How many times the campaign list has been requested. */
    var listFetches: nat
    /** The frame being prepared for a new campaign (`campaignFrameBase64`). */
    var draftFrame: Option<string>

    constructor ()
      ensures view == Home && active == None && frameSource == None
      ensures !loading && listFetches == 0 && draftFrame == None
    {
      view := Home;
      active := None;
      frameSource := None;
      loading := false;
      listFetches := 0;
      draftFrame := None;
    }

    /** The start-up effect: pick the fetch from the query string and mark the page as loading if there is one. */
    method Startup(search: string) returns (request: Option<CampaignRequest>)
      modifies this`loading
      ensures request == StartupRequest(StartupRoute(search))
      ensures loading == (request.Some? || old(loading))
    {
      request := StartupRequest(StartupRoute(search));
      if request.Some? {
        loading := true;
      }
    }

    /**
     * The start-up fetch ended. A campaign with a frame opens in the participate view; otherwise
     * the payment path falls back to the list and the direct-link path to home. The loading flag
     * is cleared, except that the payment fallback at once starts a list request, which raises it
     * again until that request ends.
     */
    method FinishStartup(route: StartupFetch, outcome: FetchOutcome)
      requires !route.NoFetch?
      modifies this`view, this`active, this`frameSource, this`loading, this`listFetches
      ensures loading <==> !HasFrame(outcome) && route.ForceApproveFetch?
      ensures HasFrame(outcome) ==>
        && view == Participate && active == outcome.campaign
        && frameSource == Some(outcome.campaign.value.frameImage) && listFetches == old(listFetches)
      ensures !HasFrame(outcome) && route.ForceApproveFetch? ==>
        && view == List && active == old(active) && frameSource == old(frameSource)
        && listFetches == old(listFetches) + 1
      ensures !HasFrame(outcome) && route.DirectFetch? ==>
        && view == Home && active == old(active) && frameSource == old(frameSource)
        && listFetches == old(listFetches)
    {
      loading := false;
      if HasFrame(outcome) {
        Open(outcome.campaign.value);
      } else if route.ForceApproveFetch? {
        listFetches := listFetches + 1;
        loading := true;
        view := List;
      } else {
        view := Home;
      }
    }

    /** Picking a campaign from the list opens it when it has a frame and otherwise leaves the page as it is. */
    method SelectCampaign(outcome: FetchOutcome)
      modifies this`view, this`active, this`frameSource
      ensures HasFrame(outcome) ==>
        view == Participate && active == outcome.campaign && frameSource == Some(outcome.campaign.value.frameImage)
      ensures !HasFrame(outcome) ==>
        view == old(view) && active == old(active) && frameSource == old(frameSource)
    {
      if HasFrame(outcome) {
        Open(outcome.campaign.value);
      }
    }

    method Open(doc: CampaignDoc)
      modifies this`view, this`active, this`frameSource
      ensures view == Participate && active == Some(doc) && frameSource == Some(doc.frameImage)
    {
      active := Some(doc);
      frameSource := Some(doc.frameImage);
      view := Participate;
    }

    /**
     * A frame file was chosen (`size` None when the picker returned nothing). Files over 2 MiB
     * are refused; `rendered` is the re-encoded image, None when it could not be drawn.
     */
    method UploadFrame(size: Option<nat>, rendered: Option<string>)
      modifies this`draftFrame
      ensures size.None? || size.value > MaxFrameBytes ==> draftFrame == old(draftFrame)
      ensures size.Some? && size.value <= MaxFrameBytes ==>
        draftFrame == if rendered.Some? then rendered else old(draftFrame)
    {
      if size.None? || size.value > MaxFrameBytes {
        return;
      }
      if rendered.Some? {
        draftFrame := rendered;
      }
    }
  }
}
