/**
 * How the client and the server fit together: the URLs the server and the
 * share buttons write are the ones the start-up code reads back, and the
 * redirect, webhook and delete paths seen from both ends.
 */
module Integration {
  import opened Wrappers
  import Text
  import Query
  import Registry
  import Client

  /** A server campaign id has only letters, digits and '-', so it passes through a query string as is. */
  lemma CampaignIdQuerySafe(nowMillis: nat)
    ensures Registry.CampaignId(nowMillis) != ""
    ensures Query.QuerySafe(Registry.CampaignId(nowMillis))
  {
    Text.DecimalRoundTrip(nowMillis);
    var id := Registry.CampaignId(nowMillis);
    forall i | 0 <= i < |id| ensures id[i] != '&' && id[i] != '#' && id[i] != '+' && id[i] != '%' {
      if i >= 5 {
        assert id[i] == Text.Decimal(nowMillis)[i - 5];
      }
    }
  }

  lemma LacksAfterPrefix(prefix: string, s: string, c: char)
    requires Text.Lacks(prefix, c) && Text.Lacks(s, c)
    ensures Text.Lacks(prefix + s, c)
  {
    forall i | 0 <= i < |prefix + s| ensures (prefix + s)[i] != c {
      if i >= |prefix| { assert (prefix + s)[i] == s[i - |prefix|]; }
    }
  }

  lemma SearchOfQuery(base: string, query: string)
    requires Text.Lacks(base, '?') && Text.Lacks(base, '#') && Text.Lacks(query, '#')
    ensures Query.SearchOf(base + "/?" + query) == (if query == "" then "" else "?" + query)
  {
    var url := base + "/?" + query;
    assert url == (base + "/") + ['?'] + query;
    assert Text.Lacks(base + "/", '?');
    Query.IndexOfAfter(base + "/", query, '?');
    var rest := url[|base| + 1..];
    assert rest == "?" + query;
    assert Text.Lacks(rest, '#');
    Query.IndexOfAbsent(rest, '#');
  }

  /**
   * The payer's way back: loading the success URL the server gave the payment provider makes
   * the page fetch exactly that campaign with force-approval.
   */
  lemma SuccessUrlRoutesBack(baseUrl: string, id: string)
    requires Text.Lacks(baseUrl, '?') && Text.Lacks(baseUrl, '#')
    requires id != "" && Query.QuerySafe(id)
    ensures Client.StartupRoute(Query.SearchOf(Registry.SuccessUrl(baseUrl, id))) == Client.ForceApproveFetch(id)
  {
    SuccessUrlSearch(baseUrl, id);
    PaymentSearchParams(id);
    RouteOfPaymentParams(Query.SearchOf(Registry.SuccessUrl(baseUrl, id)), id);
  }

  lemma SuccessUrlSearch(baseUrl: string, id: string)
    requires Text.Lacks(baseUrl, '?') && Text.Lacks(baseUrl, '#') && Query.QuerySafe(id)
    ensures Query.SearchOf(Registry.SuccessUrl(baseUrl, id)) == "?" + ("payment_status=approved&campaign_id=" + id)
  {
    var query := "payment_status=approved&campaign_id=" + id;
    assert Registry.SuccessUrl(baseUrl, id) == baseUrl + "/?" + query;
    LacksAfterPrefix("payment_status=approved&campaign_id=", id, '#');
    SearchOfQuery(baseUrl, query);
  }

  lemma PaymentSearchParams(id: string)
    requires Query.QuerySafe(id)
    ensures Query.Params("?" + ("payment_status=approved&campaign_id=" + id))
         == [Query.Param("payment_status", "approved"), Query.Param("campaign_id", id)]
  {
    var query := "payment_status=approved&campaign_id=" + id;
    PaymentQuerySplits(id);
    PaymentQueryPairs(id);
    Query.ParamsDropsQuestionMark(query);
  }

  lemma PaymentQuerySplits(id: string)
    ensures "payment_status=approved&campaign_id=" + id
         == "payment_status" + "=" + "approved" + "&" + "campaign_id" + "=" + id
  {
  }

  lemma PaymentQueryPairs(id: string)
    requires Query.QuerySafe(id)
    ensures Query.ParseQuery("payment_status" + "=" + "approved" + "&" + "campaign_id" + "=" + id)
         == [Query.Param("payment_status", "approved"), Query.Param("campaign_id", id)]
  {
    PaymentNames();
    Query.TwoPairs("payment_status", "approved", "campaign_id", id);
  }

  lemma PaymentNames()
    ensures Text.Lacks("payment_status", '=') && Text.Lacks("payment_status", '&') && Text.Lacks("payment_status", '+')
    ensures Text.Lacks("campaign_id", '=') && Text.Lacks("campaign_id", '&') && Text.Lacks("campaign_id", '+')
    ensures Query.QuerySafe("approved")
  {
  }

  lemma RouteOfPaymentParams(search: string, id: string)
    requires id != ""
    requires Query.Params(search) == [Query.Param("payment_status", "approved"), Query.Param("campaign_id", id)]
    ensures Client.StartupRoute(search) == Client.ForceApproveFetch(id)
  {
    var params := [Query.Param("payment_status", "approved"), Query.Param("campaign_id", id)];
    assert Query.Get(params, "payment_status") == Some("approved");
    assert Query.Get(params, "campaign_id") == Some(id);
  }

  /** A share link opens, for whoever follows it, a plain fetch of the shared campaign. */
  lemma ShareLinkRoutesBack(origin: string, id: string)
    requires Text.Lacks(origin, '?') && Text.Lacks(origin, '#')
    requires id != "" && Query.QuerySafe(id)
    ensures Client.StartupRoute(Query.SearchOf(Client.ShareUrl(origin, id))) == Client.DirectFetch(id)
  {
    var query := "c=" + id;
    assert Client.ShareUrl(origin, id) == origin + "/?" + query;
    LacksAfterPrefix("c=", id, '#');
    SearchOfQuery(origin, query);
    assert query == "c" + "=" + id;
    Query.ParamsDropsQuestionMark(query);
    Query.SinglePair("c", id);
    var params := [Query.Param("c", id)];
    assert Query.Params("?" + query) == params;
    assert Query.Get(params, "payment_status") == None;
    assert Query.Get(params, "c") == Some(id);
  }

  /** A submission that passes the client's checks never meets the server's 400. */
  lemma SubmissionHasRequiredFields(name: string, frame: Option<string>)
    requires Client.PrepareSubmission(name, frame).Submit?
    ensures Client.PrepareSubmission(name, frame).name != ""
    ensures Client.PrepareSubmission(name, frame).frameImage != ""
  {
  }

  /** What the client concludes from a delete answer: done only on a 2xx with `success: true`. */
  function ClientSeesDeleted(reply: Registry.DeleteReply): bool {
    Client.DeleteReportedDone(200 <= reply.Code() < 300, reply.Deleted?)
  }

  /**
   * The delete button end to end: a cancelled or empty prompt sends nothing; otherwise the
   * server checks the password, and the page reports success exactly when it matched.
   */
  method DeleteFromPage(store: Registry.CampaignStore, id: string, answer: Option<string>)
    returns (requested: bool, reported: bool)
    modifies store
    ensures requested <==> Client.Truthy(answer)
    ensures reported <==> requested && answer.value == Registry.AdminPassword
    ensures store.campaigns == if reported then old(store.campaigns) - {id} else old(store.campaigns)
  {
    var attempt := Client.DeleteRequest(answer);
    requested := attempt.SendDelete?;
    reported := false;
    if attempt.SendDelete? {
      var reply := store.Delete(id, attempt.password);
      reported := ClientSeesDeleted(reply);
    }
  }

  /**
   * A campaign paid for and followed back through the success URL: the page opens it for
   * participation and the public list now shows it. The table may hold other campaigns, and the
   * base URL may come from APP_URL, the Origin header or the Host header.
   */
  method PaidCampaignIsListed(store: Registry.CampaignStore, name: string, frameImage: string,
                              accessToken: string, appUrl: string, origin: string, host: string,
                              nowMillis: nat, nowSeconds: nat, initPoint: string)
    returns (view: Client.View, rows: seq<Registry.Listing>)
    modifies store
    requires name != "" && frameImage != "" && accessToken != ""
    requires Registry.CampaignId(nowMillis) !in store.campaigns
    requires Text.Lacks(Registry.BaseUrl(appUrl, origin, host), '?')
    requires Text.Lacks(Registry.BaseUrl(appUrl, origin, host), '#')
    ensures view == Client.Participate
    ensures exists i :: 0 <= i < |rows| && rows[i] == Registry.Listing(Registry.CampaignId(nowMillis), name)
  {
    var reply, sent := store.Create(name, frameImage, accessToken, appUrl, origin, host, nowMillis, nowSeconds,
                                    Success(initPoint));
    var id := Registry.CampaignId(nowMillis);
    CampaignIdQuerySafe(nowMillis);
    SuccessUrlRoutesBack(Registry.BaseUrl(appUrl, origin, host), id);
    var page := new Client.Page();
    var route := Client.StartupRoute(Query.SearchOf(sent.value.successUrl));
    var request := page.Startup(Query.SearchOf(sent.value.successUrl));
    var got := store.Get(request.value.id, request.value.forceApprove);
    page.FinishStartup(route, Client.Body(Some(Client.CampaignDoc(id, got.row.name, got.row.frameImage))));
    view := page.view;
    rows := store.ListApproved();
    assert id in Registry.ApprovedIds(store.campaigns);
    var i :| 0 <= i < |rows| && rows[i].id == id;
    assert rows[i] == Registry.Listing(id, name);
  }

  /** When, if ever, the payer's redirect reaches the server relative to the webhook. */
  datatype RedirectTiming = BeforeWebhook | AfterWebhook | NoRedirect

  /**
   * A campaign whose payment is confirmed by the webhook is listed, whether the payer's
   * redirect came before the webhook, after it, or not at all. The table may hold other campaigns.
   */
  method WebhookApprovalIsListed(store: Registry.CampaignStore, name: string, frameImage: string,
                                 accessToken: string, appUrl: string, origin: string, host: string,
                                 nowMillis: nat, nowSeconds: nat, initPoint: string, paymentId: string,
                                 redirect: RedirectTiming)
    returns (rows: seq<Registry.Listing>)
    modifies store
    requires name != "" && frameImage != "" && accessToken != "" && paymentId != ""
    requires Registry.CampaignId(nowMillis) !in store.campaigns
    ensures exists i :: 0 <= i < |rows| && rows[i] == Registry.Listing(Registry.CampaignId(nowMillis), name)
  {
    var reply, sent := store.Create(name, frameImage, accessToken, appUrl, origin, host, nowMillis, nowSeconds,
                                    Success(initPoint));
    var id := Registry.CampaignId(nowMillis);
    if redirect == BeforeWebhook {
      var got := store.Get(id, Some("true"));
    }
    var code := store.Webhook("payment", paymentId, accessToken,
                              Registry.PaymentInfo("approved", sent.value.externalReference));
    if redirect == AfterWebhook {
      var got := store.Get(id, Some("true"));
    }
    rows := store.ListApproved();
    assert id in Registry.ApprovedIds(store.campaigns);
    var i :| 0 <= i < |rows| && rows[i].id == id;
    assert rows[i] == Registry.Listing(id, name);
  }
}
