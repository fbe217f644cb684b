/**
 * The campaign registry of the HTTP server: one table of campaigns keyed by
 * id, and the route handlers that read and change it.
 *
 *   POST   /api/campaigns       create a pending campaign and ask for a payment
 *   GET    /api/campaigns       list approved campaigns, newest first
 *   GET    /api/campaigns/:id   fetch one campaign, optionally approving it
 *   DELETE /api/campaigns/:id   remove a campaign, behind the admin password
 *   POST   /api/webhook         approve the campaign a confirmed payment refers to
 *
 * The clock, the environment, the request headers and the payment provider's
 * answers are parameters of the handlers.
 */
module Registry {
  import opened Wrappers
  import Text

  datatype Status = Pending | Approved

  /** One row of the campaigns table (its id is the key). */
  datatype Campaign = Campaign(name: string, frameImage: string, status: Status, createdAt: nat)

  type Table = map<string, Campaign>

  /** A row of the public listing: the projection of a campaign to id and name. */
  datatype Listing = Listing(id: string, name: string)

  const AdminPassword: string := "914614"
  const IdPrefix: string := "camp-"

  const MissingFieldsMessage: string := "Name and frame_image are required"
  const TokenMissingMessage: string := "Mercado Pago access token (MP_ACCESS_TOKEN) is not configured in Secrets."
  const DuplicateIdMessage: string := "UNIQUE constraint failed: campaigns.id"
  const NotFoundMessage: string := "Campaign not found"
  const WrongPasswordMessage: string := "Senha incorreta"

  // ------------------------------------------------------------------ ids

  /** The id of a campaign created at `nowMillis` milliseconds: `camp-` and the decimal time. */
  function CampaignId(nowMillis: nat): string {
    IdPrefix + Text.Decimal(nowMillis)
  }

  /** Creations at different milliseconds get different ids. */
  lemma CampaignIdInjective(a: nat, b: nat)
    ensures CampaignId(a) == CampaignId(b) <==> a == b
  {
    if CampaignId(a) == CampaignId(b) {
      assert Text.Decimal(a) == CampaignId(a)[|IdPrefix|..];
      assert Text.Decimal(b) == CampaignId(b)[|IdPrefix|..];
      Text.DecimalInjective(a, b);
    }
  }

  // ------------------------------------------------------------ base url

  /** `http` for a host naming localhost, `https` otherwise. */
  function Protocol(host: string): string {
    if Text.Includes(host, "localhost") then "http" else "https"
  }

  /** The origin the payment provider sends the payer back to: APP_URL, else the Origin header, else protocol://host. */
  function BaseUrl(appUrl: string, origin: string, host: string): string {
    if appUrl != "" then appUrl
    else if origin != "" then origin
    else Protocol(host) + "://" + host
  }

  /** The fallback base is plain http exactly when "localhost" occurs somewhere in the host. */
  lemma BaseUrlFallback(host: string)
    ensures BaseUrl("", "", host) == "http://" + host <==> exists i :: Text.OccursAt(host, "localhost", i)
    ensures BaseUrl("", "", host) == "https://" + host <==> !exists i :: Text.OccursAt(host, "localhost", i)
  {
    Text.IncludesIffOccurs(host, "localhost");
    var b := BaseUrl("", "", host);
    if Protocol(host) == "http" {
      assert b[4] == ':';
      assert ("https://" + host)[4] == 's';
    }
  }

  /** A configured APP_URL always wins; otherwise a non-empty Origin header does. */
  lemma BaseUrlPrefersConfigured(appUrl: string, origin: string, host: string)
    ensures appUrl != "" ==> BaseUrl(appUrl, origin, host) == appUrl
    ensures appUrl == "" && origin != "" ==> BaseUrl(appUrl, origin, host) == origin
    ensures BaseUrl(appUrl, origin, host) != ""
  {
  }

  // ---------------------------------------------------- payment preference

  /** What the server asks the payment provider to create for a new campaign. */
  datatype Preference = Preference(
    itemId: string,
    title: string,
    quantity: nat,
    currency: string,
    successUrl: string,
    failureUrl: string,
    pendingUrl: string,
    autoReturn: string,
    notificationUrl: string,
    statementDescriptor: string,
    externalReference: string)

  function SuccessUrl(baseUrl: string, id: string): string {
    baseUrl + "/?payment_status=approved&campaign_id=" + id
  }

  function PreferenceFor(name: string, id: string, baseUrl: string): Preference {
    Preference(
      "criacao-campanha",
      "Criação de Campanha: " + name,
      1,
      "BRL",
      SuccessUrl(baseUrl, id),
      baseUrl + "/?payment_status=failed",
      baseUrl + "/?payment_status=pending",
      "approved",
      baseUrl + "/api/webhook",
      "CAMPANHA_DIGITAL",
      id)
  }

  // ------------------------------------------------------ table updates

  /** `UPDATE campaigns SET status = 'approved' WHERE id = ?`: a no-op for an unknown id. */
  function Approve(t: Table, id: string): (r: Table)
    ensures r.Keys == t.Keys
    ensures id in t ==> r[id].status == Approved
    ensures forall k :: k in t ==> r[k].name == t[k].name && r[k].frameImage == t[k].frameImage && r[k].createdAt == t[k].createdAt
    ensures forall k :: k in t && k != id ==> r[k] == t[k]
  {
    if id in t then t[id := t[id].(status := Approved)] else t
  }

  /** What every handler keeps: rows that stay keep name, frame and creation time, and approved rows stay approved. */
  predicate NeverUnapproves(before: Table, after: Table) {
    forall id :: id in before && id in after ==>
      && after[id].name == before[id].name
      && after[id].frameImage == before[id].frameImage
      && after[id].createdAt == before[id].createdAt
      && (before[id].status == Approved ==> after[id].status == Approved)
  }

  /** Approving twice is approving once. */
  lemma ApproveIdempotent(t: Table, id: string)
    ensures Approve(Approve(t, id), id) == Approve(t, id)
  {
  }

  /** The webhook and the redirect approve independently: their order does not matter. */
  lemma ApproveCommutes(t: Table, a: string, b: string)
    ensures Approve(Approve(t, a), b) == Approve(Approve(t, b), a)
  {
  }

  lemma ApproveNeverUnapproves(t: Table, id: string)
    ensures NeverUnapproves(t, Approve(t, id))
  {
  }

  // ------------------------------------------------------------ listing

  function ApprovedIds(t: Table): set<string> {
    set id | id in t && t[id].status == Approved
  }

  /** Ids whose creation times never increase along the sequence. */
  predicate NewestFirst(t: Table, ids: seq<string>) {
    && (forall i :: 0 <= i < |ids| ==> ids[i] in t)
    && (forall i, j :: 0 <= i < j < |ids| ==> t[ids[i]].createdAt >= t[ids[j]].createdAt)
  }

  predicate Distinct(ids: seq<string>) {
    forall i, j :: 0 <= i < j < |ids| ==> ids[i] != ids[j]
  }

  /**
   * `SELECT id, name FROM campaigns WHERE status = 'approved' ORDER BY created_at DESC`:
   * each approved row once, projected to id and name, newest first; rows created in the
   * same second may come in any order.
   */
  predicate IsApprovedListing(t: Table, rows: seq<Listing>) {
    && (forall i, j :: 0 <= i < j < |rows| ==> rows[i].id != rows[j].id)
    && (forall i :: 0 <= i < |rows| ==> rows[i].id in ApprovedIds(t) && rows[i].name == t[rows[i].id].name)
    && (forall id :: id in ApprovedIds(t) ==> exists i :: 0 <= i < |rows| && rows[i].id == id)
    && (forall i, j :: 0 <= i < j < |rows| ==> t[rows[i].id].createdAt >= t[rows[j].id].createdAt)
  }

  /** Puts `id` into a newest-first sequence, before the first row that is not newer than it. */
  function InsertNewestFirst(t: Table, ids: seq<string>, id: string): (r: seq<string>)
    requires id in t && NewestFirst(t, ids)
    ensures |r| == |ids| + 1
    ensures forall x :: x in r <==> x in ids || x == id
    ensures NewestFirst(t, r)
    ensures Distinct(ids) && id !in ids ==> Distinct(r)
  {
    if ids == [] || t[id].createdAt >= t[ids[0]].createdAt then [id] + ids
    else
      var rest := InsertNewestFirst(t, ids[1..], id);
      assert Distinct(ids) && id !in ids ==> Distinct(ids[1..]) && ids[0] !in rest by {
        if Distinct(ids) && id !in ids {
          assert forall k :: 0 <= k < |ids[1..]| ==> ids[1..][k] == ids[k + 1];
        }
      }
      assert forall k :: 0 <= k < |rest| ==> t[rest[k]].createdAt <= t[ids[0]].createdAt by {
        forall k | 0 <= k < |rest| ensures t[rest[k]].createdAt <= t[ids[0]].createdAt {
          if rest[k] != id {
            assert rest[k] in rest;
            assert rest[k] in ids[1..];
            var m :| 0 <= m < |ids[1..]| && ids[1..][m] == rest[k];
            assert ids[m + 1] == rest[k];
          }
        }
      }
      [ids[0]] + rest
  }

  /** A pending row is not listed; approving an existing row lists it; deleting a row unlists it. */
  lemma ListingLifecycle(t: Table, id: string, row: Campaign)
    requires row.status == Pending
    ensures ApprovedIds(t[id := row]) == ApprovedIds(t) - {id}
    ensures ApprovedIds(Approve(t[id := row], id)) == ApprovedIds(t) + {id}
    ensures ApprovedIds(t - {id}) == ApprovedIds(t) - {id}
  {
  }

  // ------------------------------------------------------------ replies

  datatype CreateReply =
    | MissingFields                                  // 400
    | CreateFailed(message: string)                  // 500
    | Created(id: string, initPoint: string)         // 200
  {
    function Code(): nat {
      match this
      case MissingFields => 400
      case CreateFailed(_) => 500
      case Created(_, _) => 200
    }
  }

  datatype GetReply =
    | Found(id: string, row: Campaign)               // 200, the whole row
    | NotFound                                       // 404
  {
    function Code(): nat {
      if Found? then 200 else 404
    }
  }

  datatype DeleteReply =
    | WrongPassword                                  // 401 {error}
    | Deleted                                        // 200 {success: true}
  {
    function Code(): nat {
      if Deleted? then 200 else 401
    }
  }

  /** What the payment provider answered when the webhook looked a payment up. */
  datatype PaymentLookup = LookupFailed | PaymentInfo(status: string, externalReference: string)

  /** The webhook approves only a confirmed payment notification that names its campaign. */
  predicate WebhookApproves(kind: string, dataId: string, accessToken: string, payment: PaymentLookup) {
    && kind == "payment"
    && dataId != ""
    && accessToken != ""
    && payment.PaymentInfo?
    && payment.status == "approved"
    && payment.externalReference != ""
  }

  // ------------------------------------------------------------ handlers

  class CampaignStore {
    var campaigns: Table

    constructor ()
      ensures campaigns == map[]
    {
      campaigns := map[];
    }

    /**
     * POST /api/campaigns. `accessToken`, `appUrl` are the environment, `origin`, `host` the
     * request headers ("" when absent), `nowMillis` the server clock, `nowSeconds` the database
     * clock, and `preference` what the payment provider answers (an init point or an error).
     * The row is written before the provider is asked, so it stays when the provider fails.
     */
    method Create(name: string, frameImage: string, accessToken: string, appUrl: string,
                  origin: string, host: string, nowMillis: nat, nowSeconds: nat,
                  preference: Result<string, string>)
      returns (reply: CreateReply, sent: Option<Preference>)
      modifies this
      ensures name == "" || frameImage == "" ==>
        reply == MissingFields && sent == None && campaigns == old(campaigns)
      ensures name != "" && frameImage != "" && accessToken == "" ==>
        reply == CreateFailed(TokenMissingMessage) && sent == None && campaigns == old(campaigns)
      ensures name != "" && frameImage != "" && accessToken != "" && CampaignId(nowMillis) in old(campaigns) ==>
        reply == CreateFailed(DuplicateIdMessage) && sent == None && campaigns == old(campaigns)
      ensures name != "" && frameImage != "" && accessToken != "" && CampaignId(nowMillis) !in old(campaigns) ==>
        && campaigns == old(campaigns)[CampaignId(nowMillis) := Campaign(name, frameImage, Pending, nowSeconds)]
        && sent == Some(PreferenceFor(name, CampaignId(nowMillis), BaseUrl(appUrl, origin, host)))
        && reply == (if preference.Success? then Created(CampaignId(nowMillis), preference.value)
                     else CreateFailed(preference.error))
      ensures NeverUnapproves(old(campaigns), campaigns)
    {
      sent := None;
      if name == "" || frameImage == "" {
        reply := MissingFields;
        return;
      }
      if accessToken == "" {
        reply := CreateFailed(TokenMissingMessage);
        return;
      }
      var id := CampaignId(nowMillis);
      var baseUrl := BaseUrl(appUrl, origin, host);
      if id in campaigns {
        reply := CreateFailed(DuplicateIdMessage);
        return;
      }
      campaigns := campaigns[id := Campaign(name, frameImage, Pending, nowSeconds)];
      sent := Some(PreferenceFor(name, id, baseUrl));
      match preference
      case Success(initPoint) => reply := Created(id, initPoint);
      case Failure(message) => reply := CreateFailed(message);
    }

    /** GET /api/campaigns: the approved campaigns, newest first. */
    method ListApproved() returns (rows: seq<Listing>)
      ensures IsApprovedListing(campaigns, rows)
    {
      var t := campaigns;
      var remaining := t.Keys;
      var ids: seq<string> := [];
      while remaining != {}
        invariant remaining <= t.Keys
        invariant NewestFirst(t, ids) && Distinct(ids)
        invariant forall x :: x in ids <==> x in ApprovedIds(t) && x !in remaining
        decreases remaining
      {
        var id :| id in remaining;
        if t[id].status == Approved {
          ids := InsertNewestFirst(t, ids, id);
        }
        remaining := remaining - {id};
      }
      rows := seq(|ids|, i requires 0 <= i < |ids| && ids[i] in t => Listing(ids[i], t[ids[i]].name));
      assert forall i :: 0 <= i < |rows| ==> rows[i].id == ids[i];
      forall id | id in ApprovedIds(t) ensures exists i :: 0 <= i < |rows| && rows[i].id == id {
        var i :| 0 <= i < |ids| && ids[i] == id;
        assert rows[i].id == id;
      }
    }

    /** GET /api/campaigns/:id, with `forceApprove` the `force_approve` query value (None when absent). */
    method Get(id: string, forceApprove: Option<string>) returns (reply: GetReply)
      modifies this
      ensures campaigns == if forceApprove == Some("true") then Approve(old(campaigns), id) else old(campaigns)
      ensures reply == if id in campaigns then Found(id, campaigns[id]) else NotFound
      ensures reply.NotFound? <==> id !in old(campaigns)
      ensures NeverUnapproves(old(campaigns), campaigns)
    {
      if forceApprove == Some("true") {
        campaigns := Approve(campaigns, id);
      }
      if id in campaigns {
        reply := Found(id, campaigns[id]);
      } else {
        reply := NotFound;
      }
    }

    /** DELETE /api/campaigns/:id, with the password from the request body ("" when absent). */
    method Delete(id: string, password: string) returns (reply: DeleteReply)
      modifies this
      ensures password != AdminPassword ==> reply == WrongPassword && campaigns == old(campaigns)
      ensures password == AdminPassword ==> reply == Deleted && campaigns == old(campaigns) - {id}
      ensures NeverUnapproves(old(campaigns), campaigns)
    {
      if password != AdminPassword {
        reply := WrongPassword;
        return;
      }
      campaigns := campaigns - {id};
      reply := Deleted;
    }

    /**
     * POST /api/webhook, for a notification of type `kind` about payment `dataId` ("" when
     * absent). `payment` is what looking the payment up returned; lookup failures and a
     * missing access token are logged and swallowed, so the answer is always 200.
     */
    method Webhook(kind: string, dataId: string, accessToken: string, payment: PaymentLookup)
      returns (code: nat)
      modifies this
      ensures code == 200
      ensures campaigns == if WebhookApproves(kind, dataId, accessToken, payment)
                           then Approve(old(campaigns), payment.externalReference)
                           else old(campaigns)
      ensures NeverUnapproves(old(campaigns), campaigns)
    {
      if kind == "payment" && dataId != "" {
        if accessToken != "" {
          match payment
          case LookupFailed =>
          case PaymentInfo(status, reference) =>
            if status == "approved" && reference != "" {
              campaigns := Approve(campaigns, reference);
            }
        }
      }
      code := 200;
    }
  }
}
