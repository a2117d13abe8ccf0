/** The `capture-paypal-order` serverless handler: capture a PayPal order,
    then (optionally) transfer the purchased daily idea to the buyer and
    upgrade the buyer to `pro`. Each database step is a separate call that
    can fail; nothing is rolled back, so a failure leaves the steps already
    taken in place. The PayPal capture and each step's failure are
    parameters. */
module Purchase {
  import opened Domain
  import opened DailyIdeas

  /** The credentials read from the environment; `""` stands for unset. */
  datatype Credentials = Credentials(clientId: string, clientSecret: string)

  /** The request body. A string field that is missing, `null` or `""` is
      `None` or `Some("")`; `ideaId` is `None` when missing or `null`, and
      otherwise the number sent, which may be the falsy 0. `Unparsable` is a
      body `req.json()` rejects and `NullBody` the JSON `null`, which cannot
      be destructured. */
  datatype CaptureBody =
    | Unparsable
    | NullBody
    | Fields(orderId: Option<string>, userId: Option<UserId>, ideaId: Option<nat>)

  /** The answer of PayPal's capture endpoint: the receipt on success, the
      provider's error message (possibly empty) otherwise. */
  datatype Payment = Captured(receipt: string) | Declined(message: string)

  /** Which database step fails, if any. */
  datatype Faults = Faults(fetchFails: bool, markSoldFails: bool, insertFails: bool, profileFails: bool)

  datatype Response = Preflight | Ok(receipt: string, newIdeaId: Option<nat>) | BadRequest(message: string)
  {
    function HttpStatus(): int
    {
      match this
      case Preflight => 200
      case Ok(_, _) => 200
      case BadRequest(_) => 400
    }
  }

  const CredentialsMessage: string := "PayPal API credentials are not set."
  const MissingFieldsMessage: string := "Missing orderID or userId."
  const ParseMessage: string := "Unexpected request body"
  const NullBodyMessage: string := "Cannot destructure the request body"
  const DefaultCaptureMessage: string := "Failed to capture PayPal order"
  const NotAvailableMessage: string := "Idea to be purchased not found or already sold."
  const MarkSoldMessage: string := "Failed to mark idea as sold."
  const TransferMessage: string := "Failed to transfer idea ownership."
  const ProfileMessage: string := "Failed to update user profile after purchase."

  predicate Present(s: Option<string>)
  {
    s.Some? && s.value != ""
  }

  /** The checks made before PayPal is called, in the handler's order: the
      credentials, the body, then `orderID` and `userId`. `None` when all pass. */
  function InputError(creds: Credentials, body: CaptureBody): (r: Option<string>)
    ensures r.None? <==> creds.clientId != "" && creds.clientSecret != "" && body.Fields?
                         && Present(body.orderId) && Present(body.userId)
    ensures creds.clientId == "" || creds.clientSecret == "" ==> r == Some(CredentialsMessage)
  {
    if creds.clientId == "" || creds.clientSecret == "" then Some(CredentialsMessage)
    else match body
      case Unparsable => Some(ParseMessage)
      case NullBody => Some(NullBodyMessage)
      case Fields(orderId, userId, _) =>
        if !Present(orderId) || !Present(userId) then Some(MissingFieldsMessage) else None
  }

  /** `if (ideaId)`: the daily idea to buy, if the body names one. A missing
      id, `null` and the falsy 0 all mean a plain subscription purchase. */
  function IdeaToBuy(ideaId: Option<nat>): (r: Option<IdeaId>)
    ensures r.None? <==> ideaId.None? || ideaId.value == 0
    ensures r.Some? ==> r.value == ideaId.value
  {
    if ideaId.Some? && ideaId.value != 0 then Some(ideaId.value) else None
  }

  /** `errorData.message || "Failed to capture PayPal order"`. */
  function DeclineMessage(message: string): (r: string)
    ensures r != ""
    ensures message != "" ==> r == message
  {
    if message != "" then message else DefaultCaptureMessage
  }

  /** The owned copy of a purchased daily idea: the `ideas` row the handler
      inserts, field by field from `idea_data`. No fit score is copied. */
  function CloneForBuyer(data: IdeaData, buyer: UserId): (o: OwnedIdea)
    ensures o.userId == buyer && o.fitScore.None?
    ensures o.title == data.idea.title && o.problem == data.idea.problem
    ensures o.solution == data.idea.solution && o.market == data.idea.market
    ensures o.analysis == data.analysis && o.trendData == data.trends && o.goToMarket == data.goToMarket
    ensures o.attributes == data.attributes && o.healthMetrics == data.healthMetrics
    ensures o.valueLadder == data.valueLadder
  {
    OwnedIdea(buyer, data.idea.title, data.idea.problem, data.idea.solution, data.idea.market,
              data.analysis, data.trends, data.goToMarket, data.attributes, data.healthMetrics,
              data.valueLadder, None)
  }

  /** `update({ subscription_status: 'pro' }).eq('id', userId)`: changes the
      buyer's row only; when the buyer has no row, nothing is updated and no
      error is reported. */
  function UpgradeToPro(profiles: map<UserId, Profile>, buyer: UserId): (r: map<UserId, Profile>)
    ensures r.Keys == profiles.Keys
    ensures buyer in profiles ==> r[buyer] == profiles[buyer].(subscription := Some("pro"))
    ensures forall u :: u in profiles && u != buyer ==> r[u] == profiles[u]
  {
    if buyer in profiles then profiles[buyer := profiles[buyer].(subscription := Some("pro"))]
    else profiles
  }

  /** The store the handler works on: `daily_ideas` by id, `ideas` by the id
      the database assigns (below `nextOwnedId`), and `profiles` by user id.
      `dailyIdeas` is the same table as `DailyIdeasTable.rows`, indexed by
      `id`: this handler looks rows up by id, where the other handler scans
      them in order. */
  class Backend {
    var dailyIdeas: map<IdeaId, DailyIdeaRow>
    var owned: map<nat, OwnedIdea>
    var nextOwnedId: nat
    var profiles: map<UserId, Profile>

    ghost predicate Valid()
      reads this
    {
      forall k :: k in owned ==> k < nextOwnedId
    }

    constructor (dailyIdeas: map<IdeaId, DailyIdeaRow>, profiles: map<UserId, Profile>)
      ensures Valid()
      ensures this.dailyIdeas == dailyIdeas && this.profiles == profiles
      ensures owned == map[] && nextOwnedId == 0
    {
      this.dailyIdeas := dailyIdeas;
      this.profiles := profiles;
      owned := map[];
      nextOwnedId := 0;
    }

    /** `insert(...).select('id')` into `ideas`. */
    method InsertOwned(o: OwnedIdea) returns (id: nat)
      requires Valid()
      modifies this`owned, this`nextOwnedId
      ensures Valid()
      ensures id == old(nextOwnedId) && id !in old(owned) && nextOwnedId == id + 1
      ensures owned == old(owned)[id := o]
    {
      id := nextOwnedId;
      owned := owned[id := o];
      nextOwnedId := nextOwnedId + 1;
    }

    /** The handler. */
    method CaptureOrder(verb: HttpMethod, creds: Credentials, body: CaptureBody, payment: Payment, faults: Faults)
      returns (resp: Response)
      requires Valid()
      modifies this
      ensures Valid()
      // No daily idea ever goes from sold back to available, or changes once sold.
      ensures forall k :: k in old(dailyIdeas) && old(dailyIdeas)[k].status == Sold ==>
                k in dailyIdeas && dailyIdeas[k] == old(dailyIdeas)[k]
      ensures dailyIdeas.Keys == old(dailyIdeas.Keys) && old(owned.Keys) <= owned.Keys
      // Pre-flight, a rejected input or a declined payment change nothing.
      ensures verb == Options ==> resp == Response.Preflight && unchanged(this)
      ensures verb != Options && InputError(creds, body).Some? ==>
                resp == BadRequest(InputError(creds, body).value) && unchanged(this)
      ensures verb != Options && InputError(creds, body).None? && payment.Declined? ==>
                resp == BadRequest(DeclineMessage(payment.message)) && unchanged(this)
      // From here on the inputs are valid and the payment has been captured.
      ensures verb != Options && InputError(creds, body).None? && payment.Captured? ==>
        var buyer := body.userId.value;
        match IdeaToBuy(body.ideaId)
        case None =>
          // Subscription purchase: only the buyer's profile changes.
          dailyIdeas == old(dailyIdeas) && owned == old(owned) &&
          if faults.profileFails then resp == BadRequest(ProfileMessage) && profiles == old(profiles)
          else resp == Ok(payment.receipt, None) && profiles == UpgradeToPro(old(profiles), buyer)
        case Some(id) =>
          if faults.fetchFails || id !in old(dailyIdeas) || old(dailyIdeas)[id].status != Available then
            resp == BadRequest(NotAvailableMessage) && unchanged(this)
          else if faults.markSoldFails then
            resp == BadRequest(MarkSoldMessage) && unchanged(this)
          else
            // The idea is sold to the buyer, whatever happens next.
            var row := old(dailyIdeas)[id];
            dailyIdeas == old(dailyIdeas)[id := row.(status := Sold, purchasedBy := Some(buyer))] &&
            if faults.insertFails then
              resp == BadRequest(TransferMessage) && owned == old(owned) && profiles == old(profiles)
            else
              // Exactly one owned copy, under a fresh id.
              var newId := old(nextOwnedId);
              newId !in old(owned) && owned == old(owned)[newId := CloneForBuyer(row.data, buyer)] &&
              if faults.profileFails then resp == BadRequest(ProfileMessage) && profiles == old(profiles)
              else resp == Ok(payment.receipt, Some(newId)) && profiles == UpgradeToPro(old(profiles), buyer)
    {
      if verb == Options {
        return Response.Preflight;
      }
      if creds.clientId == "" || creds.clientSecret == "" {
        return BadRequest(CredentialsMessage);
      }
      if body.Unparsable? {
        return BadRequest(ParseMessage);
      }
      if body.NullBody? {
        return BadRequest(NullBodyMessage);
      }
      var orderId, userId, ideaId := body.orderId, body.userId, body.ideaId;
      if !Present(orderId) || !Present(userId) {
        return BadRequest(MissingFieldsMessage);
      }
      var buyer := userId.value;

      if payment.Declined? {
        return BadRequest(DeclineMessage(payment.message));
      }
      var capture := payment.receipt;
      var newIdeaId: Option<nat> := None;

      var toBuy := IdeaToBuy(ideaId);
      if toBuy.Some? {
        var id := toBuy.value;
        if faults.fetchFails || id !in dailyIdeas || dailyIdeas[id].status != Available {
          return BadRequest(NotAvailableMessage);
        }
        var dailyIdea := dailyIdeas[id];

        if faults.markSoldFails {
          return BadRequest(MarkSoldMessage);
        }
        dailyIdeas := dailyIdeas[id := dailyIdea.(status := Sold, purchasedBy := Some(buyer))];

        if faults.insertFails {
          return BadRequest(TransferMessage);
        }
        var inserted := InsertOwned(CloneForBuyer(dailyIdea.data, buyer));
        newIdeaId := Some(inserted);
      }

      if faults.profileFails {
        return BadRequest(ProfileMessage);
      }
      profiles := UpgradeToPro(profiles, buyer);
      resp := Ok(capture, newIdeaId);
    }
  }
}
