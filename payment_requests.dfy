/** Payment requests (components/PaymentRequests.tsx): the create-request form
    and its checks, the new request prepended to the sent list, the response to
    a received request, and the colour of a status. The two clock reads are
    parameters, `Date.now()` as `nowMs` and `new Date()` as `now`, and
    `new Date(text)` is the parameter `parseDate`. */
module PaymentRequests {
  import opened Base
  import opened Text
  import opened Dates
  import opened Types

  datatype Status = Pending | Paid | Declined

  function StatusText(s: Status): string
  {
    match s
    case Pending => "pending"
    case Paid => "paid"
    case Declined => "declined"
  }

  /** A due date: the outer None is no due date, `Some(None)` a text that is not
      a date. */
  datatype PaymentRequest = PaymentRequest(
    id: string,
    fromUserId: string,
    toUserId: string,
    amount: Option<real>,
    currency: string,
    message: string,
    status: Status,
    relatedSplitId: Option<string>,
    createdAt: DateTime,
    dueDate: Option<Option<DateTime>>,
    fromUserName: string,
    toUserName: string)

  /** The create-request form: every field is text. */
  datatype RequestForm = RequestForm(toUserId: string, amount: string, message: string, dueDate: string)

  const EmptyForm: RequestForm := RequestForm("", "", "", "")

  datatype CreateError = MissingFields | SendFailed

  /** The recipient's name: the friend's display name, or 'Friend' when the id
      is not a friend's or the name is missing or empty. */
  function RecipientName(friends: seq<FriendLink>, id: string): string
  {
    var f := FindFriend(friends, id);
    if f.Some? then OrElse(f.value.displayName, "Friend") else "Friend"
  }

  /** handleCreateRequest's request. An empty recipient id or a blank amount or
      message is refused; without a user `user!.uid` throws and the request
      fails. The id is `Date.now().toString()`. */
  function CreateRequest(form: RequestForm, friends: seq<FriendLink>, user: Option<AuthUser>, nowMs: int, now: DateTime,
                         parseDate: string -> Option<DateTime>): Result<PaymentRequest, CreateError>
  {
    if form.toUserId == "" || IsBlank(form.amount) || IsBlank(form.message) then Err(MissingFields)
    else if user.None? then Err(SendFailed)
    else Ok(PaymentRequest(IntToString(nowMs), user.value.uid, form.toUserId, ParseFloat(form.amount),
      "USD", form.message, Pending, None, now,
      if form.dueDate != "" then Some(parseDate(form.dueDate)) else None,
      "You", RecipientName(friends, form.toUserId)))
  }

  /** Refused exactly when the recipient is not chosen or the amount or message is
      blank; otherwise, with a user, the request is pending, from the user, in US
      dollars, with the message as typed, and the recipient's name falls back to
      'Friend' for an id that is not a friend's. */
  lemma CreateRequestFacts(form: RequestForm, friends: seq<FriendLink>, user: Option<AuthUser>, nowMs: int, now: DateTime,
                           parseDate: string -> Option<DateTime>)
    ensures var r := CreateRequest(form, friends, user, nowMs, now, parseDate);
      (r == Err(MissingFields) <==> form.toUserId == "" || IsBlank(form.amount) || IsBlank(form.message))
      && (r.Ok? <==> form.toUserId != "" && !IsBlank(form.amount) && !IsBlank(form.message) && user.Some?)
      && (r.Ok? ==>
            r.value.status == Pending && r.value.fromUserId == user.value.uid && r.value.fromUserName == "You"
            && r.value.toUserId == form.toUserId && r.value.currency == "USD" && r.value.message == form.message
            && r.value.amount == ParseFloat(form.amount) && r.value.createdAt == now
            && (r.value.dueDate.Some? <==> form.dueDate != "")
            && ((forall f :: f in friends ==> f.friendId != form.toUserId) ==> r.value.toUserName == "Friend"))
  {
  }

  // ------------------------------------------------- responding

  /** handleRespondToRequest's `map`: each request with the id gets the new
      status, every other request is kept. Only statuses change, so the list
      keeps its ids in order. */
  function Respond(reqs: seq<PaymentRequest>, id: string, action: Status): (r: seq<PaymentRequest>)
    ensures |r| == |reqs| && Ids(r) == Ids(reqs)
    ensures forall k :: 0 <= k < |reqs| ==> r[k].(status := reqs[k].status) == reqs[k]
    ensures forall k :: 0 <= k < |reqs| && reqs[k].id == id ==> r[k].status == action
    ensures forall k :: 0 <= k < |reqs| && reqs[k].id != id ==> r[k] == reqs[k]
  {
    seq(|reqs|, k requires 0 <= k < |reqs| => if reqs[k].id == id then reqs[k].(status := action) else reqs[k])
  }

  /** A status change the screen allows: none, or from pending to paid or
      declined, with every other field kept. */
  predicate Moves(a: PaymentRequest, b: PaymentRequest)
  {
    a == b || (a.status == Pending && b.status != Pending && b == a.(status := b.status))
  }

  function Ids(reqs: seq<PaymentRequest>): (r: seq<string>)
    ensures |r| == |reqs| && forall k :: 0 <= k < |reqs| ==> r[k] == reqs[k].id
  {
    seq(|reqs|, k requires 0 <= k < |reqs| => reqs[k].id)
  }

  /** The Decline and Mark Paid buttons exist only on a pending request. When the
      ids are distinct and one of them is pressed, only that request changes, from
      pending to the chosen status; the list keeps its length and order. */
  lemma RespondGuarded(reqs: seq<PaymentRequest>, k: nat, action: Status)
    requires k < |reqs| && reqs[k].status == Pending && action != Pending
    requires NoDuplicates(Ids(reqs))
    ensures var r := Respond(reqs, reqs[k].id, action);
      |r| == |reqs| && r[k] == reqs[k].(status := action)
      && (forall j :: 0 <= j < |reqs| && j != k ==> r[j] == reqs[j])
      && (forall j :: 0 <= j < |reqs| ==> Moves(reqs[j], r[j]))
  {
    var ids := Ids(reqs);
    forall j | 0 <= j < |reqs| && j != k ensures reqs[j].id != reqs[k].id {
      assert ids[j] != ids[k];
    }
  }

  // ------------------------------------------------- status colours

  datatype ColorRole = Warning | Success | ErrorColor | TextSecondary

  /** getStatusColor, with its default case. */
  function StatusColor(status: string): ColorRole
  {
    if status == "pending" then Warning
    else if status == "paid" then Success
    else if status == "declined" then ErrorColor
    else TextSecondary
  }

  /** The three statuses get three different colours, none of them the
      default's; any other text gets the default. */
  lemma StatusColorFacts(s: string)
    ensures StatusColor(StatusText(Pending)) == Warning && StatusColor(StatusText(Paid)) == Success
    ensures StatusColor(StatusText(Declined)) == ErrorColor
    ensures (forall st :: StatusText(st) != s) ==> StatusColor(s) == TextSecondary
    ensures forall st :: StatusColor(StatusText(st)) != TextSecondary
  {
    if forall st :: StatusText(st) != s {
      assert s != StatusText(Pending) && s != StatusText(Paid) && s != StatusText(Declined);
    }
  }

  // ------------------------------------------------- the screen's state

  class RequestsScreen {
    var sentRequests: seq<PaymentRequest>
    var receivedRequests: seq<PaymentRequest>
    var friends: seq<FriendLink>
    var newRequest: RequestForm
    var showCreateRequest: bool

    constructor()
      ensures sentRequests == [] && receivedRequests == [] && friends == []
      ensures newRequest == EmptyForm && !showCreateRequest
    {
      sentRequests := [];
      receivedRequests := [];
      friends := [];
      newRequest := EmptyForm;
      showCreateRequest := false;
    }

    /** The form fields' onChangeText handlers. */
    method EditRequest(form: RequestForm)
      modifies this
      ensures newRequest == form
      ensures sentRequests == old(sentRequests) && receivedRequests == old(receivedRequests)
      ensures friends == old(friends) && showCreateRequest == old(showCreateRequest)
    {
      newRequest := form;
    }

    /** handleCreateRequest: a created request goes to the front of the sent list,
        the form is emptied and closed; a refused or failed one changes nothing. */
    method HandleCreateRequest(user: Option<AuthUser>, nowMs: int, now: DateTime, parseDate: string -> Option<DateTime>)
      returns (r: Result<PaymentRequest, CreateError>)
      modifies this
      ensures r == CreateRequest(old(newRequest), old(friends), user, nowMs, now, parseDate)
      ensures sentRequests == if r.Ok? then [r.value] + old(sentRequests) else old(sentRequests)
      ensures newRequest == if r.Ok? then EmptyForm else old(newRequest)
      ensures showCreateRequest == (r.Err? && old(showCreateRequest))
      ensures receivedRequests == old(receivedRequests) && friends == old(friends)
    {
      r := CreateRequest(newRequest, friends, user, nowMs, now, parseDate);
      if r.Ok? {
        Sent(r.value);
      }
    }

    /** The success path of handleCreateRequest: the request goes to the front of
        the sent list and the form is emptied and closed. */
    method Sent(request: PaymentRequest)
      modifies this
      ensures sentRequests == [request] + old(sentRequests) && newRequest == EmptyForm && !showCreateRequest
      ensures receivedRequests == old(receivedRequests) && friends == old(friends)
    {
      sentRequests := [request] + sentRequests;
      newRequest := EmptyForm;
      showCreateRequest := false;
    }

    /** A Decline or Mark Paid press on the `k`-th received request, which is
        shown only while that request is pending. */
    method HandleRespondToRequest(k: nat, action: Status)
      requires k < |receivedRequests| && receivedRequests[k].status == Pending && action != Pending
      modifies this
      ensures receivedRequests == Respond(old(receivedRequests), old(receivedRequests)[k].id, action)
      ensures receivedRequests[k].status == action
      ensures sentRequests == old(sentRequests) && friends == old(friends)
      ensures newRequest == old(newRequest) && showCreateRequest == old(showCreateRequest)
    {
      receivedRequests := Respond(receivedRequests, receivedRequests[k].id, action);
    }
  }
}
