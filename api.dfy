/** The bot client of api.go: the bootstrap in New, the update-polling loop
    and Close. The goroutine, the unbuffered channels and the WaitGroup are
    replaced by sequential state: the Updates and Errors channels become the
    append-only sequences `delivered` and `errors`, the `closed` channel a
    flag, and each pass of `updateLoop` one call of `Step` that receives the
    result of the previous getUpdates call and records the next one in
    `requests`. */
module Api {
  import opened Wrappers
  import opened Format
  import opened Incoming
  import opened Updates

  /** What a getUpdates call produced: a transport error, or a decoded response. */
  datatype FetchResult =
    | FetchFailed(message: string)
    | Fetched(ok: bool, errorCode: int, description: string, batch: seq<Update>)

  /** What the GetMe call in New produced. */
  datatype MeResult =
    | MeTransportError(message: string)
    | MeResponse(ok: bool, errorCode: int, description: string, user: User)

  /** A fetch whose batch is dispatched: no transport error and Ok set. */
  predicate Succeeded(r: FetchResult) {
    r.Fetched? && r.ok
  }

  /** The error reported on the Errors channel for a fetch that did not succeed. */
  function ErrorText(r: FetchResult): (s: string)
    requires !Succeeded(r)
    ensures r.FetchFailed? ==> s == r.message
    ensures r.Fetched? ==> s == "TBotAPI: GetUpdates:" + Decimal(r.errorCode) + " - " + r.description
  {
    match r
    case FetchFailed(message) => message
    case Fetched(_, code, description, _) => "TBotAPI: GetUpdates:" + Decimal(code) + " - " + description
  }

  /** The next getUpdates call for a given offset: -1 means a call without an
      offset parameter, anything else a call with offset + 1. */
  function NextRequest(offset: int): (r: Option<int>)
    ensures r.None? <==> offset == -1
    ensures r.Some? ==> r.value - 1 == offset
  {
    if offset == -1 then None else Some(offset + 1)
  }

  /** The query string of getUpdates / getUpdatesByOffset: timeout 60 always,
      offset only when one is given. */
  function UpdatesQuery(request: Option<int>): (q: map<string, string>)
    ensures "timeout" in q && q["timeout"] == "60"
    ensures "offset" in q <==> request.Some?
    ensures request.Some? ==> q["offset"] == Decimal(request.value)
    ensures request.Some? ==> ParseDecimal(q["offset"]) == Some(request.value)
    ensures q.Keys <= {"offset", "timeout"}
  {
    match request
    case None => map["timeout" := Decimal(60)]
    case Some(o) =>
      DecimalRoundTrip(o);
      DecimalRoundTrip(60);
      map["offset" := Decimal(o), "timeout" := Decimal(60)]
  }

  /** `after` is `before` followed by the batch sorted by ID: what one ok
      fetch adds to the Updates channel. */
  ghost predicate AppendedSorted(before: seq<Update>, batch: seq<Update>, after: seq<Update>) {
    |after| == |before| + |batch|
    && after[..|before|] == before
    && SortedByID(after[|before|..])
    && multiset(after[|before|..]) == multiset(batch)
  }

  class TelegramBotAPI {
    var id: int
    var name: string
    var username: string
    /** Everything sent on the Updates channel, in order. */
    var delivered: seq<Update>
    /** Everything sent on the Errors channel, in order. */
    var errors: seq<string>
    var closed: bool
    /** The update loop has not returned yet. */
    var running: bool
    var offset: int
    /** The getUpdates calls made so far: None without an offset, Some(k) with offset k. */
    var requests: seq<Option<int>>

    /** The loop's bookkeeping: the first call carries no offset; the offset
        is its initial 0, the -1 of an empty batch, or the ID of the last
        update delivered; and every later call is the one that offset asks for. */
    ghost predicate Valid()
      reads this
    {
      |requests| >= 1 && requests[0] == None
      && (offset == -1
          || (delivered == [] && offset == 0)
          || (delivered != [] && offset == delivered[|delivered| - 1].id))
      && (|requests| == 1 ==> offset == 0 && delivered == [] && errors == [])
      && (|requests| > 1 ==> requests[|requests| - 1] == NextRequest(offset))
      && (!running ==> closed)
    }

    /** The state right after New: identity from GetMe, the loop started with
        one getUpdates call (no offset) and the offset variable at 0. */
    constructor Start(me: User)
      ensures Valid() && running && !closed
      ensures id == me.id && name == me.firstName && username == me.username
      ensures delivered == [] && errors == [] && offset == 0 && requests == [None]
    {
      id, name, username := me.id, me.firstName, me.username;
      delivered, errors := [], [];
      closed, running := false, true;
      offset := 0;
      requests := [None];
    }

    /** Closes at most once: a second call finds the flag set and returns. */
    method Close() returns (didClose: bool)
      requires Valid()
      modifies this
      ensures Valid() && closed && didClose == !old(closed)
      ensures running == old(running) && offset == old(offset) && requests == old(requests)
      ensures delivered == old(delivered) && errors == old(errors)
      ensures id == old(id) && name == old(name) && username == old(username)
    {
      if closed {
        return false;
      }
      closed := true;
      didClose := true;
    }

    /** Sends the batch in array order and returns the ID of its last update,
        or -1 for an empty batch. */
    method PutUpdatesInChannel(a: array<Update>) returns (highest: int)
      modifies this
      ensures delivered == old(delivered) + a[..]
      ensures highest == if a.Length == 0 then -1 else a[a.Length - 1].id
      ensures errors == old(errors) && closed == old(closed) && running == old(running)
      ensures offset == old(offset) && requests == old(requests)
      ensures id == old(id) && name == old(name) && username == old(username)
    {
      highest := -1;
      var i := 0;
      while i < a.Length
        invariant 0 <= i <= a.Length
        invariant delivered == old(delivered) + a[..i]
        invariant highest == if i == 0 then -1 else a[i - 1].id
        invariant errors == old(errors) && closed == old(closed) && running == old(running)
        invariant offset == old(offset) && requests == old(requests)
        invariant id == old(id) && name == old(name) && username == old(username)
      {
        highest := a[i].id;
        assert a[..i + 1] == a[..i] + [a[i]];
        delivered := delivered + [a[i]];
        i := i + 1;
      }
      assert a[..a.Length] == a[..];
    }

    /** One pass of updateLoop, given the result of the previous getUpdates
        call. A set close flag ends the loop before anything else. Otherwise a
        failed or not-ok fetch reports one error and keeps the offset; an ok
        batch is sorted by ID and delivered, and the offset becomes its
        largest ID (-1 when empty). Then the next call is made with
        offset + 1, or without an offset when the offset is -1. */
    method Step(result: FetchResult)
      requires Valid() && running
      modifies this
      ensures Valid()
      ensures id == old(id) && name == old(name) && username == old(username) && closed == old(closed)
      ensures old(closed) ==> !running && offset == old(offset) && requests == old(requests)
                                && delivered == old(delivered) && errors == old(errors)
      ensures !old(closed) ==> running && requests == old(requests) + [NextRequest(offset)]
      ensures !old(closed) && !Succeeded(result) ==>
                errors == old(errors) + [ErrorText(result)] && delivered == old(delivered) && offset == old(offset)
      ensures !old(closed) && Succeeded(result) ==>
                errors == old(errors) && AppendedSorted(old(delivered), result.batch, delivered)
                && offset == (if result.batch == [] then -1 else MaxID(result.batch))
      ensures !old(closed) && Succeeded(result) && result.batch != [] && MaxID(result.batch) != -1 ==>
                requests[|requests| - 1] == Some(MaxID(result.batch) + 1)
      ensures !old(closed) && Succeeded(result) && result.batch == [] ==>
                requests[|requests| - 1] == None
      ensures !old(closed) && !Succeeded(result) && |old(requests)| == 1 ==>
                requests == [None, Some(1)]
    {
      if closed {
        running := false;
        return;
      }
      if !Succeeded(result) {
        errors := errors + [ErrorText(result)];
      } else {
        offset := SortAndDeliver(result.batch);
      }
      requests := requests + [NextRequest(offset)];
    }

    /** The ok branch of updateLoop: sorts the batch by ID, delivers it in
        that order and returns the new offset, the batch's largest ID or -1
        when it is empty. */
    method SortAndDeliver(batch: seq<Update>) returns (highest: int)
      modifies this
      ensures AppendedSorted(old(delivered), batch, delivered)
      ensures highest == if batch == [] then -1 else MaxID(batch)
      ensures batch != [] ==> highest == delivered[|delivered| - 1].id
      ensures errors == old(errors) && closed == old(closed) && running == old(running)
      ensures offset == old(offset) && requests == old(requests)
      ensures id == old(id) && name == old(name) && username == old(username)
    {
      var a := new Update[|batch|](i requires 0 <= i < |batch| => batch[i]);
      assert a[..] == batch;
      SortByID(a);
      ghost var before := delivered;
      highest := PutUpdatesInChannel(a);
      assert delivered[..|before|] == before && delivered[|before|..] == a[..];
      if |batch| > 0 {
        SortedLastIsMax(batch, a[..]);
      }
    }
  }

  /** New: a transport error from GetMe is returned and no loop starts;
      otherwise the client starts with GetMe's user (the Ok flag of that
      response is not consulted). */
  method New(me: MeResult) returns (api: TelegramBotAPI?, err: Option<string>)
    ensures api == null <==> me.MeTransportError?
    ensures me.MeTransportError? ==> err == Some(me.message)
    ensures api != null ==>
              err == None && fresh(api) && api.Valid() && api.running && !api.closed
              && api.id == me.user.id && api.name == me.user.firstName && api.username == me.user.username
              && api.delivered == [] && api.errors == [] && api.offset == 0 && api.requests == [None]
  {
    if me.MeTransportError? {
      return null, Some(me.message);
    }
    api := new TelegramBotAPI.Start(me.user);
    err := None;
  }
}
