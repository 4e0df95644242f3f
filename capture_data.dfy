/**
 * The data-capture endpoint: after the origin and API-key checks it stores
 * the posted readiness results as one table item keyed by e-mail and
 * capture date. The table write is a parameter: whether it succeeds.
 */
module CaptureData {
  import opened Wrappers
  import opened Json
  import opened Gateway

  /** A string attribute `{S: value}`; the value is undefined when the request lacks it. */
  datatype Attr = S(value: Option<Json>)

  /** A table item: attribute name to attribute. */
  type Item = map<string, Attr>

  /** The item `storeAgentData` starts from: e-mail from the request, the server's time. */
  function BaseItem(request: seq<(string, Json)>, now: string): Item
  {
    map["email" := S(Lookup(request, "email")), "captureDate" := S(Some(JString(now)))]
  }

  /** The item after copying the fields of `copied`, one after another, onto the base item. */
  function ItemOf(request: seq<(string, Json)>, copied: seq<(string, Json)>, now: string): Item
  {
    if copied == [] then BaseItem(request, now)
    else
      var (key, value) := copied[|copied| - 1];
      var before := ItemOf(request, copied[..|copied| - 1], now);
      if key != "email" then before[key := S(Some(value))] else before
  }

  /** `storeAgentData`, up to the put: build the item for `request` at time `now`. */
  method BuildItem(request: seq<(string, Json)>, now: string) returns (item: Item)
    ensures item == ItemOf(request, request, now)
  {
    item := map["email" := S(Lookup(request, "email")), "captureDate" := S(Some(JString(now)))];
    var i := 0;
    while i < |request|
      invariant 0 <= i <= |request|
      invariant item == ItemOf(request, request[..i], now)
    {
      var (key, value) := request[i];
      if key != "email" {
        item := item[key := S(Some(value))];
      }
      assert request[..i + 1][..i] == request[..i];
      i := i + 1;
    }
    assert request[..i] == request;
  }

  /**
   * The item holds `email` and `captureDate` and every request field:
   * `email` from the request, every other field copied, and the server's
   * time unless the request carries its own `captureDate`, which wins.
   */
  lemma ItemShape(request: seq<(string, Json)>, now: string)
    requires DistinctKeys(request)
    ensures var item := ItemOf(request, request, now);
      && (forall k :: k in item <==> k == "email" || k == "captureDate" || k in KeySet(request))
      && "email" in item && item["email"] == S(Lookup(request, "email"))
      && (forall i :: 0 <= i < |request| && request[i].0 != "email" ==>
            request[i].0 in item && item[request[i].0] == S(Some(request[i].1)))
      && ("captureDate" !in KeySet(request) ==> "captureDate" in item && item["captureDate"] == S(Some(JString(now))))
  {
    ItemKeys(request, request, now);
    ItemUntouched(request, request, now, "email");
    if "captureDate" !in KeySet(request) {
      ItemUntouched(request, request, now, "captureDate");
    }
    ItemFields(request, request, now);
  }

  lemma {:induction false} ItemKeys(request: seq<(string, Json)>, copied: seq<(string, Json)>, now: string)
    ensures forall k :: k in ItemOf(request, copied, now) <==> k == "email" || k == "captureDate" || k in KeySet(copied)
    decreases |copied|
  {
    if copied != [] {
      var n := |copied| - 1;
      ItemKeys(request, copied[..n], now);
      assert copied == copied[..n] + [copied[n]];
      KeySetAppend(copied[..n], [copied[n]]);
    }
  }

  /** A base attribute that no copied field names keeps its base value (`email` never is copied). */
  lemma {:induction false} ItemUntouched(request: seq<(string, Json)>, copied: seq<(string, Json)>, now: string, k: string)
    requires k == "email" || k == "captureDate"
    requires k == "captureDate" ==> k !in KeySet(copied)
    ensures k in ItemOf(request, copied, now) && ItemOf(request, copied, now)[k] == BaseItem(request, now)[k]
    decreases |copied|
  {
    if copied != [] {
      var n := |copied| - 1;
      assert copied == copied[..n] + [copied[n]];
      KeySetAppend(copied[..n], [copied[n]]);
      ItemUntouched(request, copied[..n], now, k);
    }
  }

  lemma {:induction false} ItemFields(request: seq<(string, Json)>, copied: seq<(string, Json)>, now: string)
    requires DistinctKeys(copied)
    ensures var item := ItemOf(request, copied, now);
      forall i :: 0 <= i < |copied| && copied[i].0 != "email" ==> copied[i].0 in item && item[copied[i].0] == S(Some(copied[i].1))
    decreases |copied|
  {
    if copied != [] {
      var n := |copied| - 1;
      var init := copied[..n];
      assert DistinctKeys(init) by {
        forall i, j | 0 <= i < j < |init| ensures init[i].0 != init[j].0 {
          assert init[i] == copied[i] && init[j] == copied[j];
        }
      }
      ItemFields(request, init, now);
      var item := ItemOf(request, copied, now);
      forall i | 0 <= i < |copied| && copied[i].0 != "email"
        ensures copied[i].0 in item && item[copied[i].0] == S(Some(copied[i].1))
      {
        if i < n {
          assert init[i] == copied[i];
          assert copied[i].0 != copied[n].0;
        }
      }
    }
  }

  /** How the handler's `try` block ends: a response, or an exception for the `catch`. */
  datatype TryResult = Answered(response: Response) | Caught(error: string)

  /**
   * The `try` block of the handler. `event.body` is absent when it does not
   * parse to an object, which makes `JSON.parse` or `request.email` throw;
   * `stored` says whether the table write succeeds.
   */
  function TryBlock(event: Event, env: Env, stored: bool): (t: TryResult)
    ensures t.Answered? && t.response.statusCode == 200 <==>
      Checked(event, env).Passed? && event.body.Some? && stored
    ensures t.Answered? && t.response.statusCode == 200 ==> t.response == Successful(StatusSuccess)
    ensures t.Answered? && t.response.statusCode != 200 ==> t.response.statusCode == 403
    ensures Checked(event, env).CheckFailed? ==> t == Answered(Checked(event, env).response)
    ensures t.Caught? <==> !Checked(event, env).CheckFailed? && !(Checked(event, env).Passed? && event.body.Some? && stored)
  {
    match Checked(event, env)
    case Threw(e) => Caught(e)
    case CheckFailed(response) => Answered(response)
    case Passed =>
      if event.body.None? then Caught("SyntaxError")
      else if !stored then Caught("StoreError")
      else Answered(Successful(StatusSuccess))
  }

  /** What the invocation ends with: a callback with a response, or a rejected promise. */
  datatype Outcome = Called(response: Response) | Raised(error: string)

  /**
   * The handler as written: its `catch` passes the undeclared `err` to
   * `buildErrorResponse`, so every caught exception becomes a ReferenceError
   * and the caller never gets the 500 response.
   */
  function AsWritten(t: TryResult): Outcome
  {
    match t
    case Answered(response) => Called(response)
    case Caught(_) => Raised("ReferenceError")
  }

  /** The handler as evidently intended: a caught exception is answered with 500. */
  function Intended(t: TryResult): Outcome
  {
    match t
    case Answered(response) => Called(response)
    case Caught(_) => Called(Errored(ThrownError))
  }

  /** As written, every failure inside the `try` escapes as a ReferenceError. */
  lemma CatchRaises(event: Event, env: Env, stored: bool)
    ensures TryBlock(event, env, stored).Caught? <==> AsWritten(TryBlock(event, env, stored)) == Raised("ReferenceError")
    ensures TryBlock(event, env, stored).Caught? ==> AsWritten(TryBlock(event, env, stored)).Raised?
  {
  }

  /** A failed table write, for instance, never reaches the caller as a response. */
  lemma FailedStoreRaises(event: Event, env: Env)
    requires Checked(event, env).Passed? && event.body.Some?
    ensures AsWritten(TryBlock(event, env, false)) == Raised("ReferenceError")
    ensures Intended(TryBlock(event, env, false)) == Called(Errored(ThrownError))
  {
  }

  /**
   * As intended, every invocation gets a response with the CORS headers:
   * 200 with `{status: "success"}` exactly when the item is stored, 403 on a
   * failed check, 500 otherwise.
   */
  lemma IntendedAlwaysResponds(event: Event, env: Env, stored: bool)
    ensures Intended(TryBlock(event, env, stored)).Called?
    ensures Cors(Intended(TryBlock(event, env, stored)).response)
    ensures var r := Intended(TryBlock(event, env, stored)).response;
      && (r.statusCode == 200 <==> Checked(event, env).Passed? && event.body.Some? && stored)
      && (r.statusCode == 403 <==> Checked(event, env).CheckFailed?)
      && (r.statusCode == 500 <==> TryBlock(event, env, stored).Caught?)
  {
  }

  /**
   * The response the handler passes to its callback, with the `catch`
   * corrected: 200 with `{status: "success"}` exactly when both checks pass,
   * the body parses and the item is stored; the check's 403 when one fails;
   * 500 when anything inside the `try` throws.
   */
  function Handle(event: Event, env: Env, stored: bool): (r: Response)
    ensures Cors(r)
    ensures r.statusCode == 200 <==> Checked(event, env).Passed? && event.body.Some? && stored
    ensures r.statusCode == 200 ==> r.body == StatusSuccess
    ensures Checked(event, env).CheckFailed? ==> r == Checked(event, env).response
    ensures r.statusCode == 403 <==> Checked(event, env).CheckFailed?
    ensures r.statusCode != 200 && r.statusCode != 403 ==> r == Errored(ThrownError)
  {
    Intended(TryBlock(event, env, stored)).response
  }

  /**
   * The handler's effect on the table: the item it tries to put, which it
   * builds only once both checks have passed and the body has parsed.
   */
  method StoreAttempt(event: Event, env: Env, now: string) returns (put: Option<Item>)
    ensures put.Some? <==> Checked(event, env).Passed? && event.body.Some?
    ensures put.Some? ==> put.value == ItemOf(event.body.value, event.body.value, now)
  {
    if Checked(event, env).Passed? && event.body.Some? {
      var item := BuildItem(event.body.value, now);
      put := Some(item);
    } else {
      put := None;
    }
  }
}
