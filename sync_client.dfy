/**
 * The client's SyncService (src/frontend/js/sync.js). `attemptSync` runs at
 * most one drain at a time and only while online. It reads the whole
 * `sync-queue`, then for each queued object in key order encrypts its `data`,
 * signs the ciphertext object and posts the result to the worker's `/sync`
 * route. The first failure ends the drain and leaves the queue as it was; a
 * drain that gets through every object empties the queue.
 */
module Sync {
  import opened Wrappers
  import opened Json
  import opened Http
  import Storage
  import Crypto

  /** The API base used when no worker URL is configured at build time. */
  const DefaultApiUrl := "https://api.medrecord.space"
  const SyncPath := "/sync"

  /** The body posted for a queued object: its ciphertext, the signature over it, and the object's own `type` and `timestamp`. */
  function Payload(item: Storage.Item, encrypted: Value, signature: Value): Value
  {
    Obj(map["encrypted" := encrypted, "signature" := signature,
            "type" := Lookup(item, "type"), "timestamp" := Lookup(item, "timestamp")])
  }

  /** Encrypting `item.data` under `iv`, signing that ciphertext, and building the payload; or the first failure. */
  function Seal(p: Crypto.Provider, iv: seq<byte>, item: Storage.Item): Result<Value, string>
  {
    match Crypto.Encrypt(p, iv, Lookup(item, "data"))
    case Failure(e) => Failure(e)
    case Success(encrypted) =>
      match Crypto.Sign(p, encrypted)
      case Failure(e) => Failure(e)
      case Success(signature) => Success(Payload(item, encrypted, signature))
  }

  /** The request `syncToServer(payload)` sends. */
  function SyncCall(apiUrl: string, payload: Value): Call
  {
    Call(apiUrl + SyncPath, Wire(payload))
  }

  /**
   * What `syncToServer` makes of the answer: a network failure or a non-ok
   * status is thrown (the latter as "Sync failed: <status>"), and so is a body
   * that is no JSON; otherwise the parsed body is returned.
   */
  function Answer(f: Fetched): (r: Result<Value, string>)
    ensures r.Failure? <==> f.NetworkError? || !IsOk(f.reply.status) || f.reply.body.None?
    ensures f.Answered? && !IsOk(f.reply.status) ==> r == Failure("Sync failed: " + IntToString(f.reply.status))
    ensures f.Answered? && IsOk(f.reply.status) && f.reply.body.Some? ==> r == Success(f.reply.body.value)
  {
    match f
    case NetworkError(m) => Failure(m)
    case Answered(reply) =>
      if !IsOk(reply.status) then Failure("Sync failed: " + IntToString(reply.status))
      else if reply.body.None? then Failure(NotJson)
      else Success(reply.body.value)
  }

  /** The requests a drain has sent so far, and the error that ended it, if one did. */
  datatype Progress = Progress(calls: seq<Call>, error: Option<string>)

  /** Sealing one object and posting it: the request sent, if it got that far, and the error, if any. */
  function Attempt(item: Storage.Item, iv: seq<byte>, apiUrl: string, p: Crypto.Provider, net: Downstream): Progress
  {
    match Seal(p, iv, item)
    case Failure(e) => Progress([], Some(e))
    case Success(payload) =>
      var call := SyncCall(apiUrl, payload);
      match Answer(net(call))
      case Failure(e) => Progress([call], Some(e))
      case Success(_) => Progress([call], None)
  }

  /**
   * The drain of `items`, object by object, up to the first failure; the
   * object at position i is encrypted with the i-th draw `random(i)` of IV bytes.
   */
  function Drain(items: seq<Storage.Item>, apiUrl: string, p: Crypto.Provider,
                 random: nat -> seq<byte>, net: Downstream): Progress
    decreases |items|
  {
    if items == [] then Progress([], None)
    else
      var before := Drain(items[..|items| - 1], apiUrl, p, random, net);
      var i := |items| - 1;
      if before.error.Some? then before
      else
        var step := Attempt(items[i], random(i), apiUrl, p, net);
        Progress(before.calls + step.calls, step.error)
  }

  /** One more object in a drain that has not failed yet adds its attempt. */
  lemma DrainNext(items: seq<Storage.Item>, i: nat, apiUrl: string, p: Crypto.Provider,
                  random: nat -> seq<byte>, net: Downstream)
    requires i < |items| && Drain(items[..i], apiUrl, p, random, net).error.None?
    ensures var step := Attempt(items[i], random(i), apiUrl, p, net);
            Drain(items[..i + 1], apiUrl, p, random, net)
              == Progress(Drain(items[..i], apiUrl, p, random, net).calls + step.calls, step.error)
  {
    assert items[..i + 1][..i] == items[..i];
  }

  /** The object at position k was sealed and its request answered successfully. */
  predicate Delivered(items: seq<Storage.Item>, k: int, apiUrl: string, p: Crypto.Provider,
                      random: nat -> seq<byte>, net: Downstream)
    requires 0 <= k < |items|
  {
    Attempt(items[k], random(k), apiUrl, p, net).error.None?
  }

  /**
   * One attempt sends a request exactly when the object could be sealed, the
   * request carries the sealed payload, and it succeeds exactly when that
   * request is answered successfully.
   */
  lemma AttemptShape(item: Storage.Item, iv: seq<byte>, apiUrl: string, p: Crypto.Provider, net: Downstream)
    ensures var a := Attempt(item, iv, apiUrl, p, net);
            && |a.calls| == (if Seal(p, iv, item).Success? then 1 else 0)
            && (Seal(p, iv, item).Success? ==> a.calls == [SyncCall(apiUrl, Seal(p, iv, item).value)])
            && (a.error.None? <==>
                  Seal(p, iv, item).Success? && Answer(net(SyncCall(apiUrl, Seal(p, iv, item).value))).Success?)
  {
  }

  /**
   * Objects go out one at a time in queue order: the k-th request sent is the
   * sealed k-th object, and no more requests are sent than there are objects.
   */
  lemma {:induction false} DrainInOrder(items: seq<Storage.Item>, apiUrl: string, p: Crypto.Provider,
                                        random: nat -> seq<byte>, net: Downstream)
    ensures var d := Drain(items, apiUrl, p, random, net);
            && |d.calls| <= |items|
            && forall k :: 0 <= k < |d.calls| ==>
                 Seal(p, random(k), items[k]).Success? && d.calls[k] == SyncCall(apiUrl, Seal(p, random(k), items[k]).value)
    decreases |items|
  {
    if items != [] {
      var prefix := items[..|items| - 1];
      var i := |items| - 1;
      DrainInOrder(prefix, apiUrl, p, random, net);
      var before := Drain(prefix, apiUrl, p, random, net);
      var d := Drain(items, apiUrl, p, random, net);
      forall k | 0 <= k < |prefix| ensures items[k] == prefix[k] { }
      AttemptShape(items[i], random(i), apiUrl, p, net);
      if before.error.None? && Seal(p, random(i), items[i]).Success? {
        DrainCompletes(prefix, apiUrl, p, random, net);
        assert d.calls == before.calls + [SyncCall(apiUrl, Seal(p, random(i), items[i]).value)];
        assert |before.calls| == i;
      } else {
        assert d.calls == before.calls;
      }
      forall k | 0 <= k < |d.calls|
        ensures Seal(p, random(k), items[k]).Success? && d.calls[k] == SyncCall(apiUrl, Seal(p, random(k), items[k]).value)
      {
        if k < |before.calls| {
          assert prefix[k] == items[k];
          assert Seal(p, random(k), prefix[k]).Success? && before.calls[k] == SyncCall(apiUrl, Seal(p, random(k), prefix[k]).value);
          assert d.calls[k] == before.calls[k];
        } else {
          assert k == i;
        }
      }
    }
  }

  /** A drain ends without error exactly when every object was delivered, and then every object was sent. */
  lemma {:induction false} DrainCompletes(items: seq<Storage.Item>, apiUrl: string, p: Crypto.Provider,
                                          random: nat -> seq<byte>, net: Downstream)
    ensures var d := Drain(items, apiUrl, p, random, net);
            && (d.error.None? <==> forall k :: 0 <= k < |items| ==> Delivered(items, k, apiUrl, p, random, net))
            && (d.error.None? ==> |d.calls| == |items|)
    decreases |items|
  {
    if items != [] {
      var prefix := items[..|items| - 1];
      var i := |items| - 1;
      DrainCompletes(prefix, apiUrl, p, random, net);
      var before := Drain(prefix, apiUrl, p, random, net);
      var d := Drain(items, apiUrl, p, random, net);
      forall k | 0 <= k < |prefix|
        ensures Delivered(items, k, apiUrl, p, random, net) == Delivered(prefix, k, apiUrl, p, random, net)
      {
        assert items[k] == prefix[k];
      }
      if before.error.None? {
        AttemptShape(items[i], random(i), apiUrl, p, net);
        assert d.error.None? <==> Delivered(items, i, apiUrl, p, random, net);
        if d.error.None? {
          forall k | 0 <= k < |items| ensures Delivered(items, k, apiUrl, p, random, net) {
            if k < i {
              assert Delivered(prefix, k, apiUrl, p, random, net);
            } else {
              assert k == i;
            }
          }
        } else {
          assert !Delivered(items, i, apiUrl, p, random, net);
        }
      } else {
        assert d == before;
        var k :| 0 <= k < |prefix| && !Delivered(prefix, k, apiUrl, p, random, net);
        assert !Delivered(items, k, apiUrl, p, random, net);
      }
    }
  }

  /**
   * A failing object ends the drain: when a drain ends in error, it names the
   * object k that failed; every object before it was delivered, and nothing
   * after it was sent (the request for k itself went out only if k was sealed).
   */
  lemma {:induction false} DrainStops(items: seq<Storage.Item>, apiUrl: string, p: Crypto.Provider,
                                      random: nat -> seq<byte>, net: Downstream) returns (k: nat)
    requires Drain(items, apiUrl, p, random, net).error.Some?
    ensures k < |items|
    ensures forall j :: 0 <= j < k ==> Delivered(items, j, apiUrl, p, random, net)
    ensures !Delivered(items, k, apiUrl, p, random, net)
    ensures |Drain(items, apiUrl, p, random, net).calls| == k + (if Seal(p, random(k), items[k]).Success? then 1 else 0)
    decreases |items|
  {
    var prefix := items[..|items| - 1];
    var before := Drain(prefix, apiUrl, p, random, net);
    if before.error.Some? {
      k := DrainStops(prefix, apiUrl, p, random, net);
      forall j | 0 <= j <= k
        ensures Delivered(items, j, apiUrl, p, random, net) == Delivered(prefix, j, apiUrl, p, random, net)
      {
        assert items[j] == prefix[j];
      }
    } else {
      DrainCompletes(prefix, apiUrl, p, random, net);
      k := |items| - 1;
      AttemptShape(items[k], random(k), apiUrl, p, net);
      forall j | 0 <= j < k ensures Delivered(items, j, apiUrl, p, random, net) {
        assert items[j] == prefix[j];
        assert Delivered(prefix, j, apiUrl, p, random, net);
      }
    }
  }

  /** Once a drain has failed, the objects after the failure change nothing. */
  lemma {:induction false} DrainStaysFailed(items: seq<Storage.Item>, n: nat, apiUrl: string, p: Crypto.Provider,
                                            random: nat -> seq<byte>, net: Downstream)
    requires n <= |items| && Drain(items[..n], apiUrl, p, random, net).error.Some?
    ensures Drain(items, apiUrl, p, random, net) == Drain(items[..n], apiUrl, p, random, net)
    decreases |items| - n
  {
    if n < |items| {
      assert items[..n + 1][..n] == items[..n];
      DrainStaysFailed(items, n + 1, apiUrl, p, random, net);
    } else {
      assert items[..n] == items;
    }
  }

  /**
   * What leaves the client is what the worker's `/submit` can check: the
   * payload carries the item's type and timestamp, its signature is the
   * signature over the ciphertext object, and after JSON the ciphertext still
   * decrypts to the item's data, as JSON would carry that data.
   */
  lemma SealedPayload(p: Crypto.Provider, iv: seq<byte>, item: Storage.Item)
    requires Seal(p, iv, item).Success?
    ensures var payload := Seal(p, iv, item).value;
            var encrypted := Crypto.Encrypt(p, iv, Lookup(item, "data")).value;
            && payload.Obj?
            && payload.fields["type"] == Lookup(item, "type")
            && payload.fields["timestamp"] == Lookup(item, "timestamp")
            && payload.fields["encrypted"] == encrypted
            && Crypto.Sign(p, encrypted) == Success(payload.fields["signature"])
    ensures Crypto.RoundTrips(p) && Lookup(item, "data") != Undefined ==>
              var sent := Wire(Seal(p, iv, item).value);
              && sent.Obj? && "encrypted" in sent.fields
              && Crypto.Decrypt(p, sent.fields["encrypted"]) == Success(Wire(Lookup(item, "data")))
  {
    var encrypted := Crypto.Encrypt(p, iv, Lookup(item, "data")).value;
    var signature := Crypto.Sign(p, encrypted).value;
    assert Seal(p, iv, item).value == Payload(item, encrypted, signature);
    if Crypto.RoundTrips(p) && Lookup(item, "data") != Undefined {
      Crypto.DecryptEncrypt(p, iv, Lookup(item, "data"));
      WireMember(Payload(item, encrypted, signature).fields, "encrypted");
    }
  }

  class SyncService {
    const apiUrl: string
    var syncInProgress: bool
    /** The requests the service has sent, in order. */
    var sent: seq<Call>

    /** `import.meta.env.VITE_WORKER_URL || DefaultApiUrl`: an unset or empty setting falls back. */
    constructor (configured: Option<string>)
      ensures apiUrl == (if configured.Some? && configured.value != "" then configured.value else DefaultApiUrl)
      ensures !syncInProgress && sent == []
    {
      apiUrl := if configured.Some? && configured.value != "" then configured.value else DefaultApiUrl;
      syncInProgress := false;
      sent := [];
    }

    /** `syncToServer(payload)`: one POST of the payload as JSON to `/sync`. */
    method SyncToServer(payload: Value, net: Downstream) returns (r: Result<Value, string>)
      modifies this`sent
      ensures sent == old(sent) + [SyncCall(apiUrl, payload)]
      ensures r == Answer(net(SyncCall(apiUrl, payload)))
    {
      var call := SyncCall(apiUrl, payload);
      sent := sent + [call];
      r := Answer(net(call));
    }

    /**
     * `attemptSync()` with `online` as `navigator.onLine`. A skipped attempt
     * changes nothing. Otherwise the flag ends false, the requests sent are the
     * drain's, the error logged is the one that ended it, and the queue is
     * emptied exactly when the drain completed; no other store changes.
     */
    method AttemptSync(online: bool, storage: Storage.StorageService, p: Crypto.Provider,
                       random: nat -> seq<byte>, net: Downstream) returns (logged: Option<string>)
      requires storage.Valid()
      modifies this`syncInProgress, this`sent, storage
      ensures storage.Valid()
      ensures old(syncInProgress) || !online ==>
                && logged == None && syncInProgress == old(syncInProgress)
                && sent == old(sent) && unchanged(storage)
      ensures !old(syncInProgress) && online ==>
                var d := Drain(Storage.Contents(old(storage.queue)), apiUrl, p, random, net);
                && !syncInProgress
                && sent == old(sent) + d.calls
                && logged == d.error
                && storage.patients == old(storage.patients) && storage.records == old(storage.records)
                && (d.error.None? ==> storage.queue.rows == [] && storage.queue.named == [] && storage.queue.current == old(storage.queue.current))
                && (d.error.Some? ==> unchanged(storage))
    {
      if syncInProgress || !online {
        return None;
      }
      syncInProgress := true;
      var queue := storage.GetSyncQueue();
      logged := SendQueue(queue, p, random, net);
      if logged.None? {
        storage.ClearSyncQueue();
      }
      syncInProgress := false;
    }

    /** The body of the loop in `attemptSync`: encrypt `item.data`, sign the ciphertext, post the payload. */
    method SendItem(item: Storage.Item, iv: seq<byte>, p: Crypto.Provider, net: Downstream)
      returns (error: Option<string>)
      modifies this`sent
      ensures sent == old(sent) + Attempt(item, iv, apiUrl, p, net).calls
      ensures error == Attempt(item, iv, apiUrl, p, net).error
    {
      var encrypted := Crypto.Encrypt(p, iv, Lookup(item, "data"));
      if encrypted.Failure? {
        return Some(encrypted.error);
      }
      var signature := Crypto.Sign(p, encrypted.value);
      if signature.Failure? {
        return Some(signature.error);
      }
      var answer := SyncToServer(Payload(item, encrypted.value, signature.value), net);
      error := if answer.Failure? then Some(answer.error) else None;
    }

    /** The loop in `attemptSync`: the queued objects in order, until one fails. */
    method SendQueue(queue: seq<Storage.Item>, p: Crypto.Provider, random: nat -> seq<byte>, net: Downstream)
      returns (error: Option<string>)
      modifies this`sent
      ensures sent == old(sent) + Drain(queue, apiUrl, p, random, net).calls
      ensures error == Drain(queue, apiUrl, p, random, net).error
    {
      error := None;
      var i := 0;
      while i < |queue|
        invariant 0 <= i <= |queue|
        invariant Drain(queue[..i], apiUrl, p, random, net).error.None?
        invariant sent == old(sent) + Drain(queue[..i], apiUrl, p, random, net).calls
        invariant error.None?
      {
        DrainNext(queue, i, apiUrl, p, random, net);
        error := SendItem(queue[i], random(i), p, net);
        if error.Some? {
          DrainStaysFailed(queue, i + 1, apiUrl, p, random, net);
          return;
        }
        i := i + 1;
      }
      assert queue[..i] == queue;
    }
  }
}
