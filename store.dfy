/** The single KV entry "notifications" and the three handlers that read
    and write it (createNotifications, retrieveNotifications and
    deleteAllNotifications in src/index.js). */
module Store {
  import opened Wrappers
  import opened JsValues
  import opened Notifications
  import opened Http

  /** The list a read of the entry yields: an absent entry reads as `[]`. */
  function Listed(entry: Option<seq<Notification>>): seq<Notification> {
    entry.GetOr([])
  }

  /** The entry after a create request: the old list followed by the new
      records when the whole batch is valid, untouched otherwise. */
  function AfterCreate(entry: Option<seq<Notification>>, body: Json, ids: nat -> string, clock: nat -> int)
    : Option<seq<Notification>>
  {
    match CreateBatch(body, ids, clock)
    case Ok(records) => Some(Listed(entry) + records)
    case Err(_) => entry
  }

  /** A JSON response body that is an array of exactly the objects of
      `records`, in order. */
  predicate ListsExactly(body: Body, records: seq<Notification>) {
    && body.JsonBody?
    && body.value.JArr?
    && |body.value.items| == |records|
    && forall i :: 0 <= i < |records| ==> IsRecordJson(body.value.items[i], records[i])
  }

  /** The response of a create request: 201 with a JSON array of exactly
      the new records, or 400 with the thrown message as plain text. */
  function CreateResponse(r: Result<seq<Notification>, Error>): (resp: Response)
    ensures resp.status == 201 <==> r.Ok?
    ensures resp.status == 400 <==> r.Err?
    ensures r.Ok? ==> ListsExactly(resp.body, r.value) && resp.headers == JsonHeaders
    ensures r.Err? ==> resp.body == TextBody(Message(r.error)) && resp.headers == map[]
  {
    match r
    case Ok(records) => Response(201, JsonBody(JArr(RecordsJson(records))), JsonHeaders)
    case Err(e) => Response(400, TextBody(Message(e)), map[])
  }

  /** The response of a list request: 200 with a JSON array of exactly the
      stored records. */
  function ListResponse(records: seq<Notification>): (resp: Response)
    ensures resp.status == 200 && resp.headers == JsonHeaders
    ensures ListsExactly(resp.body, records)
  {
    Response(200, JsonBody(JArr(RecordsJson(records))), JsonHeaders)
  }

  const DeletedMessage := "Notifications deleted successfully!"

  const DeletedResponse := Response(200, JsonBody(JObj([("message", JStr(DeletedMessage))])), JsonHeaders)

  /** The KV namespace NOTIFICATIONS_KV, reduced to the one key the worker
      uses. */
  class NotificationStore {
    /** The value under "notifications"; None while the key is absent. */
    var entry: Option<seq<Notification>>

    constructor()
      ensures entry == None
    {
      entry := None;
    }

    /** createNotifications: every element is validated before the entry is
        read; only a fully valid batch is appended, and the response holds
        exactly the new records. */
    method CreateNotifications(body: Json, ids: nat -> string, clock: nat -> int) returns (resp: Response)
      modifies this
      ensures resp == CreateResponse(CreateBatch(body, ids, clock))
      ensures entry == AfterCreate(old(entry), body, ids, clock)
    {
      var batch := CreateBatch(body, ids, clock);
      if batch.Ok? {
        var stored := Listed(entry);
        entry := Some(stored + batch.value);
      }
      resp := CreateResponse(batch);
    }

    /** retrieveNotifications: the stored list, `[]` when the key is absent. */
    method RetrieveNotifications() returns (resp: Response)
      ensures resp == ListResponse(Listed(entry))
      ensures entry.None? ==> resp.body == JsonBody(JArr([]))
    {
      resp := ListResponse(Listed(entry));
    }

    /** deleteAllNotifications: the key is removed. */
    method DeleteAllNotifications() returns (resp: Response)
      modifies this
      ensures entry == None
      ensures resp == DeletedResponse
    {
      entry := None;
      resp := DeletedResponse;
    }
  }

  /** A list after a delete-all is empty. */
  method DeleteThenRetrieve(store: NotificationStore) returns (resp: Response)
    modifies store
    ensures store.entry == None
    ensures resp.status == 200 && resp.body == JsonBody(JArr([]))
  {
    var _ := store.DeleteAllNotifications();
    resp := store.RetrieveNotifications();
  }

  /** An invalid batch leaves the entry exactly as it was, present or
      absent. */
  lemma FailedCreateKeepsEntry(entry: Option<seq<Notification>>, body: Json, ids: nat -> string, clock: nat -> int)
    requires CreateBatch(body, ids, clock).Err?
    ensures AfterCreate(entry, body, ids, clock) == entry
    ensures CreateResponse(CreateBatch(body, ids, clock)).status == 400
  {
  }

  /** A valid batch is appended after the old list (absent reads as empty);
      the old records keep their places and the response lists exactly the
      appended ones. */
  lemma CreateAppends(entry: Option<seq<Notification>>, body: Json, ids: nat -> string, clock: nat -> int)
    requires CreateBatch(body, ids, clock).Ok?
    ensures var after := Listed(AfterCreate(entry, body, ids, clock));
            && |after| == |Listed(entry)| + |Elements(body)|
            && after[..|Listed(entry)|] == Listed(entry)
            && ListsExactly(CreateResponse(CreateBatch(body, ids, clock)).body, after[|Listed(entry)|..])
  {
    var records := CreateBatch(body, ids, clock).value;
    BatchRecords(body, ids, clock);
    var after := Listed(entry) + records;
    assert after[..|Listed(entry)|] == Listed(entry);
    assert after[|Listed(entry)|..] == records;
  }

  /** Record i of a valid batch carries ids(i) and clock(i). */
  lemma BatchStamps(body: Json, ids: nat -> string, clock: nat -> int)
    requires CreateBatch(body, ids, clock).Ok?
    ensures |CreateBatch(body, ids, clock).value| == |Elements(body)|
    ensures forall i :: 0 <= i < |CreateBatch(body, ids, clock).value| ==>
              && CreateBatch(body, ids, clock).value[i].id == ids(i)
              && CreateBatch(body, ids, clock).value[i].timestamp == clock(i)
  {
    var records := CreateBatch(body, ids, clock).value;
    BatchRecords(body, ids, clock);
    forall i | 0 <= i < |records|
      ensures records[i].id == ids(i) && records[i].timestamp == clock(i)
    {
      ValidateOneRecord(Elements(body)[i], ids(i), clock(i));
    }
  }

  predicate DistinctIds(records: seq<Notification>) {
    forall i, j :: 0 <= i < j < |records| ==> records[i].id != records[j].id
  }

  lemma {:induction false} AppendKeepsIdsDistinct(stored: seq<Notification>, records: seq<Notification>, ids: nat -> string)
    requires DistinctIds(stored)
    requires forall i :: 0 <= i < |records| ==> records[i].id == ids(i)
    requires forall i, j :: 0 <= i < j < |records| ==> ids(i) != ids(j)
    requires forall i, k :: 0 <= i < |records| && 0 <= k < |stored| ==> ids(i) != stored[k].id
    ensures DistinctIds(stored + records)
  {
    var after := stored + records;
    forall i, j | 0 <= i < j < |after| ensures after[i].id != after[j].id {
      if j < |stored| {
        assert after[i] == stored[i] && after[j] == stored[j];
      } else if i < |stored| {
        assert after[i] == stored[i];
        assert after[j] == records[j - |stored|];
      } else {
        assert after[i] == records[i - |stored|];
        assert after[j] == records[j - |stored|];
      }
    }
  }

  /** With ids that are pairwise distinct and new to the store (what
      uuidv4 is trusted to give), the stored ids stay unique. */
  lemma CreateKeepsIdsDistinct(entry: Option<seq<Notification>>, body: Json, ids: nat -> string, clock: nat -> int)
    requires DistinctIds(Listed(entry))
    requires forall i, j :: 0 <= i < j < |Elements(body)| ==> ids(i) != ids(j)
    requires forall i, k :: 0 <= i < |Elements(body)| && 0 <= k < |Listed(entry)| ==> ids(i) != Listed(entry)[k].id
    ensures DistinctIds(Listed(AfterCreate(entry, body, ids, clock)))
  {
    var batch := CreateBatch(body, ids, clock);
    if batch.Ok? {
      BatchStamps(body, ids, clock);
      AppendKeepsIdsDistinct(Listed(entry), batch.value, ids);
    }
  }

  /** When the clock never goes back, a batch's timestamps follow the
      order of its elements. */
  lemma BatchTimestampsOrdered(body: Json, ids: nat -> string, clock: nat -> int)
    requires forall a: nat, b: nat :: a <= b ==> clock(a) <= clock(b)
    requires CreateBatch(body, ids, clock).Ok?
    ensures forall i, j :: 0 <= i <= j < |CreateBatch(body, ids, clock).value| ==>
              CreateBatch(body, ids, clock).value[i].timestamp <= CreateBatch(body, ids, clock).value[j].timestamp
  {
    BatchStamps(body, ids, clock);
  }
}
