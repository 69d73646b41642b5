/** The backend's health rules (backend/server.js): a probe outcome collapses to
    `up`/`down`, checkBulkHealth annotates every record of a batch, and the bulk,
    update and delete routes decide their replies.

    The outbound probe (an HTTP GET with a 5000 ms timeout) is an oracle: the
    outcome a probe of record i would have is `outcomes[i]`. Promise.all is run as a
    sequential loop, which is sound because each probe reads and writes only its
    own record. MongoDB's answers and ObjectId.isValid are inputs. */
module Health {
  import opened JsValues

  datatype Status = Up | Down

  /** The text stored in a record's `status` property. */
  function StatusText(s: Status): string {
    if s == Up then "up" else "down"
  }

  /** What awaiting the probe gave: a response with its status code, or a thrown error
      (network failure, timeout, malformed URL, or a status axios rejects). */
  datatype ProbeOutcome = Responded(code: int) | Threw

  /** checkApplicationHealth: `up` exactly for a response whose status is 200. */
  function Classify(o: ProbeOutcome): (s: Status)
    ensures s == Up <==> o == Responded(200)
    ensures s == Down <==> (o.Threw? || o.code != 200)
  {
    match o
    case Responded(code) => if code == 200 then Up else Down
    case Threw => Down
  }

  /** A record is probed only when its prodUrl is truthy. */
  predicate ShouldProbe(app: Record) {
    Truthy(Get(app, "prodUrl"))
  }

  /** The status checkBulkHealth gives one record, given what its probe would return. */
  function RecordStatus(app: Record, o: ProbeOutcome): Status {
    if ShouldProbe(app) then Classify(o) else Down
  }

  /** One record after checkBulkHealth: its `status` property set, nothing else touched. */
  function Annotated(app: Record, o: ProbeOutcome): Record {
    Assign(app, "status", Str(StatusText(RecordStatus(app, o))))
  }

  /** The whole batch after checkBulkHealth, element i annotated with outcome i. */
  function AnnotateAll(apps: seq<Record>, outcomes: seq<ProbeOutcome>): (r: seq<Record>)
    requires |outcomes| == |apps|
    ensures |r| == |apps|
    ensures forall i :: 0 <= i < |apps| ==> r[i] == Annotated(apps[i], outcomes[i])
  {
    seq(|apps|, i requires 0 <= i < |apps| => Annotated(apps[i], outcomes[i]))
  }

  /** Indices, in order, of the records among apps[..n] that get probed. */
  function ProbedUpTo(apps: seq<Record>, n: nat): seq<nat>
    requires n <= |apps|
  {
    if n == 0 then []
    else ProbedUpTo(apps, n - 1) + (if ShouldProbe(apps[n - 1]) then [n - 1] else [])
  }

  /** checkBulkHealth: sets every record's status in place, in input order, and returns
      the indices of the records it probed. */
  method CheckBulkHealth(apps: array<Record>, outcomes: seq<ProbeOutcome>) returns (probed: seq<nat>)
    requires |outcomes| == apps.Length
    modifies apps
    ensures apps[..] == AnnotateAll(old(apps[..]), outcomes)
    ensures probed == ProbedUpTo(old(apps[..]), apps.Length)
  {
    probed := [];
    var i := 0;
    while i < apps.Length
      invariant 0 <= i <= apps.Length
      invariant forall j :: 0 <= j < i ==> apps[j] == Annotated(old(apps[j]), outcomes[j])
      invariant forall j :: i <= j < apps.Length ==> apps[j] == old(apps[j])
      invariant probed == ProbedUpTo(old(apps[..]), i)
    {
      var app := apps[i];
      if Truthy(Get(app, "prodUrl")) {
        var status := Classify(outcomes[i]);
        apps[i] := Assign(app, "status", Str(StatusText(status)));
        probed := probed + [i];
      } else {
        apps[i] := Assign(app, "status", Str("down"));
      }
      i := i + 1;
    }
  }

  /** Every annotated record has status "up" or "down"; it is "up" exactly when its
      prodUrl is truthy and its probe answered 200; and no other property changes. */
  lemma AnnotatedStatus(app: Record, o: ProbeOutcome)
    ensures Get(Annotated(app, o), "status") in {Str("up"), Str("down")}
    ensures Get(Annotated(app, o), "status") == Str("up") <==> ShouldProbe(app) && o == Responded(200)
    ensures !ShouldProbe(app) ==> Get(Annotated(app, o), "status") == Str("down")
    ensures forall k :: k != "status" ==> Get(Annotated(app, o), k) == Get(app, k)
    ensures Keys(Annotated(app, o)) == if "status" in Keys(app) then Keys(app) else Keys(app) + ["status"]
  {
    GetAssign(app, "status", Str(StatusText(RecordStatus(app, o))));
    AssignKeys(app, "status", Str(StatusText(RecordStatus(app, o))));
  }

  /** A record without a truthy prodUrl ends up `down` whatever its probe would have said. */
  lemma UnprobedIgnoresOutcome(app: Record, o1: ProbeOutcome, o2: ProbeOutcome)
    requires !ShouldProbe(app)
    ensures Annotated(app, o1) == Annotated(app, o2)
    ensures Get(Annotated(app, o1), "status") == Str("down")
  {
    AnnotatedStatus(app, o1);
  }

  /** Each record's result depends only on that record and its own probe, so
      annotating a batch in two parts gives the same records as annotating it whole. */
  lemma AnnotateSplits(a: seq<Record>, oa: seq<ProbeOutcome>, b: seq<Record>, ob: seq<ProbeOutcome>)
    requires |oa| == |a| && |ob| == |b|
    ensures AnnotateAll(a + b, oa + ob) == AnnotateAll(a, oa) + AnnotateAll(b, ob)
  {
  }

  /** Annotating twice with the same outcomes changes nothing the second time: the
      status is set from prodUrl, which the first pass leaves alone. */
  lemma AnnotateIdempotent(apps: seq<Record>, outcomes: seq<ProbeOutcome>)
    requires |outcomes| == |apps|
    ensures AnnotateAll(AnnotateAll(apps, outcomes), outcomes) == AnnotateAll(apps, outcomes)
  {
    forall i | 0 <= i < |apps|
      ensures Annotated(Annotated(apps[i], outcomes[i]), outcomes[i]) == Annotated(apps[i], outcomes[i])
    {
      var v := Str(StatusText(RecordStatus(apps[i], outcomes[i])));
      GetAssign(apps[i], "status", v);
      AssignTwice(apps[i], "status", v);
    }
  }

  /** The probed indices are exactly the records with a truthy prodUrl, in increasing order. */
  lemma {:induction false} ProbedExactly(apps: seq<Record>, n: nat)
    requires n <= |apps|
    ensures forall j :: j in ProbedUpTo(apps, n) <==> 0 <= j < n && ShouldProbe(apps[j])
    ensures forall p, q :: 0 <= p < q < |ProbedUpTo(apps, n)| ==>
              ProbedUpTo(apps, n)[p] < ProbedUpTo(apps, n)[q]
  {
    if n > 0 {
      ProbedExactly(apps, n - 1);
      var prev := ProbedUpTo(apps, n - 1);
      if ShouldProbe(apps[n - 1]) {
        var all := prev + [n - 1];
        forall p, q | 0 <= p < q < |all| ensures all[p] < all[q] {
          if q == |prev| {
            assert all[p] == prev[p] && prev[p] in prev;
          }
        }
      }
    }
  }

  /** An HTTP reply: status code and the `message` of its JSON body. */
  datatype Reply = Reply(code: int, message: string)

  /** What `insertMany` gave: it threw, or it returned its acknowledgement and count. */
  datatype InsertResult = InsertThrew | Inserted(acknowledged: bool, insertedCount: nat)

  /** The bulk body is accepted only when it is a non-empty array. */
  predicate ValidBatch(body: ListProp) {
    body.Items? && |body.records| > 0
  }

  /** POST /api/applications/bulk. Returns the reply, the documents handed to
      insertMany (None when the database was not called) and the probed indices. */
  method BulkUpload(body: ListProp, outcomes: seq<ProbeOutcome>, db: InsertResult)
    returns (reply: Reply, inserted: Option<seq<Record>>, probed: seq<nat>)
    requires body.Items? ==> |outcomes| == |body.records|
    ensures !ValidBatch(body) ==> reply == Reply(400, "Invalid data format. Expected an array of applications.")
    ensures !ValidBatch(body) ==> inserted == None && probed == []
    ensures ValidBatch(body) ==>
              inserted == Some(AnnotateAll(body.records, outcomes)) &&
              probed == ProbedUpTo(body.records, |body.records|)
    ensures ValidBatch(body) && db.Inserted? && db.acknowledged ==>
              reply == Reply(201, "Successfully added " + NatToString(db.insertedCount) + " applications!")
    ensures ValidBatch(body) && db.Inserted? && !db.acknowledged ==>
              reply == Reply(500, "Failed to insert all applications.")
    ensures ValidBatch(body) && db.InsertThrew? ==> reply == Reply(500, "Error processing bulk upload.")
  {
    if !body.Items? || |body.records| == 0 {
      return Reply(400, "Invalid data format. Expected an array of applications."), None, [];
    }
    var records := body.records;
    var apps := new Record[|records|](i requires 0 <= i < |records| => records[i]);
    assert apps[..] == records;
    probed := CheckBulkHealth(apps, outcomes);
    inserted := Some(apps[..]);
    match db
    case InsertThrew =>
      reply := Reply(500, "Error processing bulk upload.");
    case Inserted(acknowledged, count) =>
      if acknowledged {
        reply := Reply(201, "Successfully added " + NatToString(count) + " applications!");
      } else {
        reply := Reply(500, "Failed to insert all applications.");
      }
  }

  /** The `$set` document of an update: the body without `_id`, with `status`
      recomputed from the probe only when the body's prodUrl is truthy. */
  function UpdateDoc(body: Record, o: ProbeOutcome): (doc: Record)
    ensures "_id" !in Keys(doc)
    ensures ShouldProbe(body) ==> Get(doc, "status") == Str(StatusText(Classify(o)))
    ensures !ShouldProbe(body) ==> Get(doc, "status") == Get(body, "status")
    ensures forall k :: k != "_id" && k != "status" ==> Get(doc, k) == Get(body, k)
  {
    var data := Omit(body, "_id");
    GetOmit(body, "_id");
    if Truthy(Get(data, "prodUrl")) then
      var v := Str(StatusText(Classify(o)));
      GetAssign(data, "status", v);
      AssignKeys(data, "status", v);
      Assign(data, "status", v)
    else
      data
  }

  /** What `updateOne` gave. */
  datatype UpdateResult = UpdateThrew | Updated(acknowledged: bool, matchedCount: nat)

  /** What a route did besides replying: whether it probed, and the document it
      handed to the database (None when it did not call the database). */
  datatype UpdateEffects = UpdateEffects(reply: Reply, probed: bool, setDoc: Option<Record>)

  /** PUT /api/applications/:id. `idValid` is what ObjectId.isValid said of the id. */
  function UpdateApplication(idValid: bool, body: Record, o: ProbeOutcome, db: UpdateResult): (e: UpdateEffects)
    ensures !idValid ==> e == UpdateEffects(Reply(400, "Invalid ID format"), false, None)
    ensures idValid ==> e.setDoc == Some(UpdateDoc(body, o)) && e.probed == ShouldProbe(body)
    ensures e.reply.code == 404 <==> idValid && db.Updated? && db.matchedCount == 0
    ensures e.reply.code == 200 <==> idValid && db.Updated? && db.matchedCount != 0 && db.acknowledged
    ensures e.reply.code in {200, 400, 404, 500}
  {
    if !idValid then
      UpdateEffects(Reply(400, "Invalid ID format"), false, None)
    else
      var data := Omit(body, "_id");
      GetOmit(body, "_id");
      var doc := UpdateDoc(body, o);
      var reply :=
        match db
        case UpdateThrew => Reply(500, "Error updating application")
        case Updated(acknowledged, matched) =>
          if matched == 0 then Reply(404, "Application not found")
          else if acknowledged then Reply(200, "Application updated successfully")
          else Reply(500, "Failed to update application");
      UpdateEffects(reply, Truthy(Get(data, "prodUrl")), Some(doc))
  }

  /** What `deleteOne` gave. */
  datatype DeleteResult = DeleteThrew | Deleted(acknowledged: bool, deletedCount: nat)

  datatype DeleteEffects = DeleteEffects(reply: Reply, dbCalled: bool)

  /** DELETE /api/applications/:id. */
  function DeleteApplication(idValid: bool, db: DeleteResult): (e: DeleteEffects)
    ensures !idValid ==> e == DeleteEffects(Reply(400, "Invalid ID format"), false)
    ensures e.dbCalled == idValid
    ensures e.reply.code == 404 <==> idValid && db.Deleted? && db.deletedCount == 0
    ensures e.reply.code == 200 <==> idValid && db.Deleted? && db.deletedCount != 0 && db.acknowledged
    ensures e.reply.code in {200, 400, 404, 500}
  {
    if !idValid then
      DeleteEffects(Reply(400, "Invalid ID format"), false)
    else
      var reply :=
        match db
        case DeleteThrew => Reply(500, "Error deleting application")
        case Deleted(acknowledged, deleted) =>
          if deleted == 0 then Reply(404, "Application not found")
          else if acknowledged then Reply(200, "Application deleted successfully")
          else Reply(500, "Failed to delete application");
      DeleteEffects(reply, true)
  }
}
