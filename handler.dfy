/** The `/rule-of-thumb-v0` handler: content-type and payload validation, the outgoing
    record, and the mapping of every outcome to a response (API.py:92-169). */
module Handler {
  import opened Wrappers
  import opened Reconcile
  import Token
  import Forwarder

  /** A parsed JSON value. Numbers are modelled as integers. */
  datatype Json =
    | JNull
    | JBool(b: bool)
    | JNum(n: int)
    | JStr(s: string)
    | JArr(items: seq<Json>)
    | JObj(fields: map<string, Json>)

  /** The inbound request: its `Content-Type` header (`None` when absent) and its body,
      `None` when `json.loads` rejects it. */
  datatype Inbound = Inbound(contentType: Option<string>, body: Option<Json>)

  /** A payload with all five keys present and integer species lists. */
  datatype AnalysisRequest = AnalysisRequest(
    aiType: Json, aiVersion: Json, sequenceId: Json, humanSpecies: seq<int>, aiSpecies: seq<int>)

  /** The record posted upstream and echoed back on success. */
  datatype Record = Record(
    origin: string, aiType: Json, aiVersion: Json, analysisVersion: string,
    sequenceId: Json, species: seq<int>)

  datatype Response =
    | Ok(record: Record)
    | BadRequest(message: string)
    | ServerError(message: string)

  /** Either a request ready for reconciliation or the response that ends it early. */
  datatype Validated = Valid(request: AnalysisRequest) | Rejected(response: Response)

  const AllowedContentTypes: set<string> := {"application/json", "text/plain"}
  const RequiredKeys: seq<string> := ["ai_type", "ai_version", "sequence_id", "human_species", "ai_species"]
  const Origin := "MammalWeb"
  const AnalysisVersion := "Rule of Thumb v0"
  const MimeMessage := "Incompatable MIME type."
  const ServerFault := "Something went wrong on our side :( Please let us know and we will fix it."

  /** The description of the 400 raised for a missing key; Python renders the key with quotes. */
  function KeyErrorMessage(key: string): string {
    "Data not formatted correctly. KeyError: '" + key + "'"
  }

  /** The first of `keys` that `fields` lacks: the lookups run in order and the first
      missing one raises the `KeyError`. */
  function FirstMissing(fields: map<string, Json>, keys: seq<string>): (k: Option<string>)
    ensures k.None? <==> forall i :: 0 <= i < |keys| ==> keys[i] in fields
    ensures k.Some? ==> exists i :: 0 <= i < |keys| && keys[i] == k.value && k.value !in fields &&
                                    forall j :: 0 <= j < i ==> keys[j] in fields
  {
    if keys == [] then None
    else if keys[0] !in fields then Some(keys[0])
    else
      var rest := FirstMissing(fields, keys[1..]);
      assert forall i :: 1 <= i < |keys| ==> keys[i] == keys[1..][i - 1];
      rest
  }

  /** A list of JSON values as integers; `None` when one of them is not a number. */
  function Ints(items: seq<Json>): (r: Option<seq<int>>)
    ensures r.Some? <==> forall i :: 0 <= i < |items| ==> items[i].JNum?
    ensures r.Some? ==> |r.value| == |items| && forall i :: 0 <= i < |items| ==> items[i] == JNum(r.value[i])
  {
    if items == [] then Some([])
    else if !items[0].JNum? then None
    else
      var rest := Ints(items[1..]);
      assert forall i :: 1 <= i < |items| ==> items[i] == items[1..][i - 1];
      if rest.None? then None else Some([items[0].n] + rest.value)
  }

  /** A species list as integers; `None` when the value is not a list of numbers. */
  function IntList(v: Json): Option<seq<int>> {
    if v.JArr? then Ints(v.items) else None
  }

  /** Content-type check, body parsing, key lookups and species decoding, in the source's order. */
  function Validate(inbound: Inbound): (v: Validated)
    ensures (inbound.contentType.None? || inbound.contentType.value !in AllowedContentTypes) ==>
              v == Rejected(BadRequest(MimeMessage))
    ensures inbound.contentType.Some? && inbound.contentType.value in AllowedContentTypes &&
            (inbound.body.None? || !inbound.body.value.JObj?) ==>
              v == Rejected(ServerError(ServerFault))
    ensures inbound.contentType.Some? && inbound.contentType.value in AllowedContentTypes &&
            inbound.body.Some? && inbound.body.value.JObj? &&
            FirstMissing(inbound.body.value.fields, RequiredKeys).Some? ==>
              v == Rejected(BadRequest(KeyErrorMessage(FirstMissing(inbound.body.value.fields, RequiredKeys).value)))
    ensures inbound.contentType.Some? && inbound.contentType.value in AllowedContentTypes &&
            inbound.body.Some? && inbound.body.value.JObj? &&
            (forall k :: k in RequiredKeys ==> k in inbound.body.value.fields) &&
            IntList(inbound.body.value.fields["human_species"]).Some? &&
            IntList(inbound.body.value.fields["ai_species"]).Some? ==>
              v.Valid?
    ensures inbound.contentType.Some? && inbound.contentType.value in AllowedContentTypes &&
            inbound.body.Some? && inbound.body.value.JObj? &&
            (forall k :: k in RequiredKeys ==> k in inbound.body.value.fields) &&
            (IntList(inbound.body.value.fields["human_species"]).None? ||
             IntList(inbound.body.value.fields["ai_species"]).None?) ==>
              v == Rejected(ServerError(ServerFault))
    ensures v.Rejected? && v.response.BadRequest? && v.response != BadRequest(MimeMessage) ==>
              inbound.body.Some? && inbound.body.value.JObj? &&
              exists i :: 0 <= i < |RequiredKeys| && v.response == BadRequest(KeyErrorMessage(RequiredKeys[i])) &&
                          RequiredKeys[i] !in inbound.body.value.fields
    ensures v.Rejected? ==> !v.response.Ok?
    ensures v.Rejected? && v.response.ServerError? ==> v.response.message == ServerFault
    ensures v.Valid? ==>
              inbound.contentType.Some? && inbound.contentType.value in AllowedContentTypes &&
              inbound.body.Some? && inbound.body.value.JObj? &&
              (forall k :: k in RequiredKeys ==> k in inbound.body.value.fields) &&
              v.request.aiType == inbound.body.value.fields["ai_type"] &&
              v.request.aiVersion == inbound.body.value.fields["ai_version"] &&
              v.request.sequenceId == inbound.body.value.fields["sequence_id"] &&
              IntList(inbound.body.value.fields["human_species"]) == Some(v.request.humanSpecies) &&
              IntList(inbound.body.value.fields["ai_species"]) == Some(v.request.aiSpecies)
  {
    if inbound.contentType.None? || inbound.contentType.value !in AllowedContentTypes then
      Rejected(BadRequest(MimeMessage))
    else if inbound.body.None? || !inbound.body.value.JObj? then
      // json.loads failed, or indexing a non-object by a key raised a TypeError
      Rejected(ServerError(ServerFault))
    else
      var fields := inbound.body.value.fields;
      match FirstMissing(fields, RequiredKeys)
      case Some(key) => Rejected(BadRequest(KeyErrorMessage(key)))
      case None =>
        assert forall k :: k in RequiredKeys ==> k in fields by {
          forall k | k in RequiredKeys ensures k in fields {
            var i :| 0 <= i < |RequiredKeys| && RequiredKeys[i] == k;
          }
        }
        var human := IntList(fields["human_species"]);
        var ai := IntList(fields["ai_species"]);
        if human.None? || ai.None? then Rejected(ServerError(ServerFault))
        else
          Valid(AnalysisRequest(fields["ai_type"], fields["ai_version"], fields["sequence_id"], human.value, ai.value))
  }

  /** `rec` is the record the source builds for `req`: the constant origin and analysis
      version, the echoed fields, and the reconciled species without repetitions. */
  ghost predicate IsRecordFor(rec: Record, req: AnalysisRequest, ids: Sentinels) {
    rec.origin == Origin && rec.analysisVersion == AnalysisVersion &&
    rec.aiType == req.aiType && rec.aiVersion == req.aiVersion && rec.sequenceId == req.sequenceId &&
    NoDuplicates(rec.species) &&
    Elems(rec.species) == Agreed(Elems(req.humanSpecies), Elems(req.aiSpecies), ids)
  }

  /** Reconciles the species and assembles the outgoing record (`data_out`). */
  method BuildRecord(req: AnalysisRequest, ids: Sentinels) returns (rec: Record)
    ensures IsRecordFor(rec, req, ids)
    ensures rec.species != []
  {
    var species := ReconcileSpecies(req.humanSpecies, req.aiSpecies, ids);
    rec := Record(Origin, req.aiType, req.aiVersion, AnalysisVersion, req.sequenceId, species);
  }

  /** One request end to end. The upstream and the authentication endpoint are represented
      by the replies they would give. A rejected request changes nothing and posts nothing;
      otherwise forwarding decides between the 200 echoing the record and the generic 500. */
  method HandleRequest(tokens: Token.TokenManager, ids: Sentinels, endpoint: string, inbound: Inbound,
                       replies: seq<Forwarder.PostReply>, auth: Token.AuthReply)
    returns (response: Response, attempts: seq<Forwarder.Attempt>)
    requires |replies| >= 2
    modifies tokens
    ensures Validate(inbound).Rejected? ==>
              response == Validate(inbound).response && attempts == [] &&
              tokens.token == old(tokens.token) && tokens.refreshes == old(tokens.refreshes)
    ensures Validate(inbound).Valid? ==>
              var f := Forwarder.Forward(old(tokens.token), endpoint, replies, auth);
              attempts == f.attempts && tokens.token == f.token &&
              tokens.refreshes == old(tokens.refreshes) + (if |f.attempts| == 2 then 1 else 0) &&
              (response.Ok? <==> f.delivered) &&
              (response.Ok? ==> IsRecordFor(response.record, Validate(inbound).request, ids)) &&
              (!response.Ok? ==> response == ServerError(ServerFault))
  {
    match Validate(inbound)
    case Rejected(early) =>
      return early, [];
    case Valid(req) =>
      var rec := BuildRecord(req, ids);
      var delivered;
      delivered, attempts := Forwarder.ForwardRecord(tokens, endpoint, replies, auth);
      response := if delivered then Ok(rec) else ServerError(ServerFault);
  }

  /** A request missing `sequence_id` (the other keys present) is a client error naming that
      key, not a server error. */
  lemma MissingSequenceIdIsClientError(fields: map<string, Json>, contentType: string)
    requires contentType in AllowedContentTypes
    requires "ai_type" in fields && "ai_version" in fields && "sequence_id" !in fields
    ensures Validate(Inbound(Some(contentType), Some(JObj(fields)))) == Rejected(BadRequest(KeyErrorMessage("sequence_id")))
  {
    assert RequiredKeys[0] == "ai_type" && RequiredKeys[1..][0] == "ai_version";
    assert RequiredKeys[1..][1..][0] == "sequence_id";
    calc {
      FirstMissing(fields, RequiredKeys);
      FirstMissing(fields, RequiredKeys[1..]);
      FirstMissing(fields, RequiredKeys[1..][1..]);
      Some("sequence_id");
    }
  }
}
