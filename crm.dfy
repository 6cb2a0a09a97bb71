/**
 * The Wassenger CRM tools: label a chat, patch contact metadata, and hand a conversation to a
 * human by labelling it `humano` (the label the webhook router treats as permanent suppression).
 * The HTTP PATCH itself is a collaborator passed in as a function from request to outcome.
 */
module Crm {
  import opened Wrappers
  import opened Text
  import opened Tenants

  const CHAT_SUFFIX: string := "@c.us"
  const HANDOFF_LABEL: string := "humano"

  datatype CrmError = ClientNotFound(clientId: string) | HandoffFailed(reason: string)

  /** What the PATCH call returned: a response body, or a transport error message. */
  datatype Transport = Delivered(data: string) | TransportError(message: string)

  /** `{ success: true, data }` or `{ success: false, error }`. */
  datatype OpResult = OpSuccess(data: string) | OpFailure(error: string)

  datatype MetadataPair = MetadataPair(key: string, value: string)

  datatype LabelRequest = LabelRequest(deviceId: string, chatWid: string, labels: seq<string>, token: string)

  datatype MetadataRequest = MetadataRequest(deviceId: string, chatWid: string, metadata: seq<MetadataPair>, token: string)

  /** The chat id sent to Wassenger: the phone number, suffixed with `@c.us` unless it already holds it. */
  function ChatWid(phone: string): (w: string)
    ensures Includes(w, CHAT_SUFFIX)
    ensures StartsWith(w, phone)
    ensures Includes(phone, CHAT_SUFFIX) ==> w == phone
    ensures !Includes(phone, CHAT_SUFFIX) ==> w == phone + CHAT_SUFFIX
  {
    if Includes(phone, CHAT_SUFFIX) then phone
    else
      IncludesSuffix(phone, CHAT_SUFFIX);
      phone + CHAT_SUFFIX
  }

  /** Normalising twice is normalising once. */
  lemma ChatWidIdempotent(phone: string)
    ensures ChatWid(ChatWid(phone)) == ChatWid(phone)
  {
  }

  /** `Object.entries(metadata).map(([key, value]) => ({ key, value }))`, entries in record order. */
  function FormatMetadata(record: seq<(string, string)>): (r: seq<MetadataPair>)
    ensures |r| == |record|
    ensures forall i :: 0 <= i < |r| ==> r[i].key == record[i].0 && r[i].value == record[i].1
  {
    seq(|record|, i requires 0 <= i < |record| => MetadataPair(record[i].0, record[i].1))
  }

  /** Reading the pairs back gives the record's entries again. */
  function EntriesOf(pairs: seq<MetadataPair>): seq<(string, string)> {
    seq(|pairs|, i requires 0 <= i < |pairs| => (pairs[i].key, pairs[i].value))
  }

  lemma FormatMetadataRoundTrip(record: seq<(string, string)>)
    ensures EntriesOf(FormatMetadata(record)) == record
  {
  }

  /** `addLabelToChat`: throws only for an unknown tenant; a failed PATCH is a failure result. */
  function AddLabelToChat(clients: Clients, clientId: string, phone: string, labels: seq<string>,
                          patch: LabelRequest -> Transport): (r: Result<OpResult, CrmError>)
    ensures clientId !in clients <==> r == Err(ClientNotFound(clientId))
    ensures clientId in clients ==>
      var w := clients[clientId].wassenger;
      var sent := patch(LabelRequest(w.deviceId, ChatWid(phone), labels, w.apiKey));
      r.Ok? && (r.value.OpSuccess? <==> sent.Delivered?)
  {
    if clientId !in clients then Err(ClientNotFound(clientId))
    else
      var w := clients[clientId].wassenger;
      match patch(LabelRequest(w.deviceId, ChatWid(phone), labels, w.apiKey))
      case Delivered(d) => Ok(OpSuccess(d))
      case TransportError(m) => Ok(OpFailure(m))
  }

  /** `updateContactMetadata`: same failure contract as `AddLabelToChat`. */
  function UpdateContactMetadata(clients: Clients, clientId: string, phone: string,
                                 metadata: seq<(string, string)>,
                                 patch: MetadataRequest -> Transport): (r: Result<OpResult, CrmError>)
    ensures clientId !in clients <==> r == Err(ClientNotFound(clientId))
    ensures clientId in clients ==>
      var w := clients[clientId].wassenger;
      var sent := patch(MetadataRequest(w.deviceId, ChatWid(phone), FormatMetadata(metadata), w.apiKey));
      r.Ok? && (r.value.OpSuccess? <==> sent.Delivered?)
  {
    if clientId !in clients then Err(ClientNotFound(clientId))
    else
      var w := clients[clientId].wassenger;
      match patch(MetadataRequest(w.deviceId, ChatWid(phone), FormatMetadata(metadata), w.apiKey))
      case Delivered(d) => Ok(OpSuccess(d))
      case TransportError(m) => Ok(OpFailure(m))
  }

  /**
   * `crmHandoffHuman`: requests exactly the label list `["humano"]`; succeeds iff that PATCH is
   * delivered, and otherwise throws (an unknown tenant, or a failed label operation).
   */
  function CrmHandoffHuman(clients: Clients, clientId: string, phone: string,
                           patch: LabelRequest -> Transport): (r: Result<string, CrmError>)
    ensures clientId !in clients ==> r == Err(ClientNotFound(clientId))
    ensures clientId in clients ==>
      var w := clients[clientId].wassenger;
      var sent := patch(LabelRequest(w.deviceId, ChatWid(phone), [HANDOFF_LABEL], w.apiKey));
      (r.Ok? <==> sent.Delivered?) && (r.Err? ==> r.error == HandoffFailed(sent.message))
  {
    match AddLabelToChat(clients, clientId, phone, [HANDOFF_LABEL], patch)
    case Err(e) => Err(e)
    case Ok(OpSuccess(d)) => Ok(d)
    case Ok(OpFailure(m)) => Err(HandoffFailed(m))
  }
}
