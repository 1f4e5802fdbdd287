/**
 * The event model of the proxy: one captured request/response pair
 * (InspectrData with its RequestDetails and ResponseDetails) and the
 * CloudEvents 1.0 envelope it is wrapped in before it is sent to a sink.
 */
module Events {

  /** A header or query-parameter multimap: each key maps to its values in order, duplicates kept. */
  type Multimap = map<string, seq<string>>

  datatype RequestDetails = RequestDetails(
    payload: string,
    headers: Multimap,
    queryParams: Multimap,
    timestamp: string)

  datatype ResponseDetails = ResponseDetails(
    payload: string,
    headers: Multimap,
    statusCode: int,
    statusMessage: string,
    timestamp: string)

  /** One captured transaction; latency is in milliseconds. */
  datatype InspectrData = InspectrData(
    httpMethod: string,
    url: string,
    server: string,
    path: string,
    clientIP: string,
    latency: int,
    request: RequestDetails,
    response: ResponseDetails)

  datatype CloudEvent = CloudEvent(
    specVersion: string,
    eventType: string,
    source: string,
    id: string,
    time: string,
    dataContentType: string,
    data: InspectrData)

  const SpecVersion: string := "1.0"
  const EventType: string := "com.inspectr.http"
  const EventSource: string := "/inspectr-proxy"
  const JsonContentType: string := "application/json"

  /** The four fixed context attributes every envelope of this producer carries. */
  predicate IsInspectrEnvelope(e: CloudEvent)
  {
    && e.specVersion == SpecVersion
    && e.eventType == EventType
    && e.source == EventSource
    && e.dataContentType == JsonContentType
  }

  /**
   * The context attributes that CloudEvents 1.0 ("Context Attributes") makes
   * REQUIRED: specversion, id, source and type, each a non-empty string.
   */
  predicate HasRequiredAttributes(e: CloudEvent)
  {
    e.specVersion != "" && e.id != "" && e.source != "" && e.eventType != ""
  }

  /**
   * wrapInCloudEvent. The fresh identifier (uuid.New) and the creation time
   * (time.Now in RFC 3339 with nanoseconds) are given as parameters.
   */
  function WrapInCloudEvent(data: InspectrData, id: string, time: string): (e: CloudEvent)
    ensures IsInspectrEnvelope(e)
    ensures e.data == data
    ensures e.id == id && e.time == time
    ensures id != "" ==> HasRequiredAttributes(e)
  {
    CloudEvent(SpecVersion, EventType, EventSource, id, time, JsonContentType, data)
  }

  /**
   * Two envelopes are equal exactly when they wrap the same record with the
   * same identifier and time: a fresh identifier gives a distinct envelope,
   * and the record can always be recovered from its envelope.
   */
  lemma EnvelopeDeterminedByInputs(d1: InspectrData, id1: string, t1: string,
                                   d2: InspectrData, id2: string, t2: string)
    ensures WrapInCloudEvent(d1, id1, t1) == WrapInCloudEvent(d2, id2, t2)
            <==> d1 == d2 && id1 == id2 && t1 == t2
  {
  }
}
