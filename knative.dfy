/** The records of the event mesh as the HTTP endpoint delivers them, the
    per-source configuration, and the plugin's constants. */
module Knative {
  import opened Wrappers

  /** `spec.type` of the API entity built for an event type. */
  const TypeKnativeEvent: string := "eventType"
  /** `spec.type` of the Component entity built for a broker. */
  const TypeKnativeBroker: string := "broker"
  /** `spec.system` of every built entity. */
  const SystemKnative: string := "knative-event-mesh"
  /** `spec.owner` of every built entity. */
  const OwnerKnative: string := "knative"

  /** An event type of the mesh; `cloudEventType` is its `type` key. */
  datatype EventType = EventType(
    name: string,
    namespace: string,
    cloudEventType: string,
    uid: string,
    description: Option<string>,
    schemaData: Option<string>,
    schemaURL: Option<string>,
    labels: Option<map<string, string>>,
    annotations: Option<map<string, string>>,
    consumedBy: Option<seq<string>>)

  /** A broker of the mesh. */
  datatype Broker = Broker(
    name: string,
    namespace: string,
    uid: string,
    labels: Option<map<string, string>>,
    annotations: Option<map<string, string>>,
    providedEventTypes: Option<seq<string>>)

  /** The decoded payload of one fetch. */
  datatype EventMesh = EventMesh(eventTypes: seq<EventType>, brokers: seq<Broker>)

  /** A task schedule definition as read from configuration. */
  datatype Schedule = Schedule(frequency: string, timeout: string, initialDelay: Option<string>)

  /** One configured source: `catalog.providers.knativeEventMesh.<id>`. */
  datatype SourceConfig = SourceConfig(id: string, baseUrl: string, schedule: Option<Schedule>)
}
