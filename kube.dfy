/**
 * The Kubernetes records the watcher reads and the EnhancedEvent it hands
 * on, reduced to the fields the exporter's core looks at.
 */
module Kube {
  import opened Wrappers
  import opened GoTime

  /** corev1.ObjectReference: the object an event is about. */
  datatype ObjectReference = ObjectReference(
    kind: string,
    namespace: string,
    name: string,
    uid: string,
    apiVersion: string,
    resourceVersion: string,
    fieldPath: string)

  /** Go's zero-valued ObjectReference. */
  const EMPTY_REFERENCE := ObjectReference("", "", "", "", "", "", "")

  /** metav1.OwnerReference. */
  datatype OwnerReference = OwnerReference(
    apiVersion: string,
    kind: string,
    name: string,
    uid: string,
    controller: Option<bool>)

  /** metav1.ManagedFieldsEntry: server-side-apply bookkeeping, dropped before delivery. */
  datatype ManagedFieldsEntry = ManagedFieldsEntry(manager: string, operation: string, time: Time)

  /** corev1.EventSeries: the aggregation of a repeating event. */
  datatype EventSeries = EventSeries(count: int, lastObservedTime: Time)

  /** corev1.Event; `series` is None where Go's Series is nil. */
  datatype Event = Event(
    name: string,
    namespace: string,
    managedFields: seq<ManagedFieldsEntry>,
    involvedObject: ObjectReference,
    reason: string,
    message: string,
    firstTimestamp: Time,
    lastTimestamp: Time,
    count: int,
    eventTime: Time,
    series: Option<EventSeries>)

  /** What the metadata provider resolves for an involved object. */
  datatype ObjectMetadata = ObjectMetadata(
    labels: map<string, string>,
    annotations: map<string, string>,
    ownerReferences: seq<OwnerReference>,
    deleted: bool)

  /** A failed metadata lookup: the API's NotFound, or any other error. */
  datatype LookupError = NotFound | Failed(message: string)

  /** GetObjectMetadata with its clients and cache bound in. */
  type MetadataProvider = ObjectReference -> Result<ObjectMetadata, LookupError>

  /** kube.EnhancedObjectReference: the reference plus resolved metadata. */
  datatype EnhancedObjectReference = EnhancedObjectReference(
    reference: ObjectReference,
    labels: map<string, string>,
    annotations: map<string, string>,
    ownerReferences: seq<OwnerReference>,
    deleted: bool)

  /** kube.EnhancedEvent: a copy of the event and its enriched involved object. */
  datatype EnhancedEvent = EnhancedEvent(event: Event, involvedObject: EnhancedObjectReference)

  /** A reference with nothing resolved: Go's zero-valued metadata fields. */
  function Unresolved(reference: ObjectReference): EnhancedObjectReference {
    EnhancedObjectReference(reference, map[], map[], [], false)
  }
}
