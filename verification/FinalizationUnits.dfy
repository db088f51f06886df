/** What the finalizer hands to the outbox: the parts of an event that the outbox looks at, and
    its media (domain/models.py, application/ports.py). */
module FinalizationUnits {
  import opened EntryNames
  import opened Options

  datatype Event = Event(id: string, camera: string, occurredAt: Instant, references: map<string, string>, clip: Option<string>, body: string)

  datatype Media = Media(field: string, key: string, data: string, contentType: string)
}
