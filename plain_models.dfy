/** Identifiers: a `UUID` is represented by its `uuidString`, which is also how it prints. */
module Uuids {
  type Uuid = string
}

/** `APIResponse<T>`: the envelope every endpoint wraps its payload in. */
module ApiResponse {
  import opened Wrappers

  datatype Envelope<T> = Envelope(data: Option<T>, message: Option<string>)
}

/** `Client`, as the server sends it. */
module ClientModel {
  import opened Wrappers
  import opened Uuids

  datatype Client = Client(
    id: Option<Uuid>,
    firstName: string,
    lastName: string,
    phone: Option<string>,
    email: Option<string>,
    notes: Option<string>)
}

/** `Photo` of an appointment; `createdAt` is a timestamp. */
module PhotoModel {
  import opened Uuids

  datatype Photo = Photo(id: Uuid, appointmentId: Uuid, photoType: string, createdAt: int)
}
