/** The events of the application bus that the modelled code emits or
    listens to, with the payloads the event map gives them. Delivery is not
    modelled: an operation that emits returns the events it emits, in
    order, and an operation that listens is called with the event. */
module Events {
  import opened Common

  datatype AppEvent =
    | ApprovalRequested(id: string, description: string)
    | ApprovalDecision(id: string, approved: bool)
    | ReminderTriggered(id: string, note: string)
      /** `agent:message_received`; the images are base64 strings. */
    | MessageReceived(text: string, images: seq<string>, chatId: int, userId: string)
      /** `node:log`; its fields are whatever JSON the emitter supplies. */
    | NodeLog(source: Json, target: Json, action: Json, payload: Json)
}
