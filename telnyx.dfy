/**
 * What the Telnyx-facing serverless functions share: the environment they read
 * and the Call Control requests they send. An environment variable that is not
 * set reads as "" (both are falsy to the handlers). Only which request is sent,
 * and with what, is modelled; the HTTP exchange itself is not.
 */
module Telnyx {
  import opened Js

  /** TELNYX_API_KEY, TELNYX_PHONE_NUMBER, TELNYX_CONNECTION_ID, VM_DROP_AUDIO_URL, VERCEL_URL. */
  datatype Env = Env(apiKey: string, fromNumber: string, connectionId: string, vmUrl: string, vercelUrl: string)

  /** A Call Control request: create a call, start playing audio on one, or hang one up. */
  datatype Call =
    | Dial(to: string, from: string, connectionId: string, webhookUrl: string)
    | PlaybackStart(callControlId: Value, audioUrl: string)
    | Hangup(callControlId: Value)
}
