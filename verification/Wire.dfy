/** The JSON frame that travels between daemon, relay and phone. */
module Wire {
  import opened E2ee

  /** What a reader of the raw payload can make of it: an envelope, the identity fields
      of a hello, or neither. */
  datatype Payload =
    | NoPayload
    | Encrypted(env: Envelope)
    | Identity(publicKey: string, deviceId: string, deviceName: string)
    | Malformed

  datatype WireMessage = WireMessage(typ: string, sid: string, role: string, publicKey: string,
                                     deviceId: string, deviceName: string, payload: Payload)

  function Notice(typ: string, sid: string, role: string): WireMessage {
    WireMessage(typ, sid, role, "", "", "", NoPayload)
  }

  function Cipher(sid: string, role: string, env: Envelope): WireMessage {
    WireMessage("ciphertext", sid, role, "", "", "", Encrypted(env))
  }
}
