/**
 * The message envelope of modules_v2/dm_message_model.py: the only way the
 * bargaining engine, the travel institution and the traders talk to each other.
 * A Message is a value; nothing assigns its fields after construction.
 */
module Messages {

  /** directive and the two names are strings; the payload is carried as is. */
  datatype Message<+P> = Message(directive: string, sender: string, receiver: string, payload: P)
  {
    function GetDirective(): string { directive }

    function GetSender(): string { sender }

    function GetReceiver(): string { receiver }

    function GetPayload(): P { payload }

    /** The four fields as a tuple, in the order directive, sender, receiver, payload. */
    function Unpack(): (t: (string, string, string, P))
      ensures Message(t.0, t.1, t.2, t.3) == this
    {
      (directive, sender, receiver, payload)
    }
  }
}
