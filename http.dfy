/** What an Express handler sends back: a status code and a JSON body. */
module Http {
  import opened Js

  datatype Reply = Reply(status: nat, body: Json)

  /** `{ error: message }`; the `details` text some routes add next to it is
      the message of a foreign exception and is not modelled. */
  function ErrorBody(message: string): Json {
    Obj([("error", Str(message))])
  }

  function Error(status: nat, message: string): Reply {
    Reply(status, ErrorBody(message))
  }
}
